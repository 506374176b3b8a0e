/** Where the two variants of the backend part ways on the same input. */
module Variants {
  import opened Collections
  import opened Restaurant
  import OldStyle
  import NewStyle

  /** An object entry naming Pizza (id 2) at price 1: the first variant
      re-reads the catalog and charges 32, the second charges what it was told. */
  lemma InlinePriceSource()
    ensures var raw := [Inline(InlineObject(IntId(2), Missing, Some("Pizza"), Some(Number(1.0)), None))];
      && OldStyle.Normalize(OldStyle.Menu0, raw) == Ok([LineItem(IntId(2), "Pizza", 32.0, 1.0)])
      && NewStyle.Normalize(NewStyle.Menu0, raw) == Ok([LineItem(IntId(2), "Pizza", 1.0, 1.0)])
  {
    var raw := [Inline(InlineObject(IntId(2), Missing, Some("Pizza"), Some(Number(1.0)), None))];
    var li := LineItem(IntId(2), "Pizza", 32.0, 1.0);
    assert FindMenuItem(OldStyle.Menu0, 2) == Some(1);
    assert OldStyle.NormalizeEntry(OldStyle.Menu0, raw[0]) == Kept(li);
    assert raw[..0] == [];
    NormalizeStep(OldStyle.NormalizeEntry, OldStyle.Menu0, raw, 0, []);
    assert raw[..1] == raw;
    assert [] + [li] == [li];
    NewStyle.CallerPriceAccepted(NewStyle.Menu0, "Pizza", 1.0);
  }

  /** An object entry carrying only a menu id: the first variant resolves it
      against the catalog, the second drops it for lacking a name and price. */
  lemma InlineIdOnly()
    ensures var raw := [Inline(InlineObject(Missing, IntId(3), None, None, None))];
      && OldStyle.Normalize(OldStyle.Menu0, raw) == Ok([LineItem(IntId(3), "Chicken Biryani", 28.0, 1.0)])
      && NewStyle.Normalize(NewStyle.Menu0, raw) == Ok([])
  {
    var raw := [Inline(InlineObject(Missing, IntId(3), None, None, None))];
    var li := LineItem(IntId(3), "Chicken Biryani", 28.0, 1.0);
    OldIdOnlyEntry();
    assert raw[..0] == [];
    assert raw[..1] == raw;
    NormalizeStep(OldStyle.NormalizeEntry, OldStyle.Menu0, raw, 0, []);
    assert [] + [li] == [li];
    assert NewStyle.NormalizeEntry(NewStyle.Menu0, raw[0]) == Dropped;
    NormalizeStep(NewStyle.NormalizeEntry, NewStyle.Menu0, raw, 0, []);
  }

  /** The first variant resolves `{menu_id: 3}` to the seeded Chicken Biryani. */
  lemma OldIdOnlyEntry()
    ensures OldStyle.NormalizeEntry(OldStyle.Menu0, Inline(InlineObject(Missing, IntId(3), None, None, None)))
         == Kept(LineItem(IntId(3), "Chicken Biryani", 28.0, 1.0))
  {
    assert FindMenuItem(OldStyle.Menu0, 3) == Some(2);
  }

  /** A fractional quantity is kept by the first variant and truncated toward
      zero by the second. */
  lemma FractionalQuantity()
    ensures var raw := [Inline(InlineObject(IntId(1), Missing, Some("Karak Tea"), Some(Number(6.0)), Some(Number(2.5))))];
      && OldStyle.Normalize(OldStyle.Menu0, raw) == Ok([LineItem(IntId(1), "Karak Tea", 6.0, 2.5)])
      && NewStyle.Normalize(NewStyle.Menu0, raw) == Ok([LineItem(IntId(1), "Karak Tea", 6.0, 2.0)])
  {
    var raw := [Inline(InlineObject(IntId(1), Missing, Some("Karak Tea"), Some(Number(6.0)), Some(Number(2.5))))];
    var a := LineItem(IntId(1), "Karak Tea", 6.0, 2.5);
    var b := LineItem(IntId(1), "Karak Tea", 6.0, 2.0);
    assert FindMenuItem(OldStyle.Menu0, 1) == Some(0);
    assert OldStyle.NormalizeEntry(OldStyle.Menu0, raw[0]) == Kept(a);
    assert TruncateTowardZero(2.5) == 2;
    assert NewStyle.NormalizeEntry(NewStyle.Menu0, raw[0]) == Kept(b);
    assert raw[..0] == [];
    assert raw[..1] == raw;
    NormalizeStep(OldStyle.NormalizeEntry, OldStyle.Menu0, raw, 0, []);
    NormalizeStep(NewStyle.NormalizeEntry, NewStyle.Menu0, raw, 0, []);
    assert [] + [a] == [a] && [] + [b] == [b];
  }

  /** The second variant's kitchen filter is narrower than the first variant's
      kitchen queue: every order it keeps is active, but a READY order is
      active and not kept. */
  lemma KitchenViews(o: Order)
    ensures NewStyle.KitchenVisible(o) ==> OldStyle.IsActive(o)
    ensures o.status == Ready ==> OldStyle.IsActive(o) && !NewStyle.KitchenVisible(o)
  {
  }
}
