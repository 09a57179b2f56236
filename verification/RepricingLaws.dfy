/** Which documents of an order an edit prices anew, whatever has become of the price table since the quote. */
module RepricingLaws {
  import opened Options
  import opened PriceBook
  import opened OrderPricing
  import opened PriceLaws
  import opened Repricing

  ghost predicate HasTier(book: Book, combo: Combo) {
    exists k: nat :: k < |book.tiers| && book.tiers[k].active && book.tiers[k].combo == combo
  }

  lemma HasTierIs(book: Book, combo: Combo)
    ensures HasTier(book, combo) <==> |ActiveTiers(book.tiers, combo)| > 0
  {
    var found := ActiveTiers(book.tiers, combo);
    if |found| > 0 {
      assert found[0] in book.tiers;
      var k: nat :| k < |book.tiers| && book.tiers[k] == found[0];
    }
    if k: nat :| k < |book.tiers| && book.tiers[k].active && book.tiers[k].combo == combo {
      assert book.tiers[k] in found;
    }
  }

  /** The document costs its pages times today's price for all pages of its combination in these documents. */
  ghost predicate CostsToday(book: Book, lines: seq<Line>, x: Item) {
    exists price: nat :: RowsSay(book, x.line.combo, PagesInOrder(lines, x.line.combo), price)
                         && x.amount == price * x.billablePages
  }

  lemma {:induction false} SameStored(a: seq<Item>, b: seq<Item>, combo: Combo)
    requires |a| == |b| && forall k :: 0 <= k < |a| ==> a[k].line == b[k].line && a[k].billablePages == b[k].billablePages
    ensures StoredPages(a, combo) == StoredPages(b, combo)
  {
    if a != [] {
      SameStored(a[..|a| - 1], b[..|b| - 1], combo);
    }
  }

  /** One document before and after its order's combinations were repriced. */
  ghost predicate Touched(book: Book, items: seq<Item>, combos: seq<Combo>, edited: Option<ItemId>, x: Item, y: Item) {
    && y.line == x.line && y.billablePages == x.billablePages
    && if x.line.combo in combos && (HasTier(book, x.line.combo) || edited == Some(x.line.id)) then
         var rate := Resolve(book, x.line.combo, StoredPages(items, x.line.combo));
         rate.Some? && y.amount == rate.value.price * x.billablePages
       else y.amount == x.amount
  }

  lemma {:induction false} RepriceTouches(book: Book, items: seq<Item>, combos: seq<Combo>, edited: Option<ItemId>)
    requires RepriceCombos(book, items, combos, edited).Some?
    requires forall j, k :: 0 <= j < k < |combos| ==> combos[j] != combos[k]
    ensures var after := RepriceCombos(book, items, combos, edited).value;
            |after| == |items| && forall k :: 0 <= k < |items| ==> Touched(book, items, combos, edited, items[k], after[k])
    decreases |combos|
  {
    hide Resolve, StoredPages;
    if combos != [] {
      var combo, rest := combos[0], combos[1..];
      var next := RepriceCombo(book, items, combo, edited).value;
      HasTierIs(book, combo);
      FirstTouches(book, items, combo, edited);
      RepriceTouches(book, next, rest, edited);
      hide RepriceCombo, HasTier;
      var after := RepriceCombos(book, next, rest, edited).value;
      forall k | 0 <= k < |items| ensures Touched(book, items, combos, edited, items[k], after[k]) {
        assert Touched(book, items, [combo], edited, items[k], next[k]) && Touched(book, next, rest, edited, next[k], after[k]);
        SameStored(items, next, items[k].line.combo);
        assert combos == [combo] + rest;
      }
    }
  }

  lemma FirstTouches(book: Book, items: seq<Item>, combo: Combo, edited: Option<ItemId>)
    requires RepriceCombo(book, items, combo, edited).Some?
    ensures var next := RepriceCombo(book, items, combo, edited).value;
            |next| == |items| && forall k :: 0 <= k < |items| ==> Touched(book, items, [combo], edited, items[k], next[k])
  {
    hide StoredPages;
    HasTierIs(book, combo);
  }

  /** A repriced document costs what the rows say today. */
  lemma RepricedCosts(book: Book, items: seq<Item>, x: Item, amount: int)
    requires Consistent(items) && Resolve(book, x.line.combo, StoredPages(items, x.line.combo)).Some?
    requires amount == Resolve(book, x.line.combo, StoredPages(items, x.line.combo)).value.price * x.billablePages >= 0
    ensures CostsToday(book, Lines(items), x.(amount := amount))
  {
    var combo := x.line.combo;
    StoredIsPages(items, combo);
    SamePages(Lines(items), combo);
    PriceIsFromRows(book, combo, StoredPages(items, combo));
    hide RowsSay, Resolve, StoredPages, PagesOf, PagesInOrder;
  }

  predicate Chosen<T(==)>(wanted: Option<T>, was: T, now: T) {
    now == if wanted.Some? then wanted.value else was
  }

  /** The document with its new settings, and its pages counted again. */
  predicate Resettled(x: Item, wanted: Wanted, y: Item) {
    && y.line.id == x.line.id && y.line.pageCount == x.line.pageCount
    && Chosen(wanted.paper, x.line.combo.paper, y.line.combo.paper)
    && Chosen(wanted.color, x.line.combo.color, y.line.combo.color)
    && Chosen(wanted.side, x.line.combo.side, y.line.combo.side)
    && Chosen(wanted.copies, x.line.copies, y.line.copies)
    && y.billablePages == x.line.pageCount * y.line.copies
  }

  /** Amounts after a repricing: today's in tiered combinations that the edit touched, the quote's anywhere else. */
  ghost predicate Repriced(book: Book, before: seq<Item>, combos: set<Combo>, edited: Option<ItemId>, after: seq<Item>) {
    && |after| == |before| && Lines(after) == Lines(before)
    && forall k :: 0 <= k < |before| ==>
         after[k].billablePages == before[k].billablePages &&
         if before[k].line.combo in combos && (HasTier(book, before[k].line.combo) || edited == Some(before[k].line.id))
         then CostsToday(book, Lines(after), after[k])
         else after[k] == before[k]
  }

  function Among(combos: seq<Combo>): set<Combo> {
    set c | c in combos
  }

  lemma RepricedIs(book: Book, items: seq<Item>, combos: seq<Combo>, edited: Option<ItemId>)
    requires Consistent(items) && RepriceCombos(book, items, combos, edited).Some?
    requires forall j, k :: 0 <= j < k < |combos| ==> combos[j] != combos[k]
    ensures Repriced(book, items, Among(combos), edited, RepriceCombos(book, items, combos, edited).value)
  {
    hide Resolve, StoredPages, RepriceCombos, HasTier, CostsToday, Consistent;
    var after := RepriceCombos(book, items, combos, edited).value;
    RepriceTouches(book, items, combos, edited);
    assert Lines(after) == Lines(items);
    forall k | 0 <= k < |items| && items[k].line.combo in combos
               && (HasTier(book, items[k].line.combo) || edited == Some(items[k].line.id))
      ensures CostsToday(book, Lines(after), after[k])
    {
      assert Touched(book, items, combos, edited, items[k], after[k]);
      RepricedCosts(book, items, items[k], after[k].amount);
      assert after[k] == items[k].(amount := after[k].amount);
    }
    forall k | 0 <= k < |items| && !(items[k].line.combo in combos
                                     && (HasTier(book, items[k].line.combo) || edited == Some(items[k].line.id)))
      ensures after[k] == items[k]
    {
      assert Touched(book, items, combos, edited, items[k], after[k]);
    }
  }

  /** The same order with the document's new settings and its amount as it was. */
  function Updated(order: Order, i: nat, x: Item): seq<Item>
    requires i < |order.items|
  {
    order.items[i := x.(amount := order.items[i].amount)]
  }

  /**
   * A change of settings: the document gets them; in an order and shop with pricing it is priced anew, and so are the
   * others of its old and its new combination where that has tiers; all the rest keep what the quote locked in.
   */
  lemma SettingsPrice(book: Book, order: Order, i: nat, wanted: Wanted)
    requires Consistent(order.items) && DistinctIds(Lines(order.items)) && i < |order.items|
    requires order.priced && book.pricingEnabled
    requires Changed(book, order, Settings(order.items[i].line.id, wanted)).Some?
    ensures var id := order.items[i].line.id;
            var after := Changed(book, order, Settings(id, wanted)).value;
            && |after.items| == |order.items| && after.priced && after.amount == Total(after.items)
            && Resettled(order.items[i], wanted, after.items[i])
            && Repriced(book, Updated(order, i, after.items[i]), {order.items[i].line.combo, after.items[i].line.combo},
                        Some(id), after.items)
  {
    var id := order.items[i].line.id;
    FoundAt(order.items, i);
    var item := NewItem(order.items[i], wanted);
    var updated := order.items[i := item];
    var keys := Keys(order.items[i].line.combo, item.line.combo);
    NewItemSettled(order.items, i, wanted);
    hide RepriceCombos, Repriced, Resolve, Sum, Total, Offered, FindItem, NewItem, Consistent, Lines, DistinctIds, Resettled;
    var after := Changed(book, order, Settings(id, wanted)).value;
    RepricedIs(book, updated, keys, Some(id));
    SameTotal(after.items);
    SameItemAt(book, updated, Among(keys), Some(id), after.items, i);
    SettledAmount(order.items[i], wanted, item, after.items[i]);
  }

  lemma NewItemSettled(items: seq<Item>, i: nat, wanted: Wanted)
    requires Consistent(items) && i < |items|
    ensures var item := NewItem(items[i], wanted);
            && Resettled(items[i], wanted, item) && item.line.id == items[i].line.id && item.amount == items[i].amount
            && item.billablePages == Billable(item.line) && Consistent(items[i := item])
    ensures forall c: Combo, d: Combo :: Among(Keys(c, d)) == {c, d}
  {
  }

  lemma SettledAmount(x: Item, wanted: Wanted, y: Item, z: Item)
    requires Resettled(x, wanted, y) && z.line == y.line && z.billablePages == y.billablePages
    ensures Resettled(x, wanted, z)
  {
  }

  lemma SameItemAt(book: Book, before: seq<Item>, combos: set<Combo>, edited: Option<ItemId>, after: seq<Item>, i: nat)
    requires Repriced(book, before, combos, edited, after) && i < |before|
    ensures |after| == |before| && after[i].line == before[i].line && after[i].billablePages == before[i].billablePages
  {
    LinesAre(before, i);
    LinesAre(after, i);
  }

  /** Without pricing the settings change and no amount does. */
  lemma SettingsUnpriced(book: Book, order: Order, i: nat, wanted: Wanted)
    requires DistinctIds(Lines(order.items)) && i < |order.items| && !(order.priced && book.pricingEnabled)
    ensures var after := Changed(book, order, Settings(order.items[i].line.id, wanted));
            && after.Some? && |after.value.items| == |order.items|
            && after.value.amount == order.amount && after.value.priced == order.priced
            && Resettled(order.items[i], wanted, after.value.items[i])
            && after.value.items == Updated(order, i, after.value.items[i])
  {
    FoundAt(order.items, i);
    hide FindItem, Lines, DistinctIds;
  }

  lemma FoundAt(items: seq<Item>, i: nat)
    requires DistinctIds(Lines(items)) && i < |items|
    ensures FindItem(items, items[i].line.id, 0) == Some(i)
  {
    FirstOfId(items, i, 0);
  }

  lemma {:induction false} FirstOfId(items: seq<Item>, i: nat, from: nat)
    requires DistinctIds(Lines(items)) && from <= i < |items|
    ensures FindItem(items, items[i].line.id, from) == Some(i)
    decreases i - from
  {
    LinesAre(items, i);
    LinesAre(items, from);
    if from < i {
      FirstOfId(items, i, from + 1);
    }
  }

  /** Without a document of that id nothing changes. */
  lemma UnknownDocument(book: Book, order: Order, change: Change)
    requires forall k :: 0 <= k < |order.items| ==> order.items[k].line.id != change.id
    ensures Changed(book, order, change).None?
  {
  }

  /** A removal: the document goes; with pricing, the others of its combination are priced anew where it has tiers. */
  lemma RemovalPrices(book: Book, order: Order, i: nat)
    requires Consistent(order.items) && DistinctIds(Lines(order.items)) && i < |order.items|
    requires Changed(book, order, Remove(order.items[i].line.id)).Some?
    ensures var after := Changed(book, order, Remove(order.items[i].line.id)).value;
            var kept := order.items[..i] + order.items[i + 1..];
            && after.priced == order.priced && after.amount == Total(after.items)
            && if order.priced && book.pricingEnabled
               then Repriced(book, kept, {order.items[i].line.combo}, None, after.items) else after.items == kept
  {
    FoundAt(order.items, i);
    var kept, combo := order.items[..i] + order.items[i + 1..], order.items[i].line.combo;
    var after := Changed(book, order, Remove(order.items[i].line.id)).value;
    hide RepriceCombos, Repriced, Resolve, Sum, Total, FindItem;
    SameTotal(after.items);
    if order.priced && book.pricingEnabled {
      KeptConsistent(order.items, i);
      RepricedIs(book, kept, [combo], None);
      assert Among([combo]) == {combo};
    }
  }
}
