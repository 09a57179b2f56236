/** Editing a confirmed order document by document keeps its prices what a new quote for it would say. */
module Repricing {
  import opened Options
  import opened PriceBook
  import opened OrderPricing

  /** The settings a shop may change for one document; what is left out stays. */
  datatype Wanted = Wanted(
    paper: Option<PaperSize>,
    color: Option<ColorMode>,
    side: Option<SideMode>,
    copies: Option<nat>)

  datatype Change = Settings(id: ItemId, wanted: Wanted) | Remove(id: ItemId)

  function FindItem(items: seq<Item>, id: ItemId, from: nat): (found: Option<nat>)
    requires from <= |items|
    ensures found.Some? ==> from <= found.value < |items| && items[found.value].line.id == id
    ensures found.None? ==> forall k :: from <= k < |items| ==> items[k].line.id != id
    decreases |items| - from
  {
    if from == |items| then None
    else if items[from].line.id == id then Some(from)
    else FindItem(items, id, from + 1)
  }

  function NewLine(line: Line, wanted: Wanted): Line {
    line.(combo := Combo(wanted.paper.GetOr(line.combo.paper), wanted.color.GetOr(line.combo.color),
                         wanted.side.GetOr(line.combo.side)),
          copies := wanted.copies.GetOr(line.copies))
  }

  /** The item with its new settings and page count, and its old amount. */
  function NewItem(item: Item, wanted: Wanted): Item {
    var line := NewLine(item.line, wanted);
    Item(line, Billable(line), item.amount)
  }

  /** The stored pages of a combination. */
  function StoredPages(items: seq<Item>, combo: Combo): nat {
    if items == [] then 0
    else
      var last := |items| - 1;
      StoredPages(items[..last], combo) + if items[last].line.combo == combo then items[last].billablePages else 0
  }

  predicate Holds(items: seq<Item>, combo: Combo) {
    exists k :: 0 <= k < |items| && items[k].line.combo == combo
  }

  /** Without tiers only the edited document is priced anew; the others keep what the quote locked in. */
  function RepricedItem(x: Item, combo: Combo, rate: Resolved, edited: Option<ItemId>): Item {
    if x.line.combo == combo && (rate.hasTiers || edited == Some(x.line.id)) then
      x.(amount := rate.price * x.billablePages)
    else x
  }

  function RepricedItems(items: seq<Item>, combo: Combo, rate: Resolved, edited: Option<ItemId>): seq<Item> {
    seq(|items|, k requires 0 <= k < |items| => RepricedItem(items[k], combo, rate, edited))
  }

  function RepriceCombo(book: Book, items: seq<Item>, combo: Combo, edited: Option<ItemId>): Option<seq<Item>> {
    if !Holds(items, combo) then Some(items)
    else
      var rate := Resolve(book, combo, StoredPages(items, combo));
      if rate.None? then None else Some(RepricedItems(items, combo, rate.value, edited))
  }

  function RepriceCombos(book: Book, items: seq<Item>, combos: seq<Combo>, edited: Option<ItemId>): Option<seq<Item>>
    decreases |combos|
  {
    if combos == [] then Some(items)
    else
      var first := RepriceCombo(book, items, combos[0], edited);
      if first.None? then None else RepriceCombos(book, first.value, combos[1..], edited)
  }

  function Keys(a: Combo, b: Combo): seq<Combo> {
    if a == b then [a] else [a, b]
  }

  /** The order after a change, or None when it is refused. */
  function Changed(book: Book, order: Order, change: Change): Option<Order> {
    var items := order.items;
    var at := FindItem(items, change.id, 0);
    if at.None? then None
    else
      var i := at.value;
      var reprice := order.priced && book.pricingEnabled;
      match change
      case Settings(id, wanted) =>
        var item := NewItem(items[i], wanted);
        var updated := items[i := item];
        if !reprice then Some(order.(items := updated))
        else if !Offered(book.rates, item.line.combo) then None
        else
          var repriced := RepriceCombos(book, updated, Keys(items[i].line.combo, item.line.combo), Some(id));
          if repriced.None? then None else Some(Order(order.priced, repriced.value, Sum(repriced.value)))
      case Remove(_) =>
        if |items| == 1 then None
        else
          var kept := items[..i] + items[i + 1..];
          var repriced := if reprice then RepriceCombos(book, kept, [items[i].line.combo], None) else Some(kept);
          if repriced.None? then None else Some(Order(order.priced, repriced.value, Sum(repriced.value)))
  }

  function ChangedAll(book: Book, order: Order, changes: seq<Change>): Order
    decreases |changes|
  {
    if changes == [] then order else ChangedAll(book, Changed(book, order, changes[0]).GetOr(order), changes[1..])
  }

  // ------------------------------------------------------- pages and prices

  predicate DistinctIds(lines: seq<Line>) {
    forall j, k :: 0 <= j < k < |lines| ==> lines[j].id != lines[k].id
  }

  predicate Consistent(items: seq<Item>) {
    forall k :: 0 <= k < |items| ==> items[k].billablePages == Billable(items[k].line)
  }

  lemma {:induction false} StoredIsPages(items: seq<Item>, combo: Combo)
    requires Consistent(items)
    ensures StoredPages(items, combo) == PagesOf(Lines(items), combo)
  {
    if items != [] {
      var last := |items| - 1;
      StoredIsPages(items[..last], combo);
      assert Lines(items)[..last] == Lines(items[..last]);
    }
  }

  /** Changing a line touches the pages of its old and new combination only. */
  lemma {:induction false} OtherPagesKept(lines: seq<Line>, i: nat, line: Line, combo: Combo)
    requires i < |lines| && lines[i].combo != combo && line.combo != combo
    ensures PagesOf(lines[i := line], combo) == PagesOf(lines, combo)
  {
    var last := |lines| - 1;
    if i < last {
      OtherPagesKept(lines[..last], i, line, combo);
      assert lines[i := line][..last] == lines[..last][i := line];
    } else {
      assert lines[i := line][..last] == lines[..last];
    }
  }

  lemma {:induction false} RemovedPagesKept(lines: seq<Line>, i: nat, combo: Combo)
    requires i < |lines| && lines[i].combo != combo
    ensures PagesOf(lines[..i] + lines[i + 1..], combo) == PagesOf(lines, combo)
  {
    var last := |lines| - 1;
    var rest := lines[..i] + lines[i + 1..];
    if i < last {
      RemovedPagesKept(lines[..last], i, combo);
      assert rest[..|rest| - 1] == lines[..last][..i] + lines[..last][i + 1..];
    } else {
      assert rest == lines[..last];
    }
  }

  /** Without tiers a combination has one price, however many pages there are. */
  lemma OnePriceWithoutTiers(book: Book, combo: Combo, pages: nat, others: nat)
    requires Offered(book.rates, combo) && !Resolve(book, combo, pages).value.hasTiers
    ensures PriceOf(book, combo, pages) == PriceOf(book, combo, others)
  {
  }

  // --------------------------------------------------- what repricing does

  predicate RightAmount(book: Book, lines: seq<Line>, x: Item) {
    && Offered(book.rates, x.line.combo)
    && x.amount == PriceOf(book, x.line.combo, PagesOf(lines, x.line.combo)) * x.billablePages
  }

  /** An amount that is right, or will be repriced, or was right for other page counts of its combination. */
  ghost predicate Repriceable(book: Book, lines: seq<Line>, x: Item, combos: seq<Combo>, edited: Option<ItemId>) {
    && Offered(book.rates, x.line.combo)
    && (x.line.combo !in combos ==> RightAmount(book, lines, x))
    && (x.line.combo in combos && edited != Some(x.line.id) ==>
          exists pages: nat :: x.amount == PriceOf(book, x.line.combo, pages) * x.billablePages)
  }

  lemma RepricedIsRight(book: Book, items: seq<Item>, combo: Combo, edited: Option<ItemId>, rate: Resolved, x: Item)
    requires Consistent(items) && x.line.combo == combo && Offered(book.rates, combo)
    requires Resolve(book, combo, StoredPages(items, combo)) == Some(rate)
    requires edited != Some(x.line.id) ==> exists pages: nat :: x.amount == PriceOf(book, combo, pages) * x.billablePages
    ensures RightAmount(book, Lines(items), RepricedItem(x, combo, rate, edited))
  {
    StoredIsPages(items, combo);
    if !rate.hasTiers && edited != Some(x.line.id) {
      var pages: nat :| x.amount == PriceOf(book, combo, pages) * x.billablePages;
      OnePriceWithoutTiers(book, combo, StoredPages(items, combo), pages);
    }
  }

  lemma RepricedLines(items: seq<Item>, combo: Combo, rate: Resolved, edited: Option<ItemId>)
    ensures Lines(RepricedItems(items, combo, rate, edited)) == Lines(items)
    ensures Consistent(items) ==> Consistent(RepricedItems(items, combo, rate, edited))
  {
  }

  /** Repricing the combinations a change touched makes every amount right, and refuses nothing. */
  lemma {:induction false} RepriceMakesRight(book: Book, items: seq<Item>, combos: seq<Combo>, edited: Option<ItemId>)
    requires Consistent(items)
    requires forall k :: 0 <= k < |items| ==> Repriceable(book, Lines(items), items[k], combos, edited)
    requires forall j, k :: 0 <= j < k < |combos| ==> combos[j] != combos[k]
    ensures var after := RepriceCombos(book, items, combos, edited);
            && after.Some? && Lines(after.value) == Lines(items) && Consistent(after.value)
            && forall k :: 0 <= k < |items| ==> RightAmount(book, Lines(items), after.value[k])
    decreases |combos|
  {
    if combos != [] {
      var combo, rest := combos[0], combos[1..];
      hide PriceOf, PagesOf, Resolve, RightAmount;
      if !Holds(items, combo) {
        forall k | 0 <= k < |items| ensures Repriceable(book, Lines(items), items[k], rest, edited) {
          assert items[k].line.combo in combos <==> items[k].line.combo in rest;
        }
        RepriceMakesRight(book, items, rest, edited);
      } else {
        var j :| 0 <= j < |items| && items[j].line.combo == combo;
        assert Repriceable(book, Lines(items), items[j], combos, edited);
        FirstReprice(book, items, combo, rest, edited);
        var rate := Resolve(book, combo, StoredPages(items, combo)).value;
        RepriceMakesRight(book, RepricedItems(items, combo, rate, edited), rest, edited);
      }
    }
  }

  lemma FirstReprice(book: Book, items: seq<Item>, combo: Combo, rest: seq<Combo>, edited: Option<ItemId>)
    requires Consistent(items) && combo !in rest && Offered(book.rates, combo)
    requires forall k :: 0 <= k < |items| ==> Repriceable(book, Lines(items), items[k], [combo] + rest, edited)
    ensures var rate := Resolve(book, combo, StoredPages(items, combo));
            && rate.Some?
            && var next := RepricedItems(items, combo, rate.value, edited);
               && Lines(next) == Lines(items) && Consistent(next)
               && forall k :: 0 <= k < |items| ==> Repriceable(book, Lines(items), next[k], rest, edited)
  {
    var rate := Resolve(book, combo, StoredPages(items, combo)).value;
    hide Resolve, PagesOf, Covers;
    RepricedLines(items, combo, rate, edited);
    var next := RepricedItems(items, combo, rate, edited);
    forall k | 0 <= k < |items| ensures Repriceable(book, Lines(items), next[k], rest, edited) {
      assert Repriceable(book, Lines(items), items[k], [combo] + rest, edited);
      if items[k].line.combo == combo {
        RepricedIsRight(book, items, combo, edited, rate, items[k]);
      }
    }
  }

  // ------------------------------------------------- same as from scratch

  /** The order is the quote its documents would get today. */
  predicate Fresh(book: Book, order: Order) {
    order.priced && Quoted(book, Lines(order.items)) == Some(order) && DistinctIds(Lines(order.items))
  }

  lemma FreshMeans(book: Book, order: Order)
    requires Fresh(book, order)
    ensures book.pricingEnabled && Consistent(order.items) && order.amount == Sum(order.items)
    ensures forall k :: 0 <= k < |order.items| ==> RightAmount(book, Lines(order.items), order.items[k])
  {
    var lines := Lines(order.items);
    assert order.items == PricedItems(book, true, lines, |lines|);
    forall k | 0 <= k < |order.items|
      ensures RightAmount(book, lines, order.items[k]) && order.items[k].billablePages == Billable(order.items[k].line)
    {
      assert order.items[k] == PricedItem(book, true, lines, lines[k]);
    }
  }

  lemma RightIsFresh(book: Book, order: Order)
    requires order.priced && book.pricingEnabled && Consistent(order.items) && order.amount == Sum(order.items)
    requires DistinctIds(Lines(order.items))
    requires forall k :: 0 <= k < |order.items| ==> RightAmount(book, Lines(order.items), order.items[k])
    ensures Fresh(book, order)
  {
    var lines := Lines(order.items);
    forall k | 0 <= k < |lines|
      ensures Offered(book.rates, lines[k].combo) && order.items[k] == PricedItem(book, true, lines, lines[k])
    {
      assert RightAmount(book, lines, order.items[k]);
    }
    assert PricedItems(book, true, lines, |lines|) == order.items;
  }

  /** After a document's settings change, the others of its old and new combination are the only amounts in doubt. */
  lemma SettingsDoubt(book: Book, order: Order, i: nat, wanted: Wanted, k: nat)
    requires Fresh(book, order) && i < |order.items| && k < |order.items|
    requires Offered(book.rates, NewItem(order.items[i], wanted).line.combo)
    ensures var item := NewItem(order.items[i], wanted); var updated := order.items[i := item];
            Repriceable(book, Lines(updated), updated[k], Keys(order.items[i].line.combo, item.line.combo),
                        Some(item.line.id))
  {
    FreshMeans(book, order);
    var item := NewItem(order.items[i], wanted);
    var updated := order.items[i := item];
    var lines := Lines(order.items);
    assert Lines(updated) == lines[i := item.line];
    assert lines[k].id == lines[i].id ==> k == i;
    hide Resolve, PagesOf, Quoted;
    if k != i {
      assert RightAmount(book, lines, order.items[k]);
      if updated[k].line.combo !in Keys(order.items[i].line.combo, item.line.combo) {
        OtherPagesKept(lines, i, item.line, updated[k].line.combo);
      }
    }
  }

  lemma RemovedLines(items: seq<Item>, i: nat)
    requires i < |items|
    ensures Lines(items[..i] + items[i + 1..]) == Lines(items)[..i] + Lines(items)[i + 1..]
  {
  }

  lemma RemovalDoubt(book: Book, order: Order, i: nat, k: nat)
    requires Fresh(book, order) && i < |order.items| && k < |order.items| - 1
    ensures var kept := order.items[..i] + order.items[i + 1..];
            Repriceable(book, Lines(kept), kept[k], [order.items[i].line.combo], None)
  {
    FreshMeans(book, order);
    hide Resolve, PagesOf, Quoted, Lines, Fresh, PriceOf, Consistent, Sum, Offered;
    var kept, lines := order.items[..i] + order.items[i + 1..], Lines(order.items);
    RemovedLines(order.items, i);
    LinesAre(order.items, i);
    assert kept[k] == order.items[if k < i then k else k + 1];
    assert RightAmount(book, lines, kept[k]);
    if kept[k].line.combo != order.items[i].line.combo {
      RemovedPagesKept(lines, i, kept[k].line.combo);
    }
  }

  lemma LinesAre(items: seq<Item>, i: nat)
    requires i < |items|
    ensures |Lines(items)| == |items| && Lines(items)[i] == items[i].line
  {
  }

  /** All amounts are right for these documents, and may be summed up. */
  predicate AllRight(book: Book, lines: seq<Line>, items: seq<Item>) {
    && Lines(items) == lines && Consistent(items)
    && forall k :: 0 <= k < |items| ==> RightAmount(book, lines, items[k])
  }

  lemma AllRightIsFresh(book: Book, lines: seq<Line>, items: seq<Item>)
    requires book.pricingEnabled && DistinctIds(lines) && AllRight(book, lines, items)
    ensures Fresh(book, Order(true, items, Sum(items)))
  {
    RightIsFresh(book, Order(true, items, Sum(items)));
  }

  lemma SettingsRepriced(book: Book, order: Order, i: nat, wanted: Wanted)
    requires Fresh(book, order) && i < |order.items|
    requires Offered(book.rates, NewItem(order.items[i], wanted).line.combo)
    ensures var item := NewItem(order.items[i], wanted);
            var after := RepriceCombos(book, order.items[i := item], Keys(order.items[i].line.combo, item.line.combo),
                                       Some(item.line.id));
            after.Some? && AllRight(book, Lines(order.items)[i := item.line], after.value)
  {
    FreshMeans(book, order);
    var item := NewItem(order.items[i], wanted);
    var updated := order.items[i := item];
    assert Lines(updated) == Lines(order.items)[i := item.line];
    hide Fresh, RightAmount, Repriceable, RepriceCombos, Lines;
    var combos := Keys(order.items[i].line.combo, item.line.combo);
    forall k | 0 <= k < |updated| ensures Repriceable(book, Lines(updated), updated[k], combos, Some(item.line.id)) {
      SettingsDoubt(book, order, i, wanted, k);
    }
    RepriceMakesRight(book, updated, combos, Some(item.line.id));
    LinesLength(updated, RepriceCombos(book, updated, combos, Some(item.line.id)).value);
  }

  lemma LinesLength(a: seq<Item>, b: seq<Item>)
    requires Lines(a) == Lines(b)
    ensures |a| == |b|
  {
    assert |Lines(a)| == |a| && |Lines(b)| == |b|;
  }

  lemma RemovalRepriced(book: Book, order: Order, i: nat)
    requires Fresh(book, order) && i < |order.items|
    ensures var after := RepriceCombos(book, order.items[..i] + order.items[i + 1..], [order.items[i].line.combo], None);
            after.Some? && AllRight(book, Lines(order.items)[..i] + Lines(order.items)[i + 1..], after.value)
  {
    FreshMeans(book, order);
    var kept := order.items[..i] + order.items[i + 1..];
    LinesAre(order.items, i);
    RemovedLines(order.items, i);
    hide Fresh, RightAmount, Repriceable, RepriceCombos, Lines;
    forall k | 0 <= k < |kept| ensures Repriceable(book, Lines(kept), kept[k], [order.items[i].line.combo], None) {
      RemovalDoubt(book, order, i, k);
    }
    KeptConsistent(order.items, i);
    RepriceMakesRight(book, kept, [order.items[i].line.combo], None);
    LinesLength(kept, RepriceCombos(book, kept, [order.items[i].line.combo], None).value);
  }

  lemma KeptConsistent(items: seq<Item>, i: nat)
    requires Consistent(items) && i < |items|
    ensures Consistent(items[..i] + items[i + 1..])
  {
  }

  lemma LinesOfRight(book: Book, lines: seq<Line>, items: seq<Item>)
    requires AllRight(book, lines, items)
    ensures Lines(items) == lines
  {
  }

  lemma StillDistinct(lines: seq<Line>, i: nat)
    requires DistinctIds(lines) && i < |lines|
    ensures DistinctIds(lines[..i] + lines[i + 1..])
  {
  }

  lemma SettingsFresh(book: Book, order: Order, id: ItemId, wanted: Wanted)
    requires Fresh(book, order) && FindItem(order.items, id, 0).Some?
    ensures var i := FindItem(order.items, id, 0).value; var after := Changed(book, order, Settings(id, wanted));
            && (after.Some? <==> Offered(book.rates, NewLine(order.items[i].line, wanted).combo))
            && (after.Some? ==>
                  && Fresh(book, after.value)
                  && Lines(after.value.items) == Lines(order.items)[i := NewLine(order.items[i].line, wanted)])
  {
    FreshMeans(book, order);
    FreshIds(book, order);
    var i := FindItem(order.items, id, 0).value;
    var item := NewItem(order.items[i], wanted);
    LinesAre(order.items, i);
    hide Fresh, RightAmount, RepriceCombos, Lines, Sum, Resolve, Offered;
    if Offered(book.rates, item.line.combo) {
      SettingsRepriced(book, order, i, wanted);
      var combos := Keys(order.items[i].line.combo, item.line.combo);
      AllRightIsFresh(book, Lines(order.items)[i := item.line],
                      RepriceCombos(book, order.items[i := item], combos, Some(id)).value);
    }
  }

  lemma FreshIds(book: Book, order: Order)
    requires Fresh(book, order)
    ensures order.priced && DistinctIds(Lines(order.items))
  {
  }

  lemma RemovalFresh(book: Book, order: Order, id: ItemId)
    requires Fresh(book, order) && FindItem(order.items, id, 0).Some?
    ensures var i := FindItem(order.items, id, 0).value; var after := Changed(book, order, Remove(id));
            |Lines(order.items)| == |order.items|
            && (after.Some? <==> |order.items| > 1)
            && (after.Some? ==>
                  && Fresh(book, after.value)
                  && Lines(after.value.items) == Lines(order.items)[..i] + Lines(order.items)[i + 1..])
  {
    FreshMeans(book, order);
    FreshIds(book, order);
    var i := FindItem(order.items, id, 0).value;
    LinesAre(order.items, i);
    StillDistinct(Lines(order.items), i);
    hide Fresh, RightAmount, RepriceCombos, Lines, Sum, Resolve, Offered, DistinctIds, AllRight, Consistent;
    if |order.items| > 1 {
      RemovalRepriced(book, order, i);
      var lines := Lines(order.items)[..i] + Lines(order.items)[i + 1..];
      var repriced := RepriceCombos(book, order.items[..i] + order.items[i + 1..], [order.items[i].line.combo], None).value;
      LinesOfRight(book, lines, repriced);
      AllRightIsFresh(book, lines, repriced);
    }
  }

  /**
   * While the price table stays as it was, an order edited in any way, any number of times, is to the paisa the
   * order that a new quote for its present documents would make.
   */
  lemma {:induction false} EditingIsRequoting(book: Book, order: Order, changes: seq<Change>)
    requires Fresh(book, order)
    ensures var after := ChangedAll(book, order, changes); Quoted(book, Lines(after.items)) == Some(after)
    ensures Fresh(book, ChangedAll(book, order, changes))
    decreases |changes|
  {
    if changes != [] {
      hide Changed;
      var change := changes[0];
      var at := FindItem(order.items, change.id, 0);
      if at.None? {
        UnknownIsRefused(book, order, change);
      } else {
        match change
        case Settings(id, wanted) => SettingsFresh(book, order, id, wanted);
        case Remove(id) => RemovalFresh(book, order, id);
      }
      EditingIsRequoting(book, Changed(book, order, change).GetOr(order), changes[1..]);
    }
  }

  lemma UnknownIsRefused(book: Book, order: Order, change: Change)
    requires FindItem(order.items, change.id, 0).None?
    ensures Changed(book, order, change).None?
  {
  }

  /** Every priced quote for distinct documents starts that way. */
  lemma QuotesAreFresh(book: Book, lines: seq<Line>)
    requires Quoted(book, lines).Some? && book.pricingEnabled && DistinctIds(lines)
    ensures Fresh(book, Quoted(book, lines).value) && Lines(Quoted(book, lines).value.items) == lines
  {
    assert Lines(Quoted(book, lines).value.items) == lines;
  }

  // ------------------------------------------------- whatever the table does

  lemma {:induction false} SameAmountsSum(a: seq<Item>, b: seq<Item>)
    requires |a| == |b| && forall k :: 0 <= k < |a| ==> a[k].amount == b[k].amount
    ensures Sum(a) == Sum(b)
  {
    if a != [] {
      SameAmountsSum(a[..|a| - 1], b[..|b| - 1]);
    }
  }

  /** The price table may change between edits. */
  function EditedUnder(order: Order, edits: seq<(Book, Change)>): Order
    decreases |edits|
  {
    if edits == [] then order else EditedUnder(Changed(edits[0].0, order, edits[0].1).GetOr(order), edits[1..])
  }

  /** Whatever becomes of the table and the pricing switch, the order's amount is the sum of its documents'. */
  lemma {:induction false} AmountIsSum(order: Order, edits: seq<(Book, Change)>)
    requires order.amount == Sum(order.items)
    ensures EditedUnder(order, edits).amount == Sum(EditedUnder(order, edits).items)
    decreases |edits|
  {
    if edits != [] {
      var after := Changed(edits[0].0, order, edits[0].1);
      if after.Some? && edits[0].1.Settings? {
        var i := FindItem(order.items, edits[0].1.id, 0).value;
        SameAmountsSum(order.items, order.items[i := NewItem(order.items[i], edits[0].1.wanted)]);
      }
      hide RepriceCombos, Sum;
      AmountIsSum(after.GetOr(order), edits[1..]);
    }
  }

  /**
   * Removing a document is refused exactly for the last one, or when the ones left in its combination would have to
   * be priced again and the shop no longer offers it.
   */
  lemma RemovalIsRefusedWhen(book: Book, order: Order, id: ItemId)
    requires FindItem(order.items, id, 0).Some?
    ensures var i := FindItem(order.items, id, 0).value; var combo := order.items[i].line.combo;
            Changed(book, order, Remove(id)).None? <==>
              || |order.items| == 1
              || (&& order.priced && book.pricingEnabled && !Offered(book.rates, combo)
                  && Holds(order.items[..i] + order.items[i + 1..], combo))
  {
    hide Sum, StoredPages, RepricedItems;
    var i := FindItem(order.items, id, 0).value;
    var kept, combo := order.items[..i] + order.items[i + 1..], order.items[i].line.combo;
    assert [combo][1..] == [];
    assert forall items: seq<Item> :: RepriceCombos(book, items, [], None) == Some(items);
  }

  // ------------------------------------------------------------ the editor

  class OrderEditor {
    var items: seq<Item>
    var amount: nat
    const priced: bool

    /** A confirmed order takes over its quote's documents and amounts. */
    constructor (quote: Order)
      ensures Order() == quote
    {
      items, amount, priced := quote.items, quote.amount, quote.priced;
    }

    function Order(): Order
      reads this
    {
      OrderPricing.Order(priced, items, amount)
    }

    /** The pages of a combination in the order, if any document has it. */
    method GroupPages(combo: Combo) returns (found: bool, totalPages: nat)
      ensures found == Holds(items, combo) && totalPages == StoredPages(items, combo)
    {
      hide Holds, StoredPages;
      found, totalPages := false, 0;
      HoldsNothing(combo);
      var i := 0;
      assert items[..0] == [];
      while i < |items|
        invariant 0 <= i <= |items|
        invariant found == Holds(items[..i], combo) && totalPages == StoredPages(items[..i], combo)
      {
        HoldsNext(items, combo, i);
        if items[i].line.combo == combo {
          found, totalPages := true, totalPages + items[i].billablePages;
        }
        i := i + 1;
      }
      assert items[..i] == items;
    }

    method RepriceOne(book: Book, combo: Combo, edited: Option<ItemId>) returns (ok: bool)
      modifies this`items
      ensures var after := RepriceCombo(book, old(items), combo, edited);
              ok == after.Some? && items == after.GetOr(old(items))
    {
      var found, totalPages := GroupPages(combo);
      if !found {
        return true;
      }
      var rate := Resolve(book, combo, totalPages);
      if rate.None? {
        return false;
      }
      hide Resolve, Holds, StoredPages;
      var i := 0;
      while i < |items|
        invariant 0 <= i <= |items| == |old(items)|
        invariant forall k :: 0 <= k < |items| ==>
                    items[k] == if k < i then RepricedItem(old(items)[k], combo, rate.value, edited) else old(items)[k]
      {
        var item := items[i];
        if item.line.combo == combo && (rate.value.hasTiers || edited == Some(item.line.id)) {
          items := items[i := item.(amount := rate.value.price * item.billablePages)];
        }
        i := i + 1;
      }
      assert items == RepricedItems(old(items), combo, rate.value, edited);
      ok := true;
    }

    /** Stops at the first combination that is no longer offered; the caller's transaction then rolls back. */
    method RepriceAll(book: Book, combos: seq<Combo>, edited: Option<ItemId>) returns (ok: bool)
      modifies this`items
      ensures ok == RepriceCombos(book, old(items), combos, edited).Some?
      ensures ok ==> Some(items) == RepriceCombos(book, old(items), combos, edited)
    {
      var i := 0;
      assert combos[0..] == combos;
      while i < |combos|
        invariant 0 <= i <= |combos|
        invariant RepriceCombos(book, items, combos[i..], edited) == RepriceCombos(book, old(items), combos, edited)
      {
        assert combos[i..][1..] == combos[i + 1..];
        ok := RepriceOne(book, combos[i], edited);
        if !ok {
          return;
        }
        i := i + 1;
      }
      ok := true;
    }

    method RecomputeJobAmount()
      modifies this`amount
      ensures amount == Sum(items)
    {
      amount := 0;
      var i := 0;
      while i < |items|
        invariant 0 <= i <= |items| && amount == Sum(items[..i])
      {
        assert items[..i + 1] == items[..i] + [items[i]];
        SumNext(items[..i], items[i]);
        amount := amount + items[i].amount;
        i := i + 1;
      }
      assert items[..i] == items;
    }

    method UpdateItemSettings(book: Book, id: ItemId, wanted: Wanted) returns (ok: bool)
      modifies this
      ensures var after := Changed(book, old(Order()), Settings(id, wanted));
              ok == after.Some? && Order() == after.GetOr(old(Order()))
    {
      hide RepriceCombos, Sum, Offered;
      var at := FindItem(items, id, 0);
      if at.None? {
        return false;
      }
      var i, before := at.value, items;
      var item := NewItem(items[i], wanted);
      var reprice := priced && book.pricingEnabled;
      if reprice && ActiveRate(book.rates, item.line.combo).None? {
        return false;
      }
      items := items[i := item];
      if !reprice {
        return true;
      }
      ok := RepriceAll(book, Keys(before[i].line.combo, item.line.combo), Some(id));
      if !ok {
        items := before;
        return;
      }
      RecomputeJobAmount();
    }

    method DeleteItem(book: Book, id: ItemId) returns (ok: bool)
      modifies this
      ensures var after := Changed(book, old(Order()), Remove(id));
              ok == after.Some? && Order() == after.GetOr(old(Order()))
    {
      hide RepriceCombos, Sum;
      var at := FindItem(items, id, 0);
      if at.None? || |items| == 1 {
        return false;
      }
      var i, before := at.value, items;
      items := items[..i] + items[i + 1..];
      if priced && book.pricingEnabled {
        ok := RepriceAll(book, [before[i].line.combo], None);
        if !ok {
          items := before;
          return;
        }
      }
      RecomputeJobAmount();
      ok := true;
    }
  }

  lemma HoldsNothing(combo: Combo)
    ensures !Holds([], combo) && StoredPages([], combo) == 0
  {
  }

  lemma HoldsNext(items: seq<Item>, combo: Combo, i: nat)
    requires i < |items|
    ensures Holds(items[..i + 1], combo) <==> Holds(items[..i], combo) || items[i].line.combo == combo
    ensures StoredPages(items[..i + 1], combo)
         == StoredPages(items[..i], combo) + if items[i].line.combo == combo then items[i].billablePages else 0
  {
    var longer := items[..i + 1];
    assert longer[..i] == items[..i] && longer[i] == items[i];
    if Holds(items[..i], combo) {
      var k :| 0 <= k < i && items[..i][k].line.combo == combo;
      assert longer[k].line.combo == combo;
    }
    if Holds(longer, combo) {
      var k :| 0 <= k <= i && longer[k].line.combo == combo;
      if k < i {
        assert items[..i][k].line.combo == combo;
      }
    }
  }
}
