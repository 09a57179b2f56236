/** What the documents of one order cost: priced from scratch when it is quoted, and again as a shop edits it. */
module OrderPricing {
  import opened Options
  import opened PriceBook

  type ItemId = nat

  /** One document of a quote request, with the pages its analysis found. */
  datatype Line = Line(id: ItemId, combo: Combo, copies: nat, pageCount: nat)

  datatype Item = Item(line: Line, billablePages: nat, amount: nat)

  datatype Order = Order(priced: bool, items: seq<Item>, amount: nat)

  function Billable(line: Line): nat { line.pageCount * line.copies }

  function Lines(items: seq<Item>): seq<Line> {
    seq(|items|, k requires 0 <= k < |items| => items[k].line)
  }

  // -------------------------------------------------------------- from scratch

  /** All pages of a combination in an order choose its tier. */
  function PagesOf(lines: seq<Line>, combo: Combo): nat {
    if lines == [] then 0
    else
      var last := |lines| - 1;
      PagesOf(lines[..last], combo) + if lines[last].combo == combo then Billable(lines[last]) else 0
  }

  predicate AllOffered(book: Book, lines: seq<Line>) {
    forall k :: 0 <= k < |lines| ==> Offered(book.rates, lines[k].combo)
  }

  function PriceOf(book: Book, combo: Combo, pages: nat): nat
    requires Offered(book.rates, combo)
  {
    Resolve(book, combo, pages).value.price
  }

  function PricedItem(book: Book, priced: bool, lines: seq<Line>, line: Line): Item
    requires priced ==> Offered(book.rates, line.combo)
  {
    var pages := Billable(line);
    Item(line, pages, if priced then PriceOf(book, line.combo, PagesOf(lines, line.combo)) * pages else 0)
  }

  function Sum(items: seq<Item>): nat {
    if items == [] then 0 else Sum(items[..|items| - 1]) + items[|items| - 1].amount
  }

  function PricedItems(book: Book, priced: bool, lines: seq<Line>, count: nat): seq<Item>
    requires count <= |lines| && (priced ==> AllOffered(book, lines))
  {
    seq(count, k requires 0 <= k < count => PricedItem(book, priced, lines, lines[k]))
  }

  /** The quote for these documents, or None when a priced shop does not offer a combination. */
  function Quoted(book: Book, lines: seq<Line>): Option<Order> {
    if book.pricingEnabled && !AllOffered(book, lines) then None
    else
      var items := PricedItems(book, book.pricingEnabled, lines, |lines|);
      Some(Order(book.pricingEnabled, items, Sum(items)))
  }

  // -------------------------------------------------------------- the quote

  lemma SumNext(items: seq<Item>, item: Item)
    ensures Sum(items + [item]) == Sum(items) + item.amount
  {
    assert (items + [item])[..|items|] == items;
  }

  /** Totals pages by combination, looks each combination's rate up once, then prices line by line. */
  method CreateQuote(book: Book, lines: seq<Line>) returns (quote: Option<Order>)
    ensures quote == Quoted(book, lines)
  {
    var priced := book.pricingEnabled;
    var pagesByCombo := TotalPages(lines);
    var rateByCombo: map<Combo, Resolved> := map[];
    if priced {
      var rates := LookUpRates(book, lines, pagesByCombo);
      if rates.None? {
        return None;
      }
      rateByCombo := rates.value;
    }
    var items, totalAmount := PriceLines(book, priced, lines, rateByCombo);
    return Some(Order(priced, items, totalAmount));
  }

  /** The rates a priced quote needs; an unpriced one has none. */
  predicate RatesFor(book: Book, priced: bool, lines: seq<Line>, rates: map<Combo, Resolved>) {
    if priced then
      AllOffered(book, lines) &&
      forall k :: 0 <= k < |lines| ==>
        && lines[k].combo in rates
        && Resolve(book, lines[k].combo, PagesOf(lines, lines[k].combo)) == Some(rates[lines[k].combo])
    else rates == map[]
  }

  method PriceLines(book: Book, priced: bool, lines: seq<Line>, rateByCombo: map<Combo, Resolved>)
    returns (items: seq<Item>, totalAmount: nat)
    requires RatesFor(book, priced, lines, rateByCombo)
    ensures items == PricedItems(book, priced, lines, |lines|) && totalAmount == Sum(items)
  {
    hide Resolve, PagesOf, Sum;
    items, totalAmount := [], 0;
    NothingSums();
    var i := 0;
    while i < |lines|
      invariant 0 <= i <= |lines|
      invariant items == PricedItems(book, priced, lines, i) && totalAmount == Sum(items)
    {
      var line := lines[i];
      var pages := line.pageCount * line.copies;
      var amount := if line.combo in rateByCombo then rateByCombo[line.combo].price * pages else 0;
      SumNext(items, Item(line, pages, amount));
      items := items + [Item(line, pages, amount)];
      totalAmount := totalAmount + amount;
      i := i + 1;
    }
  }

  lemma NothingSums()
    ensures Sum([]) == 0
  {
  }

  method TotalPages(lines: seq<Line>) returns (pagesByCombo: map<Combo, nat>)
    ensures forall combo :: combo in pagesByCombo <==> exists k :: 0 <= k < |lines| && lines[k].combo == combo
    ensures forall combo :: combo in pagesByCombo ==> pagesByCombo[combo] == PagesOf(lines, combo)
  {
    pagesByCombo := map[];
    var i := 0;
    while i < |lines|
      invariant 0 <= i <= |lines|
      invariant forall combo :: combo in pagesByCombo <==> exists k :: 0 <= k < i && lines[k].combo == combo
      invariant forall combo :: PagesOf(lines[..i], combo) == if combo in pagesByCombo then pagesByCombo[combo] else 0
    {
      var line := lines[i];
      assert lines[..i + 1][..i] == lines[..i];
      var soFar := if line.combo in pagesByCombo then pagesByCombo[line.combo] else 0;
      pagesByCombo := pagesByCombo[line.combo := soFar + line.pageCount * line.copies];
      i := i + 1;
    }
    assert lines[..i] == lines;
  }

  /** One lookup per combination; the first that is not offered refuses the quote. */
  method LookUpRates(book: Book, lines: seq<Line>, pagesByCombo: map<Combo, nat>)
    returns (rates: Option<map<Combo, Resolved>>)
    requires forall k :: 0 <= k < |lines| ==>
               lines[k].combo in pagesByCombo && pagesByCombo[lines[k].combo] == PagesOf(lines, lines[k].combo)
    ensures rates.Some? <==> AllOffered(book, lines)
    ensures rates.Some? ==> forall k :: 0 <= k < |lines| ==>
              && lines[k].combo in rates.value
              && Resolve(book, lines[k].combo, PagesOf(lines, lines[k].combo)) == Some(rates.value[lines[k].combo])
  {
    var rateByCombo: map<Combo, Resolved> := map[];
    var i := 0;
    while i < |lines|
      invariant 0 <= i <= |lines|
      invariant forall k :: 0 <= k < i ==> Offered(book.rates, lines[k].combo) && lines[k].combo in rateByCombo
      invariant forall combo :: combo in rateByCombo ==>
                  Resolve(book, combo, PagesOf(lines, combo)) == Some(rateByCombo[combo])
    {
      var key := lines[i].combo;
      if key !in rateByCombo {
        var rate := Resolve(book, key, pagesByCombo[key]);
        if rate.None? {
          return None;
        }
        rateByCombo := rateByCombo[key := rate.value];
      }
      i := i + 1;
    }
    return Some(rateByCombo);
  }
}
