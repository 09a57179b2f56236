/** What a page costs and what an edit changes about it, read from the rows of the price table. */
module PriceLaws {
  import opened Options
  import opened PriceBook
  import opened OrderPricing

  /** The tier's range has this page count in it. */
  predicate InRange(minPages: nat, maxPages: Option<nat>, pages: nat) {
    minPages <= pages && (maxPages == None || pages <= maxPages.value)
  }

  predicate TierFor(book: Book, k: nat, combo: Combo, pages: nat) {
    && k < |book.tiers| && book.tiers[k].active && book.tiers[k].combo == combo
    && InRange(book.tiers[k].minPages, book.tiers[k].maxPages, pages)
  }

  predicate RateFor(book: Book, k: nat, combo: Combo) {
    k < |book.rates| && book.rates[k].active && book.rates[k].combo == combo
  }

  /** The shop offers the combination: it has an active rate. */
  ghost predicate Sold(book: Book, combo: Combo) {
    exists k: nat :: RateFor(book, k, combo)
  }

  ghost predicate Tiered(book: Book, combo: Combo, pages: nat) {
    exists k: nat :: TierFor(book, k, combo, pages)
  }

  ghost predicate TierSays(book: Book, combo: Combo, pages: nat, price: int) {
    exists k: nat :: TierFor(book, k, combo, pages) && price == book.tiers[k].price
  }

  ghost predicate RateSays(book: Book, combo: Combo, price: int) {
    exists k: nat :: RateFor(book, k, combo) && price == book.rates[k].price
  }

  /** The price of an active tier that has the page count in its range, and without one the active rate's. */
  ghost predicate RowsSay(book: Book, combo: Combo, pages: nat, price: int) {
    if Tiered(book, combo, pages) then TierSays(book, combo, pages, price) else RateSays(book, combo, price)
  }

  /** The rows name one price, if the combination is offered at all. */
  lemma PriceIsFromRows(book: Book, combo: Combo, pages: nat)
    ensures Resolve(book, combo, pages).Some? <==> Sold(book, combo)
    ensures Resolve(book, combo, pages).Some? ==> RowsSay(book, combo, pages, Resolve(book, combo, pages).value.price)
  {
    var found := ActiveTiers(book.tiers, combo);
    var tier, rate := FirstCovering(found, pages), ActiveRate(book.rates, combo);
    if rate.Some? {
      var j: nat :| j < |book.rates| && book.rates[j] == rate.value;
      assert RateFor(book, j, combo);
    }
    if k: nat :| RateFor(book, k, combo) {
      assert Offered(book.rates, combo);
    }
    if tier.Some? {
      var k: nat :| k < |book.tiers| && book.tiers[k] == tier.value;
      assert TierFor(book, k, combo, pages);
    }
    if k: nat :| TierFor(book, k, combo, pages) {
      assert book.tiers[k] in found && Covers(book.tiers[k], pages);
    }
  }

  /** In a table that keeps the invariant there is no other price the rows could mean. */
  lemma RowsSayOne(book: Book, combo: Combo, pages: nat, p: int, q: int)
    requires BookOk(book) && RowsSay(book, combo, pages, p) && RowsSay(book, combo, pages, q)
    ensures p == q
  {
    if Tiered(book, combo, pages) {
      var j: nat :| TierFor(book, j, combo, pages) && p == book.tiers[j].price;
      var k: nat :| TierFor(book, k, combo, pages) && q == book.tiers[k].price;
      assert book.tiers[j] in ActiveTiers(book.tiers, combo) && book.tiers[k] in ActiveTiers(book.tiers, combo);
      OneTierCovers(book.tiers, combo, book.tiers[j], book.tiers[k], pages);
    }
  }

  // ------------------------------------------------------------- quotes

  /** Pages times copies of every document in a combination, added up from the front. */
  function PagesInOrder(lines: seq<Line>, combo: Combo): nat {
    if lines == [] then 0
    else (if lines[0].combo == combo then lines[0].pageCount * lines[0].copies else 0) + PagesInOrder(lines[1..], combo)
  }

  function Total(items: seq<Item>): nat {
    if items == [] then 0 else items[0].amount + Total(items[1..])
  }

  lemma {:induction false} SamePages(lines: seq<Line>, combo: Combo)
    ensures PagesOf(lines, combo) == PagesInOrder(lines, combo)
  {
    if |lines| == 1 {
      assert lines[..0] == [] && lines[1..] == [];
    } else if |lines| > 1 {
      var last := |lines| - 1;
      SamePages(lines[1..], combo);
      SamePages(lines[..last], combo);
      SamePages(lines[1..][..last - 1], combo);
      assert lines[..last][1..] == lines[1..][..last - 1];
    }
  }

  lemma {:induction false} SameTotal(items: seq<Item>)
    ensures Sum(items) == Total(items)
  {
    if |items| == 1 {
      assert items[..0] == [] && items[1..] == [];
    } else if |items| > 1 {
      var last := |items| - 1;
      SameTotal(items[1..]);
      SameTotal(items[..last]);
      SameTotal(items[1..][..last - 1]);
      assert items[..last][1..] == items[1..][..last - 1];
    }
  }

  /**
   * A quote is refused exactly if pricing is on and a document's combination has no active rate. Otherwise every
   * document costs its pages times the price that the rows say for all pages of its combination, or nothing with
   * pricing off, and the order costs the sum.
   */
  lemma QuotesFollowRows(book: Book, lines: seq<Line>)
    ensures Quoted(book, lines).None? <==>
              book.pricingEnabled && !(forall k :: 0 <= k < |lines| ==> Sold(book, lines[k].combo))
    ensures Quoted(book, lines).Some? ==>
              var quote := Quoted(book, lines).value;
              && quote.priced == book.pricingEnabled && |quote.items| == |lines| && quote.amount == Total(quote.items)
              && forall k :: 0 <= k < |lines| ==> DocumentCosts(book, lines, k, quote.items[k])
  {
    hide Resolve, PagesOf, Total, PagesInOrder, DocumentCosts;
    hide Sold, Offered;
    forall k | 0 <= k < |lines| ensures Offered(book.rates, lines[k].combo) <==> Sold(book, lines[k].combo) {
      OfferedIs(book, lines[k].combo);
    }
    if Quoted(book, lines).Some? {
      var quote := Quoted(book, lines).value;
      SameTotal(quote.items);
      forall k | 0 <= k < |lines| ensures DocumentCosts(book, lines, k, quote.items[k]) {
        ItemCosts(book, lines, k);
      }
    }
  }

  ghost predicate DocumentCosts(book: Book, lines: seq<Line>, k: nat, item: Item)
    requires k < |lines|
  {
    var line := lines[k];
    && item.line == line && item.billablePages == line.pageCount * line.copies
    && if book.pricingEnabled then
         exists price: nat :: RowsSay(book, line.combo, PagesInOrder(lines, line.combo), price)
                              && item.amount == price * (line.pageCount * line.copies)
       else item.amount == 0
  }

  lemma OfferedIs(book: Book, combo: Combo)
    ensures Offered(book.rates, combo) <==> Sold(book, combo)
  {
    if Offered(book.rates, combo) {
      var k :| 0 <= k < |book.rates| && book.rates[k].active && book.rates[k].combo == combo;
      assert RateFor(book, k, combo);
    }
    if j: nat :| RateFor(book, j, combo) {
      assert book.rates[j].active;
    }
  }

  lemma ItemCosts(book: Book, lines: seq<Line>, k: nat)
    requires k < |lines| && (book.pricingEnabled ==> AllOffered(book, lines))
    ensures DocumentCosts(book, lines, k, PricedItem(book, book.pricingEnabled, lines, lines[k]))
  {
    var combo := lines[k].combo;
    SamePages(lines, combo);
    if book.pricingEnabled {
      PriceIsFromRows(book, combo, PagesOf(lines, combo));
      hide Resolve, PagesOf, PagesInOrder, RowsSay;
      var price := PriceOf(book, combo, PagesOf(lines, combo));
    }
  }

  // -------------------------------------------------------------- edits

  /** The edit is made and leaves this table. */
  predicate Makes(book: Book, edit: Edit, after: Book) {
    Edited(book, edit) == Some(after)
  }

  lemma SameTiersSay(book: Book, after: Book, combo: Combo, pages: nat)
    requires after.tiers == book.tiers
    ensures Tiered(after, combo, pages) <==> Tiered(book, combo, pages)
    ensures forall p :: TierSays(after, combo, pages, p) <==> TierSays(book, combo, pages, p)
  {
    assert forall k: nat :: TierFor(after, k, combo, pages) <==> TierFor(book, k, combo, pages);
  }

  lemma SameRatesSay(book: Book, after: Book, combo: Combo)
    requires after.rates == book.rates
    ensures forall p :: RateSays(after, combo, p) <==> RateSays(book, combo, p)
  {
    assert forall k: nat :: RateFor(after, k, combo) <==> RateFor(book, k, combo);
  }

  /** A new rate is the price of its combination wherever no tier is, and changes nothing else. */
  lemma SetRatePrices(book: Book, combo: Combo, price: nat, after: Book, other: Combo, pages: nat, p: int)
    requires Makes(book, SetRate(combo, price), after)
    ensures after.pricingEnabled == book.pricingEnabled
    ensures RowsSay(after, other, pages, p) <==>
              if other == combo && !Tiered(book, combo, pages) then p == price else RowsSay(book, other, pages, p)
  {
    var n := |book.rates|;
    SameTiersSay(book, after, other, pages);
    hide TierFor, Tiered, TierSays;
    assert RateFor(after, n, combo) && after.rates[n].price == price;
    if other == combo {
      assert forall k: nat :: RateFor(after, k, combo) ==> k == n;
    } else {
      assert forall k: nat :: RateFor(after, k, other) <==> RateFor(book, k, other) && after.rates[k] == book.rates[k];
    }
  }

  /** Pricing stays on as long as there is something to sell. */
  ghost predicate SellsAny(book: Book) {
    exists k: nat :: k < |book.rates| && book.rates[k].active
  }

  /** Retiring its rate takes a combination off the offer; other combinations keep their prices. */
  lemma DeactivatePrices(book: Book, id: nat, after: Book, other: Combo, pages: nat, p: int)
    requires BookOk(book) && Makes(book, Deactivate(id), after)
    ensures id < |book.rates|
    ensures after.pricingEnabled <==> book.pricingEnabled && SellsAny(after)
    ensures other != book.rates[id].combo ==> (RowsSay(after, other, pages, p) <==> RowsSay(book, other, pages, p))
    ensures book.rates[id].active ==> !Sold(after, book.rates[id].combo)
    ensures !Tiered(after, book.rates[id].combo, pages)
    ensures !book.rates[id].active ==> forall q :: RateSays(after, book.rates[id].combo, q) <==> RateSays(book, book.rates[id].combo, q)
  {
    var combo := book.rates[id].combo;
    assert forall k: nat :: k != id ==> (RateFor(after, k, combo) <==> RateFor(book, k, combo));
    assert !TierFor(after, 0, combo, pages);
    assert forall k: nat :: !TierFor(after, k, combo, pages);
    if other != combo {
      assert forall k: nat :: RateFor(after, k, other) <==> RateFor(book, k, other);
      assert forall k: nat :: TierFor(after, k, other, pages) <==> TierFor(book, k, other, pages);
      assert forall k: nat :: RateFor(book, k, other) ==> after.rates[k] == book.rates[k];
      assert forall k: nat :: TierFor(book, k, other, pages) ==> after.tiers[k] == book.tiers[k];
    }
  }

  /** A tier is the price within its range, and changes nothing else. */
  lemma AddTierPrices(book: Book, combo: Combo, minPages: nat, maxPages: Option<nat>, price: nat, after: Book,
                      other: Combo, pages: nat, p: int)
    requires BookOk(book) && Makes(book, AddTier(combo, minPages, maxPages, price), after)
    ensures after.pricingEnabled == book.pricingEnabled
    ensures RowsSay(after, other, pages, p) <==>
              if other == combo && InRange(minPages, maxPages, pages) then p == price else RowsSay(book, other, pages, p)
  {
    var n := |book.tiers|;
    SameRatesSay(book, after, other);
    EditKeepsBook(book, AddTier(combo, minPages, maxPages, price));
    hide RateFor, RateSays, Edited, BookOk;
    NewTierSays(book, after, n, other, pages, p);
  }

  /** The last tier, just added, is the only one in its range; the others say what they said if they are active still. */
  lemma NewTierSays(book: Book, after: Book, n: nat, other: Combo, pages: nat, p: int)
    requires BookOk(after) && n == |book.tiers| && |after.tiers| == n + 1 && after.tiers[n].active
    requires forall k :: 0 <= k < n ==> after.tiers[k] == book.tiers[k]
    ensures var t := after.tiers[n];
            if other == t.combo && InRange(t.minPages, t.maxPages, pages) then
              Tiered(after, other, pages) && (TierSays(after, other, pages, p) <==> p == t.price)
            else
              && (Tiered(after, other, pages) <==> Tiered(book, other, pages))
              && (TierSays(after, other, pages, p) <==> TierSays(book, other, pages, p))
  {
    var t := after.tiers[n];
    assert forall k: nat :: k < n ==> (TierFor(after, k, other, pages) <==> TierFor(book, k, other, pages));
    assert forall k: nat :: TierFor(book, k, other, pages) ==> k < n;
    if other == t.combo && InRange(t.minPages, t.maxPages, pages) {
      assert TierFor(after, n, other, pages);
      forall k: nat | TierFor(after, k, other, pages) ensures k == n {
        if k < n {
          var apart := Disjoint(after.tiers[k], after.tiers[n]);
          assert Covers(after.tiers[n], pages);
        }
      }
    }
  }

  function TierRetired(book: Book, id: nat): Book
    requires id < |book.tiers|
  {
    book.(tiers := book.tiers[id := book.tiers[id].(active := false)])
  }

  lemma RetiredTierSays(book: Book, id: nat, other: Combo, pages: nat, p: int)
    requires BookOk(book) && id < |book.tiers| && book.tiers[id].active
    ensures var t, after := book.tiers[id], TierRetired(book, id);
            if other == t.combo && InRange(t.minPages, t.maxPages, pages) then !Tiered(after, other, pages)
            else
              && (Tiered(after, other, pages) <==> Tiered(book, other, pages))
              && (TierSays(after, other, pages, p) <==> TierSays(book, other, pages, p))
  {
    var t, after := book.tiers[id], TierRetired(book, id);
    if other == t.combo && InRange(t.minPages, t.maxPages, pages) {
      forall k: nat ensures !TierFor(after, k, other, pages) {
        if TierFor(after, k, other, pages) {
          var apart := Disjoint(book.tiers[if k < id then k else id], book.tiers[if k < id then id else k]);
          assert Covers(book.tiers[id], pages) && Covers(book.tiers[k], pages);
        }
      }
    } else {
      assert forall k: nat :: TierFor(after, k, other, pages) <==> TierFor(book, k, other, pages);
      assert forall k: nat :: TierFor(book, k, other, pages) ==> after.tiers[k] == book.tiers[k];
    }
  }

  /** Retiring a tier brings the fixed rate back in its range, and changes nothing else. */
  lemma DeactivateTierPrices(book: Book, id: nat, after: Book, other: Combo, pages: nat, p: int)
    requires BookOk(book) && Makes(book, DeactivateTier(id), after)
    ensures id < |book.tiers| && after.pricingEnabled == book.pricingEnabled
    ensures var t := book.tiers[id];
            RowsSay(after, other, pages, p) <==>
              if other == t.combo && InRange(t.minPages, t.maxPages, pages) then RateSays(book, other, p)
              else RowsSay(book, other, pages, p)
  {
    SameRatesSay(book, after, other);
    RetiredTierSays(book, id, other, pages, p);
    hide RateFor, RateSays, TierFor, Tiered, TierSays, BookOk;
  }

  /** A tier's new version is the price in its new range; what was in the old one alone falls back to the fixed rate. */
  lemma UpdateTierPrices(book: Book, id: nat, minPages: nat, maxPages: Option<nat>, price: nat, after: Book,
                         other: Combo, pages: nat, p: int)
    requires BookOk(book) && Makes(book, UpdateTier(id, minPages, maxPages, price), after)
    ensures id < |book.tiers| && after.pricingEnabled == book.pricingEnabled
    ensures var t := book.tiers[id];
            RowsSay(after, other, pages, p) <==>
              if other == t.combo && InRange(minPages, maxPages, pages) then p == price
              else if other == t.combo && InRange(t.minPages, t.maxPages, pages) then RateSays(book, other, p)
              else RowsSay(book, other, pages, p)
  {
    SameRatesSay(book, after, other);
    EditKeepsBook(book, UpdateTier(id, minPages, maxPages, price));
    RetiredTierSays(book, id, other, pages, p);
    hide RateFor, RateSays, TierFor, Tiered, TierSays, BookOk;
    NewTierSays(TierRetired(book, id), after, |book.tiers|, other, pages, p);
  }

  lemma SwitchPrices(book: Book, on: bool, after: Book)
    requires Makes(book, SwitchPricing(on), after)
    ensures after == book.(pricingEnabled := on)
  {
  }

  // --------------------------------------------------- what is refused

  /** The range holds a page count that an active tier of the combination has too, other than the one replaced. */
  ghost predicate Taken(book: Book, combo: Combo, minPages: nat, maxPages: Option<nat>, self: Option<nat>) {
    exists k: nat, pages: nat :: self != Some(k) && TierFor(book, k, combo, pages) && InRange(minPages, maxPages, pages)
  }

  predicate EmptyRange(minPages: nat, maxPages: Option<nat>) {
    maxPages.Some? && maxPages.value < minPages
  }

  lemma FitsUnlessTaken(book: Book, tier: Tier, self: Option<nat>)
    requires BookOk(book) && tier.active
    ensures Fits(tier, self, book.tiers) <==>
              !EmptyRange(tier.minPages, tier.maxPages) && !Taken(book, tier.combo, tier.minPages, tier.maxPages, self)
  {
    if !EmptyRange(tier.minPages, tier.maxPages) {
      var clash := FindOverlapping(tier, self, book.tiers, 0);
      if clash.Some? {
        var t := book.tiers[clash.value];
        OverlapShares(t, tier);
        var pages: nat :| Covers(t, pages) && Covers(tier, pages);
        assert TierFor(book, clash.value, tier.combo, pages) && InRange(tier.minPages, tier.maxPages, pages);
      } else if Taken(book, tier.combo, tier.minPages, tier.maxPages, self) {
        var k: nat, pages: nat :| self != Some(k) && TierFor(book, k, tier.combo, pages)
                                  && InRange(tier.minPages, tier.maxPages, pages);
        FitsIsDisjoint(tier, self, book.tiers, k);
        assert Covers(book.tiers[k], pages) && Covers(tier, pages);
      }
    }
  }

  /** Exactly these edits are refused: tiers without a rate, of an empty or taken range; rows that are not there; and
      pricing without a rate. */
  lemma RefusedEdits(book: Book, edit: Edit)
    requires BookOk(book)
    ensures Edited(book, edit).None? <==>
            match edit
            case SetRate(_, _) => false
            case Deactivate(id) => id >= |book.rates|
            case AddTier(combo, minPages, maxPages, _) =>
              !Sold(book, combo) || EmptyRange(minPages, maxPages) || Taken(book, combo, minPages, maxPages, None)
            case UpdateTier(id, minPages, maxPages, _) =>
              || id >= |book.tiers| || !book.tiers[id].active
              || EmptyRange(minPages, maxPages) || Taken(book, book.tiers[id].combo, minPages, maxPages, Some(id))
            case DeactivateTier(id) => id >= |book.tiers| || !book.tiers[id].active
            case SwitchPricing(on) => on && !SellsAny(book)
  {
    hide Sold, Taken, BookOk;
    match edit
    case AddTier(combo, minPages, maxPages, price) =>
      OfferedIs(book, combo);
      FitsUnlessTaken(book, Tier(combo, minPages, maxPages, price, true), None);
    case UpdateTier(id, minPages, maxPages, price) =>
      if id < |book.tiers| && book.tiers[id].active {
        FitsUnlessTaken(book, Tier(book.tiers[id].combo, minPages, maxPages, price, true), Some(id));
      }
    case SwitchPricing(on) => SellsAnyIs(book);
    case _ =>
  }

  lemma SellsAnyIs(book: Book)
    ensures SellsAny(book) <==> AnyOffered(book.rates)
  {
    if k: nat :| k < |book.rates| && book.rates[k].active {
      assert book.rates[k].active;
    }
  }
}
