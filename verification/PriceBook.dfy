/** A shop's price table: one rate per print combination, quantity tiers on top, and the pricing switch. */
module PriceBook {
  import opened Options

  datatype PaperSize = A4 | A3 | Letter | Legal
  datatype ColorMode = BlackAndWhite | Color
  datatype SideMode = Simplex | Duplex
  datatype Combo = Combo(paper: PaperSize, color: ColorMode, side: SideMode)

  /** Prices are whole paise per page. Rows are never removed, only retired; their index is their id. */
  datatype Rate = Rate(combo: Combo, price: nat, active: bool)

  /** `maxPages` is unset for an open-ended range. */
  datatype Tier = Tier(combo: Combo, minPages: nat, maxPages: Option<nat>, price: nat, active: bool)

  datatype Book = Book(rates: seq<Rate>, tiers: seq<Tier>, pricingEnabled: bool)

  const EmptyBook := Book([], [], false)

  predicate Covers(t: Tier, pages: nat) {
    t.minPages <= pages && (t.maxPages.Some? ==> pages <= t.maxPages.value)
  }

  // --------------------------------------------------------------- lookups

  predicate Offered(rates: seq<Rate>, combo: Combo) {
    exists k :: 0 <= k < |rates| && rates[k].active && rates[k].combo == combo
  }

  predicate AnyOffered(rates: seq<Rate>) {
    exists k :: 0 <= k < |rates| && rates[k].active
  }

  /** The active rate of a combination, or None when the shop does not offer it. */
  function ActiveRate(rates: seq<Rate>, combo: Combo): (rate: Option<Rate>)
    ensures rate.Some? <==> Offered(rates, combo)
    ensures rate.Some? ==> rate.value in rates && rate.value.active && rate.value.combo == combo
  {
    if rates == [] then None
    else if rates[0].active && rates[0].combo == combo then
      assert Offered(rates, combo);
      Some(rates[0])
    else
      assert forall k :: 0 < k < |rates| ==> rates[k] == rates[1..][k - 1];
      assert forall k :: 0 <= k < |rates[1..]| ==> rates[1..][k] == rates[k + 1];
      ActiveRate(rates[1..], combo)
  }

  predicate Applies(t: Tier, combo: Combo) {
    t.active && t.combo == combo
  }

  /** The tiers a query for one combination finds, in the order they were added. */
  function ActiveTiers(tiers: seq<Tier>, combo: Combo): (found: seq<Tier>)
    ensures forall t :: t in found <==> t in tiers && Applies(t, combo)
  {
    if tiers == [] then []
    else (if Applies(tiers[0], combo) then [tiers[0]] else []) + ActiveTiers(tiers[1..], combo)
  }

  function FirstCovering(listing: seq<Tier>, pages: nat): (tier: Option<Tier>)
    ensures tier.Some? ==> tier.value in listing && Covers(tier.value, pages)
    ensures tier.None? ==> forall t :: t in listing ==> !Covers(t, pages)
  {
    if listing == [] then None
    else if Covers(listing[0], pages) then Some(listing[0])
    else FirstCovering(listing[1..], pages)
  }

  datatype Resolved = Resolved(basePrice: nat, price: nat, hasTiers: bool, tier: Option<Tier>)

  /** The rate for `pages` pages of a combination in one order, given the tiers as the query lists them. */
  function ResolveFrom(rates: seq<Rate>, listing: seq<Tier>, combo: Combo, pages: nat): Option<Resolved> {
    var rate := ActiveRate(rates, combo);
    if rate.None? then None
    else
      var tier := FirstCovering(listing, pages);
      Some(Resolved(rate.value.price, if tier.Some? then tier.value.price else rate.value.price, |listing| > 0, tier))
  }

  function Resolve(book: Book, combo: Combo, pages: nat): Option<Resolved> {
    ResolveFrom(book.rates, ActiveTiers(book.tiers, combo), combo, pages)
  }

  // ----------------------------------------------------------------- edits

  datatype Edit =
    | SetRate(combo: Combo, price: nat)
    | Deactivate(rate: nat)
    | AddTier(combo: Combo, minPages: nat, maxPages: Option<nat>, price: nat)
    | UpdateTier(tier: nat, minPages: nat, maxPages: Option<nat>, price: nat)
    | DeactivateTier(tier: nat)
    | SwitchPricing(on: bool)

  function RetireRate(r: Rate, combo: Combo): Rate {
    if r.combo == combo then r.(active := false) else r
  }

  function RetireTier(t: Tier, combo: Combo): Tier {
    if t.combo == combo then t.(active := false) else t
  }

  function RetireRates(rates: seq<Rate>, combo: Combo): seq<Rate> {
    seq(|rates|, k requires 0 <= k < |rates| => RetireRate(rates[k], combo))
  }

  function RetireTiers(tiers: seq<Tier>, combo: Combo): seq<Tier> {
    seq(|tiers|, k requires 0 <= k < |tiers| => RetireTier(tiers[k], combo))
  }

  /** Ranges that share a page count, an open end counting as infinite. */
  predicate Overlaps(a: Tier, b: Tier) {
    && (b.maxPages.Some? ==> a.minPages <= b.maxPages.value)
    && (a.maxPages.Some? ==> b.minPages <= a.maxPages.value)
  }

  predicate Clashes(candidate: Tier, self: Option<nat>, tiers: seq<Tier>, k: nat)
    requires k < |tiers|
  {
    Applies(tiers[k], candidate.combo) && self != Some(k) && Overlaps(tiers[k], candidate)
  }

  /** The first active tier of the same combination, other than the one being replaced, that overlaps. */
  function FindOverlapping(candidate: Tier, self: Option<nat>, tiers: seq<Tier>, from: nat): (clash: Option<nat>)
    requires from <= |tiers|
    ensures clash.Some? ==> from <= clash.value < |tiers| && Clashes(candidate, self, tiers, clash.value)
    ensures clash.None? ==> forall k :: from <= k < |tiers| ==> !Clashes(candidate, self, tiers, k)
    decreases |tiers| - from
  {
    if from == |tiers| then None
    else if Clashes(candidate, self, tiers, from) then Some(from)
    else FindOverlapping(candidate, self, tiers, from + 1)
  }

  predicate Fits(candidate: Tier, self: Option<nat>, tiers: seq<Tier>) {
    && (candidate.maxPages.Some? ==> candidate.minPages <= candidate.maxPages.value)
    && FindOverlapping(candidate, self, tiers, 0).None?
  }

  function Deactivated(book: Book, id: nat): Book
    requires id < |book.rates|
  {
    var rates := book.rates[id := book.rates[id].(active := false)];
    Book(rates, RetireTiers(book.tiers, book.rates[id].combo), book.pricingEnabled && AnyOffered(rates))
  }

  /** The table after an edit, or None when the edit is refused. */
  function Edited(book: Book, edit: Edit): Option<Book> {
    match edit
    case SetRate(combo, price) =>
      Some(book.(rates := RetireRates(book.rates, combo) + [Rate(combo, price, true)]))
    case Deactivate(id) => if id < |book.rates| then Some(Deactivated(book, id)) else None
    case AddTier(combo, minPages, maxPages, price) =>
      var tier := Tier(combo, minPages, maxPages, price, true);
      if Offered(book.rates, combo) && Fits(tier, None, book.tiers) then Some(book.(tiers := book.tiers + [tier]))
      else None
    case UpdateTier(id, minPages, maxPages, price) =>
      if id >= |book.tiers| || !book.tiers[id].active then None
      else
        var tier := Tier(book.tiers[id].combo, minPages, maxPages, price, true);
        if Fits(tier, Some(id), book.tiers) then
          Some(book.(tiers := book.tiers[id := book.tiers[id].(active := false)] + [tier]))
        else None
    case DeactivateTier(id) =>
      if id < |book.tiers| && book.tiers[id].active then
        Some(book.(tiers := book.tiers[id := book.tiers[id].(active := false)]))
      else None
    case SwitchPricing(on) => if on && !AnyOffered(book.rates) then None else Some(book.(pricingEnabled := on))
  }

  /** Any number of edits; refused ones change nothing. */
  function EditedAll(book: Book, edits: seq<Edit>): Book
    decreases |edits|
  {
    if edits == [] then book else EditedAll(Edited(book, edits[0]).GetOr(book), edits[1..])
  }

  // ------------------------------------------------------------- invariant

  predicate OneRateEach(rates: seq<Rate>) {
    forall j, k :: 0 <= j < k < |rates| && rates[j].active && rates[k].active ==> rates[j].combo != rates[k].combo
  }

  ghost predicate Disjoint(a: Tier, b: Tier) {
    forall pages: nat :: !(Covers(a, pages) && Covers(b, pages))
  }

  ghost predicate TiersDisjoint(tiers: seq<Tier>) {
    forall j, k :: 0 <= j < k < |tiers| && tiers[j].active && tiers[k].active && tiers[j].combo == tiers[k].combo ==>
      Disjoint(tiers[j], tiers[k])
  }

  predicate NotEmpty(t: Tier) { t.maxPages.Some? ==> t.minPages <= t.maxPages.value }

  predicate TiersBacked(rates: seq<Rate>, tiers: seq<Tier>) {
    forall k :: 0 <= k < |tiers| && tiers[k].active ==> Offered(rates, tiers[k].combo)
  }

  /**
   * At most one active rate per combination; active tiers of a combination not empty, disjoint and backed by its
   * rate; pricing on only with something to sell.
   */
  ghost predicate BookOk(book: Book) {
    && OneRateEach(book.rates) && TiersDisjoint(book.tiers) && TiersBacked(book.rates, book.tiers)
    && (forall k :: 0 <= k < |book.tiers| && book.tiers[k].active ==> NotEmpty(book.tiers[k]))
    && (book.pricingEnabled ==> AnyOffered(book.rates))
  }

  /** Two ranges that pass the overlap check have no page count in common. */
  lemma NoOverlapIsDisjoint(a: Tier, b: Tier)
    requires !Overlaps(a, b)
    ensures Disjoint(a, b)
  {
  }

  /** The check refuses nothing else: ranges that overlap share a page count, if neither is empty. */
  lemma OverlapShares(a: Tier, b: Tier)
    requires a.maxPages.Some? ==> a.minPages <= a.maxPages.value
    requires b.maxPages.Some? ==> b.minPages <= b.maxPages.value
    ensures Overlaps(a, b) <==> !Disjoint(a, b)
  {
    if Overlaps(a, b) {
      var pages := if a.minPages < b.minPages then b.minPages else a.minPages;
      assert Covers(a, pages) && Covers(b, pages);
    }
  }

  lemma FitsIsDisjoint(candidate: Tier, self: Option<nat>, tiers: seq<Tier>, k: nat)
    requires Fits(candidate, self, tiers) && k < |tiers| && Applies(tiers[k], candidate.combo) && self != Some(k)
    ensures Disjoint(tiers[k], candidate)
  {
    assert !Clashes(candidate, self, tiers, k);
    NoOverlapIsDisjoint(tiers[k], candidate);
  }

  lemma AddedTierOk(tiers: seq<Tier>, candidate: Tier, self: Option<nat>, kept: seq<Tier>)
    requires TiersDisjoint(tiers) && Fits(candidate, self, tiers) && |kept| == |tiers|
    requires forall k :: 0 <= k < |kept| && kept[k].active ==> kept[k] == tiers[k] && self != Some(k)
    ensures TiersDisjoint(kept + [candidate])
  {
    var all := kept + [candidate];
    forall j, k | 0 <= j < k < |all| && all[j].active && all[k].active && all[j].combo == all[k].combo
      ensures Disjoint(all[j], all[k])
    {
      if k == |kept| {
        FitsIsDisjoint(candidate, self, tiers, j);
      }
    }
  }

  lemma StillOffered(rates: seq<Rate>, others: seq<Rate>, combo: Combo)
    requires Offered(rates, combo) && |rates| <= |others|
    requires forall k :: 0 <= k < |rates| && rates[k].active && rates[k].combo == combo ==> others[k] == rates[k]
    ensures Offered(others, combo)
  {
    var k :| 0 <= k < |rates| && rates[k].active && rates[k].combo == combo;
    assert others[k].active;
  }

  lemma SetRateOk(book: Book, combo: Combo, price: nat)
    requires BookOk(book)
    ensures BookOk(Edited(book, SetRate(combo, price)).value)
  {
    var rates := RetireRates(book.rates, combo) + [Rate(combo, price, true)];
    assert rates[|book.rates|].active;
    forall k | 0 <= k < |book.tiers| && book.tiers[k].active ensures Offered(rates, book.tiers[k].combo) {
      if book.tiers[k].combo != combo {
        StillOffered(book.rates, rates, book.tiers[k].combo);
      }
    }
  }

  lemma DeactivateOk(book: Book, id: nat)
    requires BookOk(book) && id < |book.rates|
    ensures BookOk(Deactivated(book, id))
  {
    var after := Deactivated(book, id);
    forall k | 0 <= k < |after.tiers| && after.tiers[k].active ensures Offered(after.rates, after.tiers[k].combo) {
      assert after.tiers[k] == book.tiers[k];
      StillOffered(book.rates, after.rates, book.tiers[k].combo);
    }
    assert forall k :: 0 <= k < |after.tiers| && after.tiers[k].active ==> after.tiers[k] == book.tiers[k];
  }

  lemma EditKeepsBook(book: Book, edit: Edit)
    requires BookOk(book) && Edited(book, edit).Some?
    ensures BookOk(Edited(book, edit).value)
  {
    match edit
    case SetRate(combo, price) => SetRateOk(book, combo, price);
    case Deactivate(id) => DeactivateOk(book, id);
    case AddTier(combo, minPages, maxPages, price) =>
      AddedTierOk(book.tiers, Tier(combo, minPages, maxPages, price, true), None, book.tiers);
    case UpdateTier(id, minPages, maxPages, price) =>
      var kept := book.tiers[id := book.tiers[id].(active := false)];
      AddedTierOk(book.tiers, Tier(book.tiers[id].combo, minPages, maxPages, price, true), Some(id), kept);
    case DeactivateTier(id) =>
    case SwitchPricing(on) =>
  }

  /** Whatever edits a shop makes to its table, it keeps the invariant. */
  lemma {:induction false} EditsKeepBook(book: Book, edits: seq<Edit>)
    requires BookOk(book)
    ensures BookOk(EditedAll(book, edits))
    decreases |edits|
  {
    hide BookOk, Edited;
    if edits != [] {
      if Edited(book, edits[0]).Some? {
        EditKeepsBook(book, edits[0]);
      }
      EditsKeepBook(Edited(book, edits[0]).GetOr(book), edits[1..]);
    }
  }

  // ------------------------------------------------------- one price only

  predicate Lists(listing: seq<Tier>, tiers: seq<Tier>, combo: Combo) {
    multiset(listing) == multiset(ActiveTiers(tiers, combo))
  }

  /** Only one tier of a combination covers a page count. */
  lemma OneTierCovers(tiers: seq<Tier>, combo: Combo, a: Tier, b: Tier, pages: nat)
    requires TiersDisjoint(tiers) && a in ActiveTiers(tiers, combo) && b in ActiveTiers(tiers, combo)
    requires Covers(a, pages) && Covers(b, pages)
    ensures a == b
  {
    var j :| 0 <= j < |tiers| && tiers[j] == a;
    var k :| 0 <= k < |tiers| && tiers[k] == b;
    var first, second := if j < k then j else k, if j < k then k else j;
    if first != second {
      var apart := Disjoint(tiers[first], tiers[second]);
    }
  }

  /**
   * In a table made by edits from scratch, the price of a combination depends only on the order's pages of it, in
   * whatever order the tiers are listed: it is the price of the one tier that covers the page count, and of the one
   * active rate when none does.
   */
  lemma PriceDependsOnPagesOnly(edits: seq<Edit>, combo: Combo, listing: seq<Tier>, pages: nat)
    requires Lists(listing, EditedAll(EmptyBook, edits).tiers, combo)
    ensures var book := EditedAll(EmptyBook, edits);
            && ResolveFrom(book.rates, listing, combo, pages) == Resolve(book, combo, pages)
            && (forall r :: r in book.rates && r.active && r.combo == combo ==>
                  Resolve(book, combo, pages).Some? && Resolve(book, combo, pages).value.basePrice == r.price)
            && (forall t :: t in book.tiers && t.active && t.combo == combo && Covers(t, pages) ==>
                  Resolve(book, combo, pages).Some? && Resolve(book, combo, pages).value.price == t.price)
            && (forall r :: r in book.rates && r.active && r.combo == combo
                            && (forall t :: t in book.tiers && t.active && t.combo == combo ==> !Covers(t, pages)) ==>
                  Resolve(book, combo, pages).value.price == r.price)
  {
    var book := EditedAll(EmptyBook, edits);
    EditsKeepBook(EmptyBook, edits);
    hide EditedAll;
    SameTier(book, combo, listing, pages);
    forall r | r in book.rates && r.active && r.combo == combo
      ensures Resolve(book, combo, pages).Some? && Resolve(book, combo, pages).value.basePrice == r.price
      ensures (forall t :: t in book.tiers && t.active && t.combo == combo ==> !Covers(t, pages)) ==>
                Resolve(book, combo, pages).value.price == r.price
    {
      RateIsUnique(book.rates, combo, r);
    }
    forall t | t in book.tiers && t.active && t.combo == combo && Covers(t, pages)
      ensures Resolve(book, combo, pages).Some? && Resolve(book, combo, pages).value.price == t.price
    {
      assert t in ActiveTiers(book.tiers, combo);
      var first := FirstCovering(ActiveTiers(book.tiers, combo), pages);
      OneTierCovers(book.tiers, combo, first.value, t, pages);
    }
  }

  lemma RateIsUnique(rates: seq<Rate>, combo: Combo, r: Rate)
    requires OneRateEach(rates) && r in rates && r.active && r.combo == combo
    ensures ActiveRate(rates, combo) == Some(r)
  {
    var k :| 0 <= k < |rates| && rates[k] == r;
    assert Offered(rates, combo);
  }

  lemma SameTier(book: Book, combo: Combo, listing: seq<Tier>, pages: nat)
    requires BookOk(book) && Lists(listing, book.tiers, combo)
    ensures ResolveFrom(book.rates, listing, combo, pages) == Resolve(book, combo, pages)
  {
    var found := ActiveTiers(book.tiers, combo);
    assert forall t :: t in listing <==> t in multiset(listing);
    assert |listing| == |multiset(listing)| && |found| == |multiset(found)|;
    var a, b := FirstCovering(listing, pages), FirstCovering(found, pages);
    if a.Some? && b.Some? {
      OneTierCovers(book.tiers, combo, a.value, b.value, pages);
    }
  }
}
