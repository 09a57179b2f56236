/** A shop's price table as the pricing service and the shop's settings change it. */
module PricingService {
  import opened Options
  import opened PriceBook

  class ShopPricing {
    var rates: seq<Rate>
    var tiers: seq<Tier>
    var pricingEnabled: bool

    constructor ()
      ensures Table() == EmptyBook
    {
      rates, tiers, pricingEnabled := [], [], false;
    }

    function Table(): Book
      reads this
    {
      Book(rates, tiers, pricingEnabled)
    }

    /** The table is the edited one, or untouched when the edit was refused. */
    twostate predicate Applied(edit: Edit, ok: bool)
      reads this
    {
      var after := Edited(old(Table()), edit);
      ok == after.Some? && Table() == after.GetOr(old(Table()))
    }

    /** A new rate takes over; the old one stays as history. */
    method SetRate(combo: Combo, price: nat)
      modifies this`rates
      ensures Applied(Edit.SetRate(combo, price), true)
    {
      var i := 0;
      while i < |rates|
        invariant 0 <= i <= |rates| == |old(rates)|
        invariant forall k :: 0 <= k < |rates| ==>
                    rates[k] == if k < i then RetireRate(old(rates)[k], combo) else old(rates)[k]
      {
        if rates[i].combo == combo && rates[i].active {
          rates := rates[i := rates[i].(active := false)];
        }
        i := i + 1;
      }
      rates := rates + [Rate(combo, price, true)];
    }

    /** Retires a rate and its combination's tiers; with no rate left, pricing goes off. */
    method Deactivate(id: nat) returns (ok: bool)
      modifies this
      ensures Applied(Edit.Deactivate(id), ok)
    {
      if id >= |rates| {
        return false;
      }
      var combo := rates[id].combo;
      rates := rates[id := rates[id].(active := false)];
      var i := 0;
      while i < |tiers|
        invariant 0 <= i <= |tiers| == |old(tiers)|
        invariant rates == old(rates)[id := old(rates)[id].(active := false)] && pricingEnabled == old(pricingEnabled)
        invariant forall k :: 0 <= k < |tiers| ==>
                    tiers[k] == if k < i then RetireTier(old(tiers)[k], combo) else old(tiers)[k]
      {
        if tiers[i].combo == combo && tiers[i].active {
          tiers := tiers[i := tiers[i].(active := false)];
        }
        i := i + 1;
      }
      if !AnyOffered(rates) {
        pricingEnabled := false;
      }
      ok := true;
    }

    /** A range must not be empty, nor overlap another active tier of the combination. */
    method CheckRange(candidate: Tier, self: Option<nat>) returns (ok: bool)
      ensures ok == Fits(candidate, self, tiers)
    {
      if candidate.maxPages.Some? && candidate.maxPages.value < candidate.minPages {
        return false;
      }
      return FindOverlapping(candidate, self, tiers, 0).None?;
    }

    method AddTier(combo: Combo, minPages: nat, maxPages: Option<nat>, price: nat) returns (ok: bool)
      modifies this`tiers
      ensures Applied(Edit.AddTier(combo, minPages, maxPages, price), ok)
    {
      if ActiveRate(rates, combo).None? {
        return false;
      }
      var tier := Tier(combo, minPages, maxPages, price, true);
      ok := CheckRange(tier, None);
      if ok {
        tiers := tiers + [tier];
      }
    }

    /** The old tier is retired and a new one replaces it. */
    method UpdateTier(id: nat, minPages: nat, maxPages: Option<nat>, price: nat) returns (ok: bool)
      modifies this`tiers
      ensures Applied(Edit.UpdateTier(id, minPages, maxPages, price), ok)
    {
      if id >= |tiers| || !tiers[id].active {
        return false;
      }
      var tier := Tier(tiers[id].combo, minPages, maxPages, price, true);
      ok := CheckRange(tier, Some(id));
      if ok {
        tiers := tiers[id := tiers[id].(active := false)];
        tiers := tiers + [tier];
      }
    }

    method DeactivateTier(id: nat) returns (ok: bool)
      modifies this`tiers
      ensures Applied(Edit.DeactivateTier(id), ok)
    {
      if id >= |tiers| || !tiers[id].active {
        return false;
      }
      tiers := tiers[id := tiers[id].(active := false)];
      ok := true;
    }

    /** Pricing goes on only with a rate to charge. */
    method SwitchPricing(on: bool) returns (ok: bool)
      modifies this`pricingEnabled
      ensures Applied(Edit.SwitchPricing(on), ok)
    {
      if on && !AnyOffered(rates) {
        return false;
      }
      pricingEnabled := on;
      ok := true;
    }

    /** The rate for an order's pages of one combination, with the active tiers in the order the query lists them. */
    method ResolveRate(combo: Combo, pages: nat, listing: seq<Tier>) returns (resolved: Option<Resolved>)
      ensures resolved == ResolveFrom(rates, listing, combo, pages)
    {
      var rate := ActiveRate(rates, combo);
      if rate.None? {
        return None;
      }
      var i := 0;
      while i < |listing| && !Covers(listing[i], pages)
        invariant 0 <= i <= |listing|
        invariant FirstCovering(listing[i..], pages) == FirstCovering(listing, pages)
      {
        assert listing[i..][1..] == listing[i + 1..];
        i := i + 1;
      }
      var tier := if i < |listing| then Some(listing[i]) else None;
      var price := if tier.Some? then tier.value.price else rate.value.price;
      return Some(Resolved(rate.value.price, price, |listing| > 0, tier));
    }
  }
}
