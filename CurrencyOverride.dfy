/**
 * The currency override of every update: for each configured currency and each account id listed
 * under it, every scanned account with that id has its balance replaced by the rounded conversion
 * of that balance from the currency into the unit of measurement.
 */
module CurrencyOverride {
  import opened Wrappers
  import opened Accounts

  /** One currency key of an `account_currency_override` entry and the account ids listed under it. */
  datatype Override = Override(currency: string, accountIds: seq<int>)

  /**
   * `round(converter.convert(amount, from, to))`: the currency converter is outside the model and
   * is given as a function from an integer amount and two currency codes to an integer amount.
   */
  type Converter = (int, string, string) -> int

  // ---------------------------------------------------------------------------------------------
  // The loops of the source, one function per loop, each stopping at the account that lacks an id.

  /** The innermost loop: converts every scanned account whose id is `id`. */
  function ConvertMatching(d: seq<Account>, idx: seq<nat>, currency: string, id: int, convert: Converter, uom: string): (s: Step)
    requires InBounds(idx, |d|)
    ensures SameButBalances(d, s.accounts)
    ensures s.failure == None || s.failure == Some(MissingId)
    decreases |idx|
  {
    if idx == [] then Step(d, None)
    else
      var a := d[idx[0]];
      if a.id.None? then Step(d, Some(MissingId))
      else if a.id.value == id then
        ConvertMatching(d[idx[0] := a.(currentBalance := convert(a.currentBalance, currency, uom))], idx[1..], currency, id, convert, uom)
      else
        ConvertMatching(d, idx[1..], currency, id, convert, uom)
  }

  /** The middle loop: every id listed under one currency, in list order. */
  function OverrideIds(d: seq<Account>, idx: seq<nat>, currency: string, ids: seq<int>, convert: Converter, uom: string): (s: Step)
    requires InBounds(idx, |d|)
    ensures SameButBalances(d, s.accounts)
    ensures s.failure == None || s.failure == Some(MissingId)
    decreases |ids|
  {
    if ids == [] then Step(d, None)
    else
      var s := ConvertMatching(d, idx, currency, ids[0], convert, uom);
      if s.failure.Some? then s else OverrideIds(s.accounts, idx, currency, ids[1..], convert, uom)
  }

  /** The outer loop: every configured currency, in configuration order. */
  function ApplyOverrides(d: seq<Account>, idx: seq<nat>, overrides: seq<Override>, convert: Converter, uom: string): (s: Step)
    requires InBounds(idx, |d|)
    ensures SameButBalances(d, s.accounts)
    ensures s.failure == None || s.failure == Some(MissingId)
    decreases |overrides|
  {
    if overrides == [] then Step(d, None)
    else
      var s := OverrideIds(d, idx, overrides[0].currency, overrides[0].accountIds, convert, uom);
      if s.failure.Some? then s else ApplyOverrides(s.accounts, idx, overrides[1..], convert, uom)
  }

  // ---------------------------------------------------------------------------------------------
  // A reference definition, account by account.

  /** The currency once for every time `id` is listed under it. */
  function Occurrences(currency: string, ids: seq<int>, id: int): seq<string> {
    if ids == [] then [] else (if ids[0] == id then [currency] else []) + Occurrences(currency, ids[1..], id)
  }

  /** The currencies an account with this id is converted from, in the order the loops reach them. */
  function Conversions(overrides: seq<Override>, id: Option<int>): seq<string> {
    if overrides == [] || id.None? then []
    else Occurrences(overrides[0].currency, overrides[0].accountIds, id.value) + Conversions(overrides[1..], id)
  }

  /** Converts a balance from each currency in turn. */
  function Chain(balance: int, currencies: seq<string>, convert: Converter, uom: string): int
    decreases |currencies|
  {
    if currencies == [] then balance else Chain(convert(balance, currencies[0], uom), currencies[1..], convert, uom)
  }

  /** An account after all its conversions. */
  function Converted(a: Account, overrides: seq<Override>, convert: Converter, uom: string): Account {
    a.(currentBalance := Chain(a.currentBalance, Conversions(overrides, a.id), convert, uom))
  }

  /** Some currency of the configuration lists at least one id. */
  predicate ListsAnyId(overrides: seq<Override>) {
    exists o :: o in overrides && o.accountIds != []
  }

  /** The id is listed under some currency. */
  predicate Listed(overrides: seq<Override>, id: Option<int>) {
    id.Some? && exists o :: o in overrides && id.value in o.accountIds
  }

  /** Every scanned account has an id. */
  predicate HaveIds(d: seq<Account>, idx: seq<nat>) {
    forall k :: k in idx && k < |d| ==> d[k].id.Some?
  }

  lemma {:induction false} ChainAppend(balance: int, xs: seq<string>, ys: seq<string>, convert: Converter, uom: string)
    ensures Chain(balance, xs + ys, convert, uom) == Chain(Chain(balance, xs, convert, uom), ys, convert, uom)
    decreases |xs|
  {
    if xs != [] {
      assert (xs + ys)[0] == xs[0] && (xs + ys)[1..] == xs[1..] + ys;
      ChainAppend(convert(balance, xs[0], uom), xs[1..], ys, convert, uom);
    } else {
      assert xs + ys == ys;
    }
  }

  /** How many times `id` is listed, over all currencies. */
  function ListingCount(overrides: seq<Override>, id: int): nat {
    if overrides == [] then 0 else multiset(overrides[0].accountIds)[id] + ListingCount(overrides[1..], id)
  }

  /** Under one currency, an id is converted once per listing, and always from that currency. */
  lemma {:induction false} OccurrencesCount(currency: string, ids: seq<int>, id: int)
    ensures |Occurrences(currency, ids, id)| == multiset(ids)[id]
    ensures forall c :: c in Occurrences(currency, ids, id) ==> c == currency
  {
    if ids != [] {
      assert ids == [ids[0]] + ids[1..];
      OccurrencesCount(currency, ids[1..], id);
    }
  }

  /**
   * An account whose id is listed k times in all is converted exactly k times, each time from a
   * currency it is listed under.
   */
  lemma {:induction false} ConversionsCount(overrides: seq<Override>, id: int)
    ensures |Conversions(overrides, Some(id))| == ListingCount(overrides, id)
    ensures forall c :: c in Conversions(overrides, Some(id)) ==>
      exists o :: o in overrides && o.currency == c && id in o.accountIds
  {
    if overrides != [] {
      var o := overrides[0];
      OccurrencesCount(o.currency, o.accountIds, id);
      ConversionsCount(overrides[1..], id);
      forall c | c in Occurrences(o.currency, o.accountIds, id)
        ensures o.currency == c && id in o.accountIds
      {
        assert multiset(o.accountIds)[id] > 0;
      }
    }
  }

  /** When converting zero always gives zero, any chain of conversions of zero gives zero. */
  lemma {:induction false} ChainOfZero(currencies: seq<string>, convert: Converter, uom: string)
    requires forall c :: convert(0, c, uom) == 0
    ensures Chain(0, currencies, convert, uom) == 0
    decreases |currencies|
  {
    if currencies != [] {
      ChainOfZero(currencies[1..], convert, uom);
    }
  }

  // ---------------------------------------------------------------------------------------------
  // When the loops fail.

  /** One scan fails exactly when a scanned account has no id. */
  lemma {:induction false} ConvertMatchingFails(d: seq<Account>, idx: seq<nat>, currency: string, id: int, convert: Converter, uom: string)
    requires InBounds(idx, |d|)
    ensures ConvertMatching(d, idx, currency, id, convert, uom).failure.Some? <==> !HaveIds(d, idx)
    decreases |idx|
  {
    if idx != [] {
      var k := idx[0];
      var a := d[k];
      assert k in idx;
      if a.id.Some? {
        var d' := if a.id.value == id then d[k := a.(currentBalance := convert(a.currentBalance, currency, uom))] else d;
        ConvertMatchingFails(d', idx[1..], currency, id, convert, uom);
        assert forall j :: j in idx <==> j == k || j in idx[1..];
        assert forall j :: 0 <= j < |d| ==> d'[j].id == d[j].id;
      }
    }
  }

  /** One currency's ids fail exactly when there are some and a scanned account has no id. */
  lemma {:induction false} OverrideIdsFails(d: seq<Account>, idx: seq<nat>, currency: string, ids: seq<int>, convert: Converter, uom: string)
    requires InBounds(idx, |d|)
    ensures OverrideIds(d, idx, currency, ids, convert, uom).failure.Some? <==> ids != [] && !HaveIds(d, idx)
    decreases |ids|
  {
    if ids != [] {
      var s := ConvertMatching(d, idx, currency, ids[0], convert, uom);
      ConvertMatchingFails(d, idx, currency, ids[0], convert, uom);
      if s.failure.None? {
        OverrideIdsFails(s.accounts, idx, currency, ids[1..], convert, uom);
        assert HaveIds(s.accounts, idx);
      }
    }
  }

  /** The override fails exactly when some id is listed and a scanned account has no id. */
  lemma {:induction false} ApplyOverridesFails(d: seq<Account>, idx: seq<nat>, overrides: seq<Override>, convert: Converter, uom: string)
    requires InBounds(idx, |d|)
    ensures ApplyOverrides(d, idx, overrides, convert, uom).failure.Some? <==> ListsAnyId(overrides) && !HaveIds(d, idx)
    decreases |overrides|
  {
    if overrides != [] {
      var o := overrides[0];
      assert o in overrides;
      assert forall p :: p in overrides <==> p == o || p in overrides[1..];
      var s := OverrideIds(d, idx, o.currency, o.accountIds, convert, uom);
      OverrideIdsFails(d, idx, o.currency, o.accountIds, convert, uom);
      if s.failure.None? {
        ApplyOverridesFails(s.accounts, idx, overrides[1..], convert, uom);
        assert HaveIds(s.accounts, idx) == HaveIds(d, idx);
      }
    }
  }

  // ---------------------------------------------------------------------------------------------
  // What the loops compute when they do not fail.

  lemma {:induction false} ConvertMatchingEffect(d: seq<Account>, idx: seq<nat>, currency: string, id: int, convert: Converter, uom: string)
    requires InBounds(idx, |d|) && Increasing(idx)
    requires ConvertMatching(d, idx, currency, id, convert, uom).failure == None
    ensures var e := ConvertMatching(d, idx, currency, id, convert, uom).accounts;
      forall i :: 0 <= i < |d| ==>
        e[i] == if i in idx && d[i].id == Some(id) then d[i].(currentBalance := convert(d[i].currentBalance, currency, uom)) else d[i]
    decreases |idx|
  {
    if idx != [] {
      var k := idx[0];
      var a := d[k];
      var d' := if a.id.value == id then d[k := a.(currentBalance := convert(a.currentBalance, currency, uom))] else d;
      assert Increasing(idx[1..]);
      ConvertMatchingEffect(d', idx[1..], currency, id, convert, uom);
      assert forall j :: j in idx <==> j == k || j in idx[1..];
      assert k !in idx[1..] by {
        forall j | 0 <= j < |idx[1..]| ensures idx[1..][j] != k {
          assert idx[1..][j] == idx[j + 1];
        }
      }
    }
  }

  /** Converting along one currency's occurrences of an id: the first listed id, then the rest. */
  lemma ChainOccurrencesStep(balance: int, currency: string, ids: seq<int>, id: int, convert: Converter, uom: string)
    requires ids != []
    ensures Chain(balance, Occurrences(currency, ids, id), convert, uom)
         == Chain(if ids[0] == id then convert(balance, currency, uom) else balance, Occurrences(currency, ids[1..], id), convert, uom)
  {
    var head: seq<string> := if ids[0] == id then [currency] else [];
    var rest := Occurrences(currency, ids[1..], id);
    assert Occurrences(currency, ids, id) == head + rest;
    if ids[0] == id {
      assert (head + rest)[0] == currency && (head + rest)[1..] == rest;
    } else {
      assert head + rest == rest;
    }
  }

  lemma {:induction false} OverrideIdsEffect(d: seq<Account>, idx: seq<nat>, currency: string, ids: seq<int>, convert: Converter, uom: string)
    requires InBounds(idx, |d|) && Increasing(idx)
    requires OverrideIds(d, idx, currency, ids, convert, uom).failure == None
    ensures var e := OverrideIds(d, idx, currency, ids, convert, uom).accounts;
      forall i :: 0 <= i < |d| ==>
        e[i] == if i in idx && d[i].id.Some?
                then d[i].(currentBalance := Chain(d[i].currentBalance, Occurrences(currency, ids, d[i].id.value), convert, uom))
                else d[i]
    decreases |ids|
  {
    if ids != [] {
      var s := ConvertMatching(d, idx, currency, ids[0], convert, uom);
      ConvertMatchingEffect(d, idx, currency, ids[0], convert, uom);
      OverrideIdsEffect(s.accounts, idx, currency, ids[1..], convert, uom);
      var e := OverrideIds(d, idx, currency, ids, convert, uom).accounts;
      forall i | 0 <= i < |d| && i in idx && d[i].id.Some?
        ensures e[i] == d[i].(currentBalance := Chain(d[i].currentBalance, Occurrences(currency, ids, d[i].id.value), convert, uom))
      {
        ChainOccurrencesStep(d[i].currentBalance, currency, ids, d[i].id.value, convert, uom);
      }
    } else {
      forall i | 0 <= i < |d| ensures OverrideIds(d, idx, currency, ids, convert, uom).accounts[i] == d[i] { }
    }
  }

  /**
   * A successful override leaves unscanned accounts as they were and gives each scanned account
   * the balance of converting it once per listing of its id, in the order the loops reach them.
   */
  lemma {:induction false} ApplyOverridesEffect(d: seq<Account>, idx: seq<nat>, overrides: seq<Override>, convert: Converter, uom: string)
    requires InBounds(idx, |d|) && Increasing(idx)
    requires ApplyOverrides(d, idx, overrides, convert, uom).failure == None
    ensures var e := ApplyOverrides(d, idx, overrides, convert, uom).accounts;
      forall i :: 0 <= i < |d| ==> e[i] == if i in idx then Converted(d[i], overrides, convert, uom) else d[i]
    decreases |overrides|
  {
    var e := ApplyOverrides(d, idx, overrides, convert, uom).accounts;
    if overrides != [] {
      var o := overrides[0];
      var s := OverrideIds(d, idx, o.currency, o.accountIds, convert, uom);
      OverrideIdsEffect(d, idx, o.currency, o.accountIds, convert, uom);
      ApplyOverridesEffect(s.accounts, idx, overrides[1..], convert, uom);
      forall i | 0 <= i < |d| && i in idx
        ensures e[i] == Converted(d[i], overrides, convert, uom)
      {
        if d[i].id.Some? {
          var v := d[i].id.value;
          ChainAppend(d[i].currentBalance, Occurrences(o.currency, o.accountIds, v), Conversions(overrides[1..], d[i].id), convert, uom);
        }
      }
    } else {
      forall i | 0 <= i < |d| && i in idx ensures e[i] == Converted(d[i], overrides, convert, uom) { }
    }
  }

  lemma {:induction false} OccurrencesOfUnlisted(currency: string, ids: seq<int>, id: int)
    requires id !in ids
    ensures Occurrences(currency, ids, id) == []
  {
    if ids != [] {
      OccurrencesOfUnlisted(currency, ids[1..], id);
    }
  }

  /** An account whose id is listed under no currency is not converted. */
  lemma {:induction false} UnlistedNotConverted(a: Account, overrides: seq<Override>, convert: Converter, uom: string)
    requires !Listed(overrides, a.id)
    ensures Converted(a, overrides, convert, uom) == a
  {
    if a.id.Some? {
      UnlistedHasNoConversions(overrides, a.id.value);
    }
  }

  lemma {:induction false} UnlistedHasNoConversions(overrides: seq<Override>, id: int)
    requires forall o :: o in overrides ==> id !in o.accountIds
    ensures Conversions(overrides, Some(id)) == []
  {
    if overrides != [] {
      assert overrides[0] in overrides;
      OccurrencesOfUnlisted(overrides[0].currency, overrides[0].accountIds, id);
      UnlistedHasNoConversions(overrides[1..], id);
    }
  }

  /**
   * The override touches only scanned accounts whose id is listed: every other account, and every
   * field but the balance, is left as it was.
   */
  lemma ApplyOverridesOnlyListed(d: seq<Account>, idx: seq<nat>, overrides: seq<Override>, convert: Converter, uom: string)
    requires InBounds(idx, |d|) && Increasing(idx)
    requires ApplyOverrides(d, idx, overrides, convert, uom).failure == None
    ensures var e := ApplyOverrides(d, idx, overrides, convert, uom).accounts;
      forall i :: 0 <= i < |d| && (i !in idx || !Listed(overrides, d[i].id)) ==> e[i] == d[i]
  {
    ApplyOverridesEffect(d, idx, overrides, convert, uom);
    forall i | 0 <= i < |d| && i in idx && !Listed(overrides, d[i].id)
      ensures Converted(d[i], overrides, convert, uom) == d[i]
    {
      UnlistedNotConverted(d[i], overrides, convert, uom);
    }
  }

  // ---------------------------------------------------------------------------------------------
  // The loops, in place on the account array.

  method ConvertMatchingAccounts(data: array<Account>, idx: seq<nat>, currency: string, id: int, convert: Converter, uom: string)
    returns (failure: Option<Failure>)
    requires InBounds(idx, data.Length)
    modifies data
    ensures Step(data[..], failure) == ConvertMatching(old(data[..]), idx, currency, id, convert, uom)
  {
    var m := 0;
    while m < |idx|
      invariant 0 <= m <= |idx|
      invariant ConvertMatching(old(data[..]), idx, currency, id, convert, uom)
             == ConvertMatching(data[..], idx[m..], currency, id, convert, uom)
    {
      var k := idx[m];
      assert k in idx;
      assert idx[m..][0] == k && idx[m..][1..] == idx[m + 1..];
      if data[k].id.None? {
        return Some(MissingId);
      }
      if data[k].id.value == id {
        data[k] := data[k].(currentBalance := convert(data[k].currentBalance, currency, uom));
      }
      m := m + 1;
    }
    failure := None;
  }

  method OverrideAccounts(data: array<Account>, idx: seq<nat>, currency: string, ids: seq<int>, convert: Converter, uom: string)
    returns (failure: Option<Failure>)
    requires InBounds(idx, data.Length)
    modifies data
    ensures Step(data[..], failure) == OverrideIds(old(data[..]), idx, currency, ids, convert, uom)
  {
    var j := 0;
    while j < |ids|
      invariant 0 <= j <= |ids|
      invariant OverrideIds(old(data[..]), idx, currency, ids, convert, uom)
             == OverrideIds(data[..], idx, currency, ids[j..], convert, uom)
    {
      assert ids[j..][0] == ids[j] && ids[j..][1..] == ids[j + 1..];
      failure := ConvertMatchingAccounts(data, idx, currency, ids[j], convert, uom);
      if failure.Some? {
        return;
      }
      j := j + 1;
    }
    failure := None;
  }

  /** The override loops of an update, over the accounts at `idx`. */
  method ApplyCurrencyOverrides(data: array<Account>, idx: seq<nat>, overrides: seq<Override>, convert: Converter, uom: string)
    returns (failure: Option<Failure>)
    requires InBounds(idx, data.Length)
    modifies data
    ensures Step(data[..], failure) == ApplyOverrides(old(data[..]), idx, overrides, convert, uom)
  {
    var i := 0;
    while i < |overrides|
      invariant 0 <= i <= |overrides|
      invariant ApplyOverrides(old(data[..]), idx, overrides, convert, uom)
             == ApplyOverrides(data[..], idx, overrides[i..], convert, uom)
    {
      assert overrides[i..][0] == overrides[i] && overrides[i..][1..] == overrides[i + 1..];
      failure := OverrideAccounts(data, idx, overrides[i].currency, overrides[i].accountIds, convert, uom);
      if failure.Some? {
        return;
      }
      i := i + 1;
    }
    failure := None;
  }
}
