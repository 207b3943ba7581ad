/**
 * The balance aggregation that both sensor files run inside their `update` methods: the in-place
 * sign normalisation, the net-worth totals and the per-category total with its published account
 * list. Each loop is a method over the account array, proved against a function that follows the
 * loop step by step; the lemmas give each result in closed form, account by account.
 */
module Aggregation {
  import opened Wrappers
  import opened SensorTypes
  import opened Accounts
  import opened CurrencyOverride

  // ---------------------------------------------------------------------------------------------
  // Sign normalisation.

  /** An account with its balance passed through `format_balance` under its type's flag. */
  function Normalised(a: Account): Account {
    a.(currentBalance := FormatBalance(InverseSign(a.accountType), a.currentBalance))
  }

  /** The normalisation loop; it stops at the first account whose type is not in the table. */
  function Normalise(d: seq<Account>, idx: seq<nat>): (s: Step)
    requires InBounds(idx, |d|)
    ensures SameButBalances(d, s.accounts)
    ensures s.failure.None? || s.failure.value.UnknownAccountType?
    decreases |idx|
  {
    if idx == [] then Step(d, None)
    else
      var a := d[idx[0]];
      if a.accountType !in SENSOR_TYPES then Step(d, Some(UnknownAccountType(a.accountType)))
      else Normalise(d[idx[0] := Normalised(a)], idx[1..])
  }

  /** Every account at `idx` has a type the table knows. */
  predicate KnownTypes(d: seq<Account>, idx: seq<nat>) {
    forall k :: k in idx && k < |d| ==> d[k].accountType in SENSOR_TYPES
  }

  /** Normalisation fails exactly when one of the accounts has an unknown type. */
  lemma {:induction false} NormaliseFails(d: seq<Account>, idx: seq<nat>)
    requires InBounds(idx, |d|)
    ensures Normalise(d, idx).failure.Some? <==> !KnownTypes(d, idx)
    decreases |idx|
  {
    if idx != [] {
      var k := idx[0];
      assert forall j :: j in idx <==> j == k || j in idx[1..];
      if d[k].accountType in SENSOR_TYPES {
        NormaliseFails(d[k := Normalised(d[k])], idx[1..]);
      }
    }
  }

  /**
   * A successful normalisation flips the sign of each listed account exactly once, under its own
   * type's flag, and leaves every other account as it was.
   */
  lemma {:induction false} NormaliseEffect(d: seq<Account>, idx: seq<nat>)
    requires InBounds(idx, |d|) && Increasing(idx)
    requires Normalise(d, idx).failure == None
    ensures forall i :: 0 <= i < |d| ==> Normalise(d, idx).accounts[i] == if i in idx then Normalised(d[i]) else d[i]
    decreases |idx|
  {
    if idx != [] {
      var k := idx[0];
      assert Increasing(idx[1..]);
      NormaliseEffect(d[k := Normalised(d[k])], idx[1..]);
      assert forall j :: j in idx <==> j == k || j in idx[1..];
      assert k !in idx[1..] by {
        forall j | 0 <= j < |idx[1..]| ensures idx[1..][j] != k {
          assert idx[1..][j] == idx[j + 1];
        }
      }
    }
  }

  /** The normalisation loop `for active_account in active_accounts: ... = format_balance(...)`. */
  method NormaliseBalances(data: array<Account>, idx: seq<nat>) returns (failure: Option<Failure>)
    requires InBounds(idx, data.Length)
    modifies data
    ensures Step(data[..], failure) == Normalise(old(data[..]), idx)
  {
    var i := 0;
    while i < |idx|
      invariant 0 <= i <= |idx|
      invariant Normalise(old(data[..]), idx) == Normalise(data[..], idx[i..])
    {
      var k := idx[i];
      assert idx[i..][0] == k && idx[i..][1..] == idx[i + 1..];
      if data[k].accountType !in SENSOR_TYPES {
        return Some(UnknownAccountType(data[k].accountType));
      }
      var inverseSign := SENSOR_TYPES[data[k].accountType].inverseSign;
      data[k] := data[k].(currentBalance := FormatBalance(inverseSign, data[k].currentBalance));
      i := i + 1;
    }
    failure := None;
  }

  // ---------------------------------------------------------------------------------------------
  // The net-worth update.

  /** An active account's balance once normalised and then converted. */
  function Contribution(a: Account, overrides: seq<Override>, convert: Converter, uom: string): int {
    Chain(FormatBalance(InverseSign(a.accountType), a.currentBalance), Conversions(overrides, a.id), convert, uom)
  }

  function ContributionOf(overrides: seq<Override>, convert: Converter, uom: string): Account -> int {
    (a: Account) => Contribution(a, overrides, convert, uom)
  }

  /** An account whose id is not listed contributes its normalised balance. */
  lemma ContributionOfUnlisted(a: Account, overrides: seq<Override>, convert: Converter, uom: string)
    requires !Listed(overrides, a.id)
    ensures Contribution(a, overrides, convert, uom) == FormatBalance(InverseSign(a.accountType), a.currentBalance)
  {
    UnlistedNotConverted(Normalised(a), overrides, convert, uom);
  }

  /** An account whose raw balance is zero contributes zero when converting zero always gives zero. */
  lemma ContributionOfZero(a: Account, overrides: seq<Override>, convert: Converter, uom: string)
    requires a.currentBalance == 0
    requires forall c :: convert(0, c, uom) == 0
    ensures Contribution(a, overrides, convert, uom) == 0
  {
    ChainOfZero(Conversions(overrides, a.id), convert, uom);
  }

  /** The three totals a net-worth sensor publishes. */
  datatype Totals = Totals(netWorth: int, assets: int, liabilities: int)

  /** The account list after a net-worth update, and its totals or the exception that stopped it. */
  datatype NetWorthOutcome = NetWorthOutcome(accounts: seq<Account>, result: Result<Totals, Failure>)

  /** The in-place steps of a net-worth update: normalise the active accounts, then convert them. */
  function NormaliseAndConvert(d: seq<Account>, overrides: seq<Override>, convert: Converter, uom: string): (s: Step)
    ensures SameButBalances(d, s.accounts)
  {
    var active := Positions(d, IsActive);
    var n := Normalise(d, active);
    if n.failure.Some? then n else ApplyOverrides(n.accounts, active, overrides, convert, uom)
  }

  /**
   * One net-worth update over the fetched list `d`: the asset and liability sublists are chosen
   * from `d` by `isAsset` and `isLiability` before anything changes, the active accounts are
   * normalised and converted in place, and the three sums are taken over the changed records.
   */
  function NetWorthRun(d: seq<Account>, isAsset: Account -> bool, isLiability: Account -> bool,
                       overrides: seq<Override>, convert: Converter, uom: string): NetWorthOutcome
  {
    var s := NormaliseAndConvert(d, overrides, convert, uom);
    if s.failure.Some? then NetWorthOutcome(s.accounts, Err(s.failure.value))
    else
      var totals := Totals(SumAt(s.accounts, Positions(d, IsActive)), SumAt(s.accounts, Positions(d, isAsset)),
                           SumAt(s.accounts, Positions(d, isLiability)));
      NetWorthOutcome(s.accounts, Ok(totals))
  }

  /**
   * The aggregation body of a net-worth update over the fetched list `data`: the sublists are
   * chosen, the active records are normalised and converted in place, and the totals are summed.
   */
  method NetWorthUpdate(data: array<Account>, isAsset: Account -> bool, isLiability: Account -> bool,
                        overrides: seq<Override>, convert: Converter, uom: string)
    returns (result: Result<Totals, Failure>)
    modifies data
    ensures data[..] == NetWorthRun(old(data[..]), isAsset, isLiability, overrides, convert, uom).accounts
    ensures result == NetWorthRun(old(data[..]), isAsset, isLiability, overrides, convert, uom).result
  {
    var d := data[..];
    var active := Positions(d, IsActive);
    var assetAccounts := Positions(d, isAsset);
    var liabilityAccounts := Positions(d, isLiability);
    var failure := NormaliseBalances(data, active);
    if failure.Some? {
      return Err(failure.value);
    }
    failure := ApplyCurrencyOverrides(data, active, overrides, convert, uom);
    if failure.Some? {
      return Err(failure.value);
    }
    result := Ok(Totals(SumAt(data[..], active), SumAt(data[..], assetAccounts), SumAt(data[..], liabilityAccounts)));
  }

  /** Every active account of `d` has a type the table knows. */
  predicate ActiveTypesKnown(d: seq<Account>) {
    forall k :: 0 <= k < |d| && IsActive(d[k]) ==> d[k].accountType in SENSOR_TYPES
  }

  /** Every active account of `d` has an id. */
  predicate ActiveIdsPresent(d: seq<Account>) {
    forall k :: 0 <= k < |d| && IsActive(d[k]) ==> d[k].id.Some?
  }

  /**
   * A net-worth update fails with an unknown-type error exactly when an active account has a type
   * outside the table, and otherwise with a missing-id error exactly when an id is listed for
   * conversion and an active account has no id; it succeeds in every other case.
   */
  lemma NetWorthRunOutcome(d: seq<Account>, isAsset: Account -> bool, isLiability: Account -> bool,
                           overrides: seq<Override>, convert: Converter, uom: string)
    ensures var r := NetWorthRun(d, isAsset, isLiability, overrides, convert, uom).result;
      && (!ActiveTypesKnown(d) <==> r.Err? && r.error.UnknownAccountType?)
      && (ActiveTypesKnown(d) && ListsAnyId(overrides) && !ActiveIdsPresent(d) <==> r == Err(MissingId))
      && (r.Ok? <==> ActiveTypesKnown(d) && (!ListsAnyId(overrides) || ActiveIdsPresent(d)))
  {
    var active := Positions(d, IsActive);
    var n := Normalise(d, active);
    NormaliseFails(d, active);
    assert KnownTypes(d, active) == ActiveTypesKnown(d);
    if n.failure.None? {
      ApplyOverridesFails(n.accounts, active, overrides, convert, uom);
      assert HaveIds(n.accounts, active) == ActiveIdsPresent(d);
    }
  }

  /**
   * After successful in-place steps every inactive account is as it was and every active account
   * carries its contribution: its balance normalised once, then converted once per listing of its id.
   */
  lemma NormaliseAndConvertEffect(d: seq<Account>, overrides: seq<Override>, convert: Converter, uom: string)
    requires NormaliseAndConvert(d, overrides, convert, uom).failure.None?
    ensures var e := NormaliseAndConvert(d, overrides, convert, uom).accounts;
      forall i :: 0 <= i < |d| ==>
        e[i] == if IsActive(d[i]) then d[i].(currentBalance := Contribution(d[i], overrides, convert, uom)) else d[i]
  {
    var active := Positions(d, IsActive);
    var n := Normalise(d, active);
    NormaliseEffect(d, active);
    var o := ApplyOverrides(n.accounts, active, overrides, convert, uom);
    ApplyOverridesEffect(n.accounts, active, overrides, convert, uom);
    forall k | 0 <= k < |d|
      ensures o.accounts[k] == if IsActive(d[k]) then d[k].(currentBalance := Contribution(d[k], overrides, convert, uom)) else d[k]
    {
      if IsActive(d[k]) {
        assert k in active;
        assert o.accounts[k] == Converted(Normalised(d[k]), overrides, convert, uom);
      } else {
        assert k !in active;
      }
    }
  }

  /**
   * Sums taken over a changed list `e` whose selected records carry `value` of their original
   * `d` record equal the sums of `value` over the selections of `d`.
   */
  lemma TotalsOfContributions(d: seq<Account>, e: seq<Account>, isAsset: Account -> bool, isLiability: Account -> bool,
                              value: Account -> int)
    requires |d| <= |e|
    requires forall k :: 0 <= k < |d| && IsActive(d[k]) ==> e[k].currentBalance == value(d[k])
    requires forall k :: 0 <= k < |d| && isAsset(d[k]) ==> IsActive(d[k])
    requires forall k :: 0 <= k < |d| && isLiability(d[k]) ==> IsActive(d[k])
    ensures Totals(SumAt(e, Positions(d, IsActive)), SumAt(e, Positions(d, isAsset)), SumAt(e, Positions(d, isLiability)))
         == Totals(SumWhere(d, IsActive, value), SumWhere(d, isAsset, value), SumWhere(d, isLiability, value))
  {
    SumAtPositions(d, e, IsActive, value);
    SumAtPositions(d, e, isAsset, value);
    SumAtPositions(d, e, isLiability, value);
  }

  /**
   * After a successful net-worth update each total is the sum of the contributions of the
   * accounts its sublist selects.
   */
  lemma NetWorthRunTotals(d: seq<Account>, isAsset: Account -> bool, isLiability: Account -> bool,
                          overrides: seq<Override>, convert: Converter, uom: string)
    requires forall a :: isAsset(a) ==> IsActive(a)
    requires forall a :: isLiability(a) ==> IsActive(a)
    requires NetWorthRun(d, isAsset, isLiability, overrides, convert, uom).result.Ok?
    ensures NetWorthRun(d, isAsset, isLiability, overrides, convert, uom).result.value
         == Totals(SumWhere(d, IsActive, ContributionOf(overrides, convert, uom)),
                   SumWhere(d, isAsset, ContributionOf(overrides, convert, uom)),
                   SumWhere(d, isLiability, ContributionOf(overrides, convert, uom)))
  {
    var e := NormaliseAndConvert(d, overrides, convert, uom).accounts;
    NormaliseAndConvertEffect(d, overrides, convert, uom);
    TotalsOfContributions(d, e, isAsset, isLiability, ContributionOf(overrides, convert, uom));
  }

  /**
   * An inactive, missing or closed account contributes to no total: replacing it by any other
   * such record changes neither whether the update succeeds nor any of its totals.
   */
  lemma InactiveAccountIgnored(d: seq<Account>, i: nat, x: Account, isAsset: Account -> bool, isLiability: Account -> bool,
                               overrides: seq<Override>, convert: Converter, uom: string)
    requires forall a :: isAsset(a) ==> IsActive(a)
    requires forall a :: isLiability(a) ==> IsActive(a)
    requires i < |d| && !IsActive(d[i]) && !IsActive(x)
    ensures var r := NetWorthRun(d, isAsset, isLiability, overrides, convert, uom).result;
      var r' := NetWorthRun(d[i := x], isAsset, isLiability, overrides, convert, uom).result;
      (r'.Ok? <==> r.Ok?) && (r.Ok? ==> r' == r)
  {
    var d' := d[i := x];
    assert (ActiveTypesKnown(d') <==> ActiveTypesKnown(d)) && (ActiveIdsPresent(d') <==> ActiveIdsPresent(d)) by {
      forall k | 0 <= k < |d| && k != i ensures d'[k] == d[k] { }
    }
    NetWorthRunOutcome(d, isAsset, isLiability, overrides, convert, uom);
    NetWorthRunOutcome(d', isAsset, isLiability, overrides, convert, uom);
    if NetWorthRun(d, isAsset, isLiability, overrides, convert, uom).result.Ok? {
      var value := ContributionOf(overrides, convert, uom);
      NetWorthRunTotals(d, isAsset, isLiability, overrides, convert, uom);
      NetWorthRunTotals(d', isAsset, isLiability, overrides, convert, uom);
      SumWhereIgnoresDropped(d, i, x, IsActive, value);
      SumWhereIgnoresDropped(d, i, x, isAsset, value);
      SumWhereIgnoresDropped(d, i, x, isLiability, value);
    }
  }

  // ---------------------------------------------------------------------------------------------
  // The category update.

  /** The accounts a category sensor looks at: active ones of exactly its type. */
  function CategoryFilter(sensorType: string): Account -> bool {
    (a: Account) => IsActive(a) && a.accountType == sensorType
  }

  /** An account's balance after its conversions, without normalisation. */
  function ConvertedBalanceOf(overrides: seq<Override>, convert: Converter, uom: string): Account -> int {
    (a: Account) => Chain(a.currentBalance, Conversions(overrides, a.id), convert, uom)
  }

  /**
   * One published account summary. Text keys a record lacks are published as ''; a missing id is
   * published as '' too, which `id == None` stands for.
   */
  datatype Entry = Entry(name: string, id: Option<int>, firmName: string, balance: int,
                         accountType: string, currency: string, refreshed: string)

  function EntryOf(a: Account, inverseSign: bool): Entry {
    Entry(a.accountName.GetOr(""), a.id, a.fiName.GetOr(""), FormatBalance(inverseSign, a.currentBalance),
          a.accountType, a.currency.GetOr(""), a.lastUpdatedInDate.GetOr(""))
  }

  /** The summaries of the accounts at `idx`, one per account, in list order. */
  function EntriesFor(d: seq<Account>, idx: seq<nat>, inverseSign: bool): (r: seq<Entry>)
    requires InBounds(idx, |d|)
    ensures |r| == |idx|
    ensures forall j :: 0 <= j < |idx| ==> r[j] == EntryOf(d[idx[j]], inverseSign)
  {
    if idx == [] then []
    else EntriesFor(d, idx[..|idx| - 1], inverseSign) + [EntryOf(d[idx[|idx| - 1]], inverseSign)]
  }

  /** The sum of the published balances. */
  function SumBalances(entries: seq<Entry>): int {
    if entries == [] then 0 else SumBalances(entries[..|entries| - 1]) + entries[|entries| - 1].balance
  }

  /** The published list and the exception that stopped building it, if any. */
  datatype Published = Published(entries: seq<Entry>, failure: Option<Failure>)

  /**
   * The publishing loop, appending to `acc`; the log line in its body reads `account['accountName']`
   * directly, so it stops at the first account without a name.
   */
  function Publish(d: seq<Account>, idx: seq<nat>, inverseSign: bool, acc: seq<Entry>): Published
    requires InBounds(idx, |d|)
    decreases |idx|
  {
    if idx == [] then Published(acc, None)
    else if d[idx[0]].accountName.None? then Published(acc, Some(MissingAccountName))
    else Publish(d, idx[1..], inverseSign, acc + [EntryOf(d[idx[0]], inverseSign)])
  }

  /** Every account at `idx` has a name. */
  predicate HaveNames(d: seq<Account>, idx: seq<nat>) {
    forall k :: k in idx && k < |d| ==> d[k].accountName.Some?
  }

  /** Publishing fails exactly when an account has no name, and otherwise appends one summary per account. */
  lemma {:induction false} PublishEffect(d: seq<Account>, idx: seq<nat>, inverseSign: bool, acc: seq<Entry>)
    requires InBounds(idx, |d|)
    ensures Publish(d, idx, inverseSign, acc).failure.None? <==> HaveNames(d, idx)
    ensures HaveNames(d, idx) ==> Publish(d, idx, inverseSign, acc).entries == acc + EntriesFor(d, idx, inverseSign)
    decreases |idx|
  {
    if idx != [] {
      var k := idx[0];
      assert forall j :: j in idx <==> j == k || j in idx[1..];
      if d[k].accountName.Some? {
        var acc' := acc + [EntryOf(d[k], inverseSign)];
        PublishEffect(d, idx[1..], inverseSign, acc');
        if HaveNames(d, idx) {
          var rest := EntriesFor(d, idx[1..], inverseSign);
          var all := EntriesFor(d, idx, inverseSign);
          assert acc' + rest == acc + all by {
            assert |acc' + rest| == |acc + all|;
            forall j | 0 <= j < |acc + all| ensures (acc' + rest)[j] == (acc + all)[j] {
              if j > |acc| {
                assert idx[1..][j - |acc| - 1] == idx[j - |acc|];
              }
            }
          }
        }
      }
    }
  }

  /** The published balances sum to the formatted sum of the balances. */
  lemma {:induction false} PublishedSum(d: seq<Account>, idx: seq<nat>, inverseSign: bool)
    requires InBounds(idx, |d|)
    ensures SumBalances(EntriesFor(d, idx, inverseSign)) == FormatBalance(inverseSign, SumAt(d, idx))
    decreases |idx|
  {
    if idx != [] {
      var m := |idx| - 1;
      PublishedSum(d, idx[..m], inverseSign);
      var front := EntriesFor(d, idx[..m], inverseSign);
      var last := EntryOf(d[idx[m]], inverseSign);
      assert EntriesFor(d, idx, inverseSign) == front + [last];
      assert (front + [last])[..m] == front;
      assert SumBalances(front + [last]) == SumBalances(front) + last.balance;
    }
  }

  /** What a category update leaves: the accounts, the new state, the new published list, the exception. */
  datatype CategoryOutcome = CategoryOutcome(accounts: seq<Account>, state: Option<int>,
                                             published: Option<seq<Entry>>, failure: Option<Failure>)

  /**
   * One category update over the fetched list `d`: the category's accounts are converted in place,
   * the state is set to their formatted sum, and the published list is rebuilt from empty.
   * `state` and `published` are `None` when the update stopped before setting them.
   */
  function CategoryRun(d: seq<Account>, sensorType: string, inverseSign: bool,
                       overrides: seq<Override>, convert: Converter, uom: string): CategoryOutcome
  {
    var idx := Positions(d, CategoryFilter(sensorType));
    var o := ApplyOverrides(d, idx, overrides, convert, uom);
    if o.failure.Some? then CategoryOutcome(o.accounts, None, None, o.failure)
    else
      var p := Publish(o.accounts, idx, inverseSign, []);
      CategoryOutcome(o.accounts, Some(FormatBalance(inverseSign, SumAt(o.accounts, idx))), Some(p.entries), p.failure)
  }

  /** Every account of the category has an id. */
  predicate CategoryIdsPresent(d: seq<Account>, sensorType: string) {
    forall k :: 0 <= k < |d| && CategoryFilter(sensorType)(d[k]) ==> d[k].id.Some?
  }

  /** Every account of the category has a name. */
  predicate CategoryNamesPresent(d: seq<Account>, sensorType: string) {
    forall k :: 0 <= k < |d| && CategoryFilter(sensorType)(d[k]) ==> d[k].accountName.Some?
  }

  /**
   * A category update sets its state unless an id is listed for conversion and one of the
   * category's accounts has no id; it then finishes unless one of them has no name. When it sets
   * the state, the category's accounts are converted and nothing else changes, and the state is the
   * formatted sum of the converted balances; when it finishes, the published list holds one summary
   * per account of the category, in list order, built from the converted records.
   */
  lemma CategoryRunEffect(d: seq<Account>, sensorType: string, inverseSign: bool,
                          overrides: seq<Override>, convert: Converter, uom: string)
    ensures var r := CategoryRun(d, sensorType, inverseSign, overrides, convert, uom);
      var idx := Positions(d, CategoryFilter(sensorType));
      && (r.state.Some? <==> !ListsAnyId(overrides) || CategoryIdsPresent(d, sensorType))
      && (r.state.None? ==> r.published.None? && r.failure == Some(MissingId))
      && (r.failure.None? <==> r.state.Some? && CategoryNamesPresent(d, sensorType))
      && (r.state.Some? ==>
            && r.published.Some?
            && (forall i :: 0 <= i < |d| ==>
                  r.accounts[i] == if CategoryFilter(sensorType)(d[i]) then Converted(d[i], overrides, convert, uom) else d[i])
            && r.state.value == FormatBalance(inverseSign, SumWhere(d, CategoryFilter(sensorType), ConvertedBalanceOf(overrides, convert, uom))))
      && (r.failure.None? ==> r.published.value == EntriesFor(r.accounts, idx, inverseSign))
      && (r.failure == Some(MissingAccountName) ==> r.state.Some? && r.published.Some?)
  {
    var keep := CategoryFilter(sensorType);
    var idx := Positions(d, keep);
    var o := ApplyOverrides(d, idx, overrides, convert, uom);
    ApplyOverridesFails(d, idx, overrides, convert, uom);
    assert HaveIds(d, idx) == CategoryIdsPresent(d, sensorType);
    if o.failure.None? {
      ApplyOverridesEffect(d, idx, overrides, convert, uom);
      PublishEffect(o.accounts, idx, inverseSign, []);
      assert HaveNames(o.accounts, idx) == CategoryNamesPresent(d, sensorType);
      SumAtPositions(d, o.accounts, keep, ConvertedBalanceOf(overrides, convert, uom));
    }
  }

  /** When a category update finishes, its state is the sum of the balances it published. */
  lemma CategoryStateIsPublishedSum(d: seq<Account>, sensorType: string, inverseSign: bool,
                                    overrides: seq<Override>, convert: Converter, uom: string)
    requires CategoryRun(d, sensorType, inverseSign, overrides, convert, uom).failure.None?
    ensures var r := CategoryRun(d, sensorType, inverseSign, overrides, convert, uom);
      r.state.Some? && r.published.Some? && r.state.value == SumBalances(r.published.value)
  {
    var idx := Positions(d, CategoryFilter(sensorType));
    var o := ApplyOverrides(d, idx, overrides, convert, uom);
    CategoryRunEffect(d, sensorType, inverseSign, overrides, convert, uom);
    PublishedSum(o.accounts, idx, inverseSign);
  }

  /** An account outside the category (inactive, or of another type) does not affect the category's state. */
  lemma CategoryIgnoresOthers(d: seq<Account>, i: nat, x: Account, sensorType: string, inverseSign: bool,
                              overrides: seq<Override>, convert: Converter, uom: string)
    requires i < |d| && !CategoryFilter(sensorType)(d[i]) && !CategoryFilter(sensorType)(x)
    ensures CategoryRun(d[i := x], sensorType, inverseSign, overrides, convert, uom).state
         == CategoryRun(d, sensorType, inverseSign, overrides, convert, uom).state
  {
    var d' := d[i := x];
    assert CategoryIdsPresent(d', sensorType) <==> CategoryIdsPresent(d, sensorType) by {
      forall k | 0 <= k < |d| && k != i ensures d'[k] == d[k] { }
    }
    CategoryRunEffect(d, sensorType, inverseSign, overrides, convert, uom);
    CategoryRunEffect(d', sensorType, inverseSign, overrides, convert, uom);
    SumWhereIgnoresDropped(d, i, x, CategoryFilter(sensorType), ConvertedBalanceOf(overrides, convert, uom));
  }

  /**
   * A category update that sets its state changes the balance of no account outside the category
   * and of no account whose id is not listed; every other field of every account is kept.
   */
  lemma CategoryOverrideOnlyListed(d: seq<Account>, sensorType: string, inverseSign: bool,
                                   overrides: seq<Override>, convert: Converter, uom: string)
    requires CategoryRun(d, sensorType, inverseSign, overrides, convert, uom).state.Some?
    ensures var e := CategoryRun(d, sensorType, inverseSign, overrides, convert, uom).accounts;
      && SameButBalances(d, e)
      && forall i :: 0 <= i < |d| && (!CategoryFilter(sensorType)(d[i]) || !Listed(overrides, d[i].id)) ==> e[i] == d[i]
  {
    var e := CategoryRun(d, sensorType, inverseSign, overrides, convert, uom).accounts;
    CategoryRunEffect(d, sensorType, inverseSign, overrides, convert, uom);
    forall i | 0 <= i < |d| && (!CategoryFilter(sensorType)(d[i]) || !Listed(overrides, d[i].id))
      ensures e[i] == d[i]
    {
      if CategoryFilter(sensorType)(d[i]) {
        UnlistedNotConverted(d[i], overrides, convert, uom);
      }
    }
  }
}
