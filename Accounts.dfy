/**
 * The account records the finance client returns, the filter that selects the active ones, the
 * index lists that stand for the source's sublists of shared records, and the sums over them.
 */
module Accounts {
  import opened Wrappers

  /**
   * One account record. Keys every record is read with `[...]` are plain fields; keys read with
   * `.get(key, default)` or only in some paths are `Option`s, `None` standing for a missing key.
   */
  datatype Account = Account(
    id: Option<int>,
    accountName: Option<string>,
    fiName: Option<string>,
    accountType: string,
    currentBalance: int,
    currency: Option<string>,
    lastUpdatedInDate: Option<string>,
    isActive: bool,
    isAccountNotFound: bool,
    isClosed: bool)

  /** The filter of every update: active, found, and not closed. */
  predicate IsActive(a: Account) {
    a.isActive && !a.isAccountNotFound && !a.isClosed
  }

  /** The exception that stops an update part-way (a KeyError in the source). */
  datatype Failure = UnknownAccountType(accountType: string) | MissingId | MissingAccountName

  /** The account list after a loop of an update, and the exception that stopped the loop, if any. */
  datatype Step = Step(accounts: seq<Account>, failure: Option<Failure>)

  /** Every index of `idx` points into a list of length `n`. */
  predicate InBounds(idx: seq<nat>, n: int) {
    forall j :: 0 <= j < |idx| ==> idx[j] < n
  }

  /** The indices are in strictly increasing order (so each record is listed at most once). */
  predicate Increasing(idx: seq<nat>) {
    forall i, j :: 0 <= i < j < |idx| ==> idx[i] < idx[j]
  }

  /** `e` is `d` with at most the balances changed. */
  predicate SameButBalances(d: seq<Account>, e: seq<Account>) {
    |d| == |e| && forall i :: 0 <= i < |d| ==> e[i] == d[i].(currentBalance := e[i].currentBalance)
  }

  /** `[account for account in d if keep(account)]`, as the positions of the kept records in `d`. */
  function Positions(d: seq<Account>, keep: Account -> bool): (r: seq<nat>)
    ensures forall k :: k in r <==> 0 <= k < |d| && keep(d[k])
    ensures Increasing(r)
    ensures InBounds(r, |d|)
  {
    if d == [] then []
    else
      var n := |d| - 1;
      var p := Positions(d[..n], keep);
      assert forall i :: 0 <= i < |p| ==> p[i] in p && p[i] < n;
      p + if keep(d[n]) then [n] else []
  }

  /** `sum(d[k]['currentBalance'] for k in idx)`. */
  function SumAt(d: seq<Account>, idx: seq<nat>): int
    requires InBounds(idx, |d|)
  {
    if idx == [] then 0
    else
      var m := |idx| - 1;
      SumAt(d, idx[..m]) + d[idx[m]].currentBalance
  }

  /** The sum of `value` over the records of `d` that `keep` selects: a reference definition. */
  function SumWhere(d: seq<Account>, keep: Account -> bool, value: Account -> int): int {
    if d == [] then 0
    else SumWhere(d[..|d| - 1], keep, value) + if keep(d[|d| - 1]) then value(d[|d| - 1]) else 0
  }

  /**
   * Summing the balances of a later list `e` at the positions `keep` selects in `d` is the
   * reference sum, provided each selected record's later balance is `value` of the record in `d`.
   */
  lemma {:induction false} SumAtPositions(d: seq<Account>, e: seq<Account>, keep: Account -> bool, value: Account -> int)
    requires |d| <= |e|
    requires forall k :: 0 <= k < |d| && keep(d[k]) ==> e[k].currentBalance == value(d[k])
    ensures SumAt(e, Positions(d, keep)) == SumWhere(d, keep, value)
  {
    if d != [] {
      var n := |d| - 1;
      SumAtPositions(d[..n], e, keep, value);
      var p := Positions(d[..n], keep);
      if keep(d[n]) {
        assert Positions(d, keep) == p + [n];
        assert (p + [n])[..|p|] == p;
      } else {
        assert Positions(d, keep) == p;
      }
    }
  }

  /** A sum over a selection that splits into two disjoint selections is the sum of the two. */
  lemma {:induction false} SumWhereSplit(d: seq<Account>, keep: Account -> bool, left: Account -> bool, right: Account -> bool, value: Account -> int)
    requires forall k :: 0 <= k < |d| ==> (keep(d[k]) <==> left(d[k]) || right(d[k]))
    requires forall k :: 0 <= k < |d| ==> !(left(d[k]) && right(d[k]))
    ensures SumWhere(d, keep, value) == SumWhere(d, left, value) + SumWhere(d, right, value)
  {
    if d != [] {
      SumWhereSplit(d[..|d| - 1], keep, left, right, value);
    }
  }

  /** Replacing a record the selection drops by another one it drops leaves the sum unchanged. */
  lemma {:induction false} SumWhereIgnoresDropped(d: seq<Account>, i: nat, x: Account, keep: Account -> bool, value: Account -> int)
    requires i < |d| && !keep(d[i]) && !keep(x)
    ensures SumWhere(d[i := x], keep, value) == SumWhere(d, keep, value)
  {
    var n := |d| - 1;
    if i == n {
      assert d[i := x][..n] == d[..n];
    } else {
      assert d[i := x][..n] == d[..n][i := x];
      SumWhereIgnoresDropped(d[..n], i, x, keep, value);
    }
  }

  /** A selection whose every selected record has value zero sums to zero. */
  lemma {:induction false} SumWhereOfZeros(d: seq<Account>, keep: Account -> bool, value: Account -> int)
    requires forall k :: 0 <= k < |d| && keep(d[k]) ==> value(d[k]) == 0
    ensures SumWhere(d, keep, value) == 0
  {
    if d != [] {
      SumWhereOfZeros(d[..|d| - 1], keep, value);
    }
  }

  /** A selection whose every selected record has a non-negative value has a non-negative sum. */
  lemma {:induction false} SumWhereNonNegative(d: seq<Account>, keep: Account -> bool, value: Account -> int)
    requires forall k :: 0 <= k < |d| && keep(d[k]) ==> value(d[k]) >= 0
    ensures SumWhere(d, keep, value) >= 0
  {
    if d != [] {
      SumWhereNonNegative(d[..|d| - 1], keep, value);
    }
  }

  /** A selection whose every selected record has a non-positive value has a non-positive sum. */
  lemma {:induction false} SumWhereNonPositive(d: seq<Account>, keep: Account -> bool, value: Account -> int)
    requires forall k :: 0 <= k < |d| && keep(d[k]) ==> value(d[k]) <= 0
    ensures SumWhere(d, keep, value) <= 0
  {
    if d != [] {
      SumWhereNonPositive(d[..|d| - 1], keep, value);
    }
  }
}
