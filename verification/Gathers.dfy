/**
 The gather of a fan-out, as SEARCH and PUT both keep it: a counter of the parts that have reported, and the worst
 of what they reported.
 */
module Gathers {
  import opened Basics

  function Worse(a: Result, b: Result): Result {
    if a.Code() > b.Code() then a else b
  }

  /** The answer to a caller whose steps went as listed. */
  function Verdict(outcomes: seq<bool>): Result {
    if false in outcomes then R5XX else R4XX
  }

  ghost function CountOf<T>(parts: seq<T>, reported: T -> bool): (n: nat)
    ensures n <= |parts|
  {
    if parts == [] then 0
    else CountOf(parts[..|parts| - 1], reported) + if reported(parts[|parts| - 1]) then 1 else 0
  }

  ghost function WorstOf<T>(parts: seq<T>, failed: T -> bool): (r: Result)
    ensures r == R4XX || r == R5XX
  {
    if exists j :: 0 <= j < |parts| && failed(parts[j]) then R5XX else R4XX
  }

  lemma {:induction false} CountUpdate<T>(parts: seq<T>, reported: T -> bool, i: nat, p: T)
    requires i < |parts|
    ensures CountOf(parts[i := p], reported)
         == CountOf(parts, reported) + (if reported(p) then 1 else 0) - (if reported(parts[i]) then 1 else 0)
  {
    var n := |parts| - 1;
    if i < n {
      CountUpdate(parts[..n], reported, i, p);
      assert parts[i := p][..n] == parts[..n][i := p];
    } else {
      assert parts[i := p][..n] == parts[..n];
    }
  }

  lemma CountAppend<T>(parts: seq<T>, reported: T -> bool, p: T)
    ensures CountOf(parts + [p], reported) == CountOf(parts, reported) + if reported(p) then 1 else 0
  {
    assert (parts + [p])[..|parts|] == parts;
  }

  lemma {:induction false} CountedAll<T>(parts: seq<T>, reported: T -> bool)
    ensures CountOf(parts, reported) == |parts| <==> forall j | 0 <= j < |parts| :: reported(parts[j])
  {
    if parts != [] {
      var n := |parts| - 1;
      CountedAll(parts[..n], reported);
      if reported(parts[n]) && CountOf(parts[..n], reported) == n {
        assert forall j | 0 <= j < n :: reported(parts[..n][j]);
      }
      if j :| 0 <= j < n && !reported(parts[j]) {
        assert !reported(parts[..n][j]);
      }
    }
  }

  lemma {:induction false} CountedNone<T>(parts: seq<T>, reported: T -> bool)
    requires forall j | 0 <= j < |parts| :: !reported(parts[j])
    ensures CountOf(parts, reported) == 0
  {
    if parts != [] {
      CountedNone(parts[..|parts| - 1], reported);
    }
  }

  lemma WorstUpdate<T>(parts: seq<T>, failed: T -> bool, i: nat, p: T)
    requires i < |parts| && !failed(parts[i])
    ensures WorstOf(parts[i := p], failed) == if failed(p) then R5XX else WorstOf(parts, failed)
  {
    var after := parts[i := p];
    assert after[i] == p;
    if j :| 0 <= j < |parts| && failed(parts[j]) {
      assert failed(after[j]);
    }
    if j :| 0 <= j < |parts| && failed(after[j]) {
      assert j != i ==> failed(parts[j]);
    }
  }

  lemma WorstAppend<T>(parts: seq<T>, failed: T -> bool, p: T)
    requires !failed(p)
    ensures WorstOf(parts + [p], failed) == WorstOf(parts, failed)
  {
    var after := parts + [p];
    if j :| 0 <= j < |parts| && failed(parts[j]) {
      assert failed(after[j]);
    }
  }

  // ----- Why steps failed -----

  /** Some step that was taken, of some part, has failed. */
  ghost predicate SomeFailed(outcomes: seq<seq<bool>>) {
    exists k :: 0 <= k < |outcomes| && false in outcomes[k]
  }

  /** Some step that was taken, the m-th one of part k, was refused. */
  ghost predicate SomeRefused(outcomes: seq<seq<bool>>, refuses: (nat, nat) -> bool) {
    exists k: nat, m: nat :: k < |outcomes| && m < |outcomes[k]| && refuses(k, m)
  }

  /** Steps have failed for these reasons only: an erroneous answer, or a refusal. */
  ghost predicate Tally(outcomes: seq<seq<bool>>, refuses: (nat, nat) -> bool, erred: bool) {
    SomeFailed(outcomes) <==> erred || SomeRefused(outcomes, refuses)
  }

  lemma FailedRecords(outcomes: seq<seq<bool>>, k: nat, ok: bool)
    requires k < |outcomes|
    ensures SomeFailed(outcomes[k := outcomes[k] + [ok]]) <==> SomeFailed(outcomes) || !ok
  {
    var after := outcomes[k := outcomes[k] + [ok]];
    assert after[k][|outcomes[k]|] == ok;
    if j :| 0 <= j < |outcomes| && false in outcomes[j] {
      assert false in after[j];
    }
    if j :| 0 <= j < |outcomes| && false in after[j] {
      assert j != k || !ok ==> false in after[j];
    }
  }

  lemma RefusedRecords(outcomes: seq<seq<bool>>, refuses: (nat, nat) -> bool, k: nat, ok: bool)
    requires k < |outcomes|
    ensures SomeRefused(outcomes[k := outcomes[k] + [ok]], refuses)
       <==> SomeRefused(outcomes, refuses) || refuses(k, |outcomes[k]|)
  {
    var after := outcomes[k := outcomes[k] + [ok]];
    if j: nat, m: nat :| j < |outcomes| && m < |outcomes[j]| && refuses(j, m) {
      assert m < |after[j]| && refuses(j, m);
    }
    if refuses(k, |outcomes[k]|) {
      assert |outcomes[k]| < |after[k]|;
    }
    if j: nat, m: nat :| j < |after| && m < |after[j]| && refuses(j, m) {
      assert (j == k && m == |outcomes[k]|) || m < |outcomes[j]|;
    }
  }

  /** One more step of part k has been taken. */
  lemma TallyRecords(outcomes: seq<seq<bool>>, refuses: (nat, nat) -> bool, erred: bool, k: nat, ok: bool)
    requires k < |outcomes| && Tally(outcomes, refuses, erred)
    requires refuses(k, |outcomes[k]|) ==> !ok
    ensures Tally(outcomes[k := outcomes[k] + [ok]], refuses, erred || (!ok && !refuses(k, |outcomes[k]|)))
  {
    hide SomeFailed, SomeRefused;
    FailedRecords(outcomes, k, ok);
    RefusedRecords(outcomes, refuses, k, ok);
  }

  /** One more part begins. */
  lemma TallyOpens(outcomes: seq<seq<bool>>, refuses: (nat, nat) -> bool, erred: bool)
    requires Tally(outcomes, refuses, erred)
    ensures Tally(outcomes + [[]], refuses, erred)
  {
    var after := outcomes + [[]];
    if k :| 0 <= k < |outcomes| && false in outcomes[k] {
      assert false in after[k];
    }
    if k: nat, m: nat :| k < |outcomes| && m < |outcomes[k]| && refuses(k, m) {
      assert m < |after[k]| && refuses(k, m);
    }
  }
}
