/**
 * The data source manager's three policies, stated over the outcomes its
 * backends would give, in backend order (index 0 is the primary):
 *  - fail fast (getData, searchData): the first Success answers, Empty moves
 *    on, the first Failure aborts; exhaustion is "Resource not found";
 *  - tolerant (getItems): the first Success answers, Empty and Failure move
 *    on; exhaustion rejects with the last Failure, or "Resource not found";
 *  - primary only (putData, updateData, deleteItem): lives in the manager.
 * A Reply also counts the backends consulted, so that "no later backend is
 * invoked" can be stated.
 */
module Cascade {
  import opened Wrappers
  import opened Restify
  import opened DataSource

  datatype Reply = Reply(result: Settled, consulted: nat)

  predicate AllEmpty(outs: seq<Outcome>)
  {
    forall j :: 0 <= j < |outs| ==> outs[j].Empty?
  }

  predicate NoSuccess(outs: seq<Outcome>)
  {
    forall j :: 0 <= j < |outs| ==> !outs[j].Success?
  }

  /** The fail-fast cascade of getData and searchData. */
  function FailFast(outs: seq<Outcome>): (r: Reply)
    ensures r.consulted <= |outs| && (r.consulted == 0 <==> outs == [])
    ensures forall j :: 0 <= j < |outs| && j + 1 < r.consulted ==> outs[j].Empty?
    ensures 0 < r.consulted < |outs| ==> !outs[r.consulted - 1].Empty?
    ensures r.result.Resolved? ==> 0 < r.consulted && outs[r.consulted - 1] == Success(r.result.value)
    decreases |outs|
  {
    if outs == [] then Reply(Rejected(ResourceNotFound), 0)
    else if outs[0].Empty? then
      var rest := FailFast(outs[1..]);
      Reply(rest.result, rest.consulted + 1)
    else Reply(Settle(outs[0]), 1)
  }

  /** The tolerant cascade of getItems, carrying the last failure seen so far. */
  function TolerantFrom(outs: seq<Outcome>, last: Option<Error>): (r: Reply)
    ensures r.consulted <= |outs| && (r.consulted == 0 <==> outs == [])
    ensures forall j :: 0 <= j < |outs| && j + 1 < r.consulted ==> !outs[j].Success?
    ensures 0 < r.consulted < |outs| ==> outs[r.consulted - 1].Success?
    ensures r.result.Resolved? ==> 0 < r.consulted && outs[r.consulted - 1] == Success(r.result.value)
    decreases |outs|
  {
    if outs == [] then Reply(Rejected(if last.Some? then last.value else ResourceNotFound), 0)
    else
      match outs[0]
      case Success(v) => Reply(Resolved(v), 1)
      case Empty =>
        var rest := TolerantFrom(outs[1..], last);
        Reply(rest.result, rest.consulted + 1)
      case Failure(e) =>
        var rest := TolerantFrom(outs[1..], Some(e));
        Reply(rest.result, rest.consulted + 1)
  }

  /** One step of the tolerant scan, taken at position `i`. */
  lemma TolerantFromStep(outs: seq<Outcome>, i: nat, last: Option<Error>)
    requires i < |outs|
    ensures TolerantFrom(outs[i..], last)
         == match outs[i]
            case Success(v) => Reply(Resolved(v), 1)
            case Empty =>
              var rest := TolerantFrom(outs[i + 1..], last);
              Reply(rest.result, rest.consulted + 1)
            case Failure(e) =>
              var rest := TolerantFrom(outs[i + 1..], Some(e));
              Reply(rest.result, rest.consulted + 1)
  {
    assert outs[i..][1..] == outs[i + 1..];
  }

  /** The getItems policy: a tolerant scan that starts with no failure seen. */
  function Tolerant(outs: seq<Outcome>): (r: Reply)
    ensures r.consulted <= |outs| && (r.consulted == 0 <==> outs == [])
    ensures forall j :: 0 <= j < |outs| && j + 1 < r.consulted ==> !outs[j].Success?
    ensures r.result.Resolved? ==> 0 < r.consulted && outs[r.consulted - 1] == Success(r.result.value)
  {
    TolerantFrom(outs, None)
  }

  /** The error of the last Failure in `outs`, scanning from the back. */
  function LastFailure(outs: seq<Outcome>): (r: Option<Error>)
    ensures r.None? <==> forall j :: 0 <= j < |outs| ==> !outs[j].Failure?
  {
    if outs == [] then None
    else if outs[|outs| - 1].Failure? then Some(outs[|outs| - 1].error)
    else
      var front := outs[..|outs| - 1];
      assert forall j :: 0 <= j < |front| ==> front[j] == outs[j];
      LastFailure(front)
  }

  /** The error LastFailure reports is that of a Failure after which no backend fails. */
  lemma {:induction false} LastFailureIsLast(outs: seq<Outcome>)
    requires LastFailure(outs).Some?
    ensures exists k :: 0 <= k < |outs| && outs[k] == Failure(LastFailure(outs).value)
                     && forall j :: k < j < |outs| ==> !outs[j].Failure?
  {
    var n := |outs| - 1;
    if outs[n].Failure? {
      assert outs[n] == Failure(LastFailure(outs).value);
    } else {
      var front := outs[..n];
      LastFailureIsLast(front);
      var k :| 0 <= k < |front| && front[k] == Failure(LastFailure(front).value)
             && forall j :: k < j < |front| ==> !front[j].Failure?;
      assert outs[k] == front[k];
      assert forall j :: k < j < |outs| ==> !outs[j].Failure? by {
        forall j | k < j < |outs| ensures !outs[j].Failure? {
          if j < n { assert outs[j] == front[j]; }
        }
      }
    }
  }

  // ---------------------------------------------------------------------
  // Fail fast

  /**
   * The reply of the fail-fast cascade is decided by the first non-Empty
   * outcome: its value or error, with exactly the backends up to it
   * consulted; with none, "Resource not found" after consulting them all.
   */
  lemma {:induction false} FailFastFirstNonEmpty(outs: seq<Outcome>, i: nat)
    requires i <= |outs|
    requires forall j :: 0 <= j < i ==> outs[j].Empty?
    requires i < |outs| ==> !outs[i].Empty?
    ensures FailFast(outs) == if i == |outs| then Reply(Rejected(ResourceNotFound), |outs|) else Reply(Settle(outs[i]), i + 1)
    decreases i
  {
    if i > 0 {
      FailFastFirstNonEmpty(outs[1..], i - 1);
    }
  }

  /** Any number of leading Empty backends are skipped (and counted). */
  lemma {:induction false} FailFastSkipsEmpty(prefix: seq<Outcome>, rest: seq<Outcome>)
    requires AllEmpty(prefix)
    ensures FailFast(prefix + rest) == Reply(FailFast(rest).result, |prefix| + FailFast(rest).consulted)
    decreases |prefix|
  {
    if prefix != [] {
      assert (prefix + rest)[0] == prefix[0];
      assert (prefix + rest)[1..] == prefix[1..] + rest;
      assert AllEmpty(prefix[1..]) by {
        forall j | 0 <= j < |prefix[1..]| ensures prefix[1..][j].Empty? {
          assert prefix[1..][j] == prefix[j + 1];
        }
      }
      FailFastSkipsEmpty(prefix[1..], rest);
    } else {
      assert prefix + rest == rest;
    }
  }

  /** A failure is never masked by a later backend, whatever the later ones hold. */
  lemma {:induction false} FailFastStopsAtFailure(prefix: seq<Outcome>, e: Error, rest: seq<Outcome>)
    requires AllEmpty(prefix)
    ensures FailFast(prefix + [Failure(e)] + rest) == Reply(Rejected(e), |prefix| + 1)
  {
    var outs := prefix + [Failure(e)] + rest;
    assert outs[..|prefix|] == prefix;
    FailFastFirstNonEmpty(outs, |prefix|);
  }

  /** "Resource not found" exactly when every backend is Empty. */
  lemma {:induction false} FailFastNotFoundIffAllEmpty(outs: seq<Outcome>)
    requires forall j :: 0 <= j < |outs| ==> outs[j] != Failure(ResourceNotFound)
    ensures FailFast(outs).result == Rejected(ResourceNotFound) <==> AllEmpty(outs)
  {
    if AllEmpty(outs) {
      assert outs[..|outs|] == outs;
      FailFastFirstNonEmpty(outs, |outs|);
    } else {
      var r := FailFast(outs);
      var i := r.consulted - 1;
      assert 0 <= i < |outs| && !outs[i].Empty?;
      FailFastFirstNonEmpty(outs, i);
    }
  }

  /**
   * Once a backend has answered, the backends after it play no part: any
   * other continuation gives the same reply.
   */
  lemma {:induction false} FailFastIgnoresLater(outs: seq<Outcome>, later: seq<Outcome>)
    requires !AllEmpty(outs)
    ensures FailFast(outs[..FailFast(outs).consulted] + later) == FailFast(outs)
  {
    var r := FailFast(outs);
    var i := r.consulted - 1;
    assert 0 <= i < |outs| && !outs[i].Empty?;
    FailFastFirstNonEmpty(outs, i);
    var outs' := outs[..r.consulted] + later;
    assert outs'[..i] == outs[..i];
    assert outs'[i] == outs[i];
    FailFastFirstNonEmpty(outs', i);
  }

  // ---------------------------------------------------------------------
  // Tolerant

  /** The first Success answers, whatever Empty and Failure outcomes come before it. */
  lemma {:induction false} TolerantFirstSuccess(outs: seq<Outcome>, i: nat, last: Option<Error>)
    requires i < |outs| && outs[i].Success?
    requires forall j :: 0 <= j < i ==> !outs[j].Success?
    ensures TolerantFrom(outs, last) == Reply(Resolved(outs[i].value), i + 1)
    decreases i
  {
    if i > 0 {
      TolerantFirstSuccess(outs[1..], i - 1, None);
      TolerantFirstSuccess(outs[1..], i - 1, last);
      if outs[0].Failure? {
        TolerantFirstSuccess(outs[1..], i - 1, Some(outs[0].error));
      }
    }
  }

  /** The failure carried into the remaining scan is the last failure of the scanned prefix. */
  lemma {:induction false} TolerantExhaustedFrom(done: seq<Outcome>, todo: seq<Outcome>)
    requires NoSuccess(todo)
    ensures TolerantFrom(todo, LastFailure(done))
         == Reply(Rejected(var f := LastFailure(done + todo); if f.Some? then f.value else ResourceNotFound), |todo|)
    decreases |todo|
  {
    if todo == [] {
      assert done + todo == done;
    } else {
      var done' := done + [todo[0]];
      assert done' + todo[1..] == done + todo;
      assert done'[..|done'| - 1] == done;
      assert todo[0] == todo[..1][0];
      TolerantExhaustedFrom(done', todo[1..]);
    }
  }

  /**
   * With no Success anywhere, every backend is consulted and the reply is the
   * last failure, or "Resource not found" when no backend failed.
   */
  lemma {:induction false} TolerantExhausted(outs: seq<Outcome>)
    requires NoSuccess(outs)
    ensures Tolerant(outs)
         == Reply(Rejected(var f := LastFailure(outs); if f.Some? then f.value else ResourceNotFound), |outs|)
  {
    TolerantExhaustedFrom([], outs);
    assert [] + outs == outs;
  }

  /** Once a backend has answered with a Success, the backends after it play no part. */
  lemma {:induction false} TolerantIgnoresLater(outs: seq<Outcome>, later: seq<Outcome>)
    requires Tolerant(outs).result.Resolved?
    ensures Tolerant(outs[..Tolerant(outs).consulted] + later) == Tolerant(outs)
  {
    var r := Tolerant(outs);
    var i := r.consulted - 1;
    TolerantFirstSuccess(outs, i, None);
    var outs' := outs[..r.consulted] + later;
    assert outs'[..i] == outs[..i];
    assert outs'[i] == outs[i];
    TolerantFirstSuccess(outs', i, None);
  }
}
