/** Chains of workflow checkpoints. */
module Checkpoints {
  import opened Common

  /** `identity` joins tenant, case, revision and workflow.  The shape of a single checkpoint is
      taken as valid. */
  datatype Checkpoint = Checkpoint(identity: string, id: string, sequence: int, previous: Option<string>,
                                   version: int, pending: set<string>, completed: set<string>)

  datatype Verdict = Valid | ChainEmpty | IdentityMismatch | NotMonotonic | PredecessorMismatch | IdDuplicate
                   | EffectOverlap | EffectRegressed | VersionNotMonotonic

  /** What each checkpoint must be where it stands, given all before it. */
  predicate Fits(chain: seq<Checkpoint>, i: nat)
    requires i < |chain|
  {
    var c := chain[i];
    && c.sequence == i + 1 && (forall e :: e in c.pending ==> e !in c.completed)
    && (forall j :: 0 <= j < i ==> chain[j].id != c.id)
    && if i == 0 then c.previous == None
       else var p := chain[i - 1];
            c.previous == Some(p.id) && c.identity == p.identity && p.completed <= c.completed && p.version < c.version
  }

  predicate Accepted(chain: seq<Checkpoint>) {
    chain != [] && forall i :: 0 <= i < |chain| ==> Fits(chain, i)
  }

  /** The checks of a checkpoint, in the order in which a failure is reported. */
  const CHECKS: seq<Verdict> := [IdentityMismatch, NotMonotonic, PredecessorMismatch, IdDuplicate, EffectOverlap,
                                 EffectRegressed, VersionNotMonotonic]

  /** What each failure says of a checkpoint. */
  ghost predicate Shows(verdict: Verdict, chain: seq<Checkpoint>, i: nat)
    requires i < |chain|
  {
    match verdict
    case IdentityMismatch => i > 0 && chain[i].identity != chain[i - 1].identity
    case NotMonotonic => chain[i].sequence != i + 1
    case PredecessorMismatch =>
      if i == 0 then chain[i].previous.Some? else chain[i].previous != Some(chain[i - 1].id)
    case IdDuplicate => exists j :: 0 <= j < i && chain[j].id == chain[i].id
    case EffectOverlap => exists e :: e in chain[i].pending && e in chain[i].completed
    case EffectRegressed => i > 0 && exists e :: e in chain[i - 1].completed && e !in chain[i].completed
    case VersionNotMonotonic => i > 0 && chain[i].version <= chain[i - 1].version
    case _ => false
  }

  /** A checkpoint fits exactly when none of the checks fails of it. */
  lemma FitsMeans(chain: seq<Checkpoint>, i: nat)
    requires i < |chain|
    ensures Fits(chain, i) <==> forall n :: 0 <= n < |CHECKS| ==> !Shows(CHECKS[n], chain, i)
  {
    assert CHECKS[0] == IdentityMismatch && CHECKS[1] == NotMonotonic && CHECKS[2] == PredecessorMismatch;
    assert CHECKS[3] == IdDuplicate && CHECKS[4] == EffectOverlap && CHECKS[5] == EffectRegressed;
    assert CHECKS[6] == VersionNotMonotonic;
  }

  /** The first checkpoint that does not fit, reported by the first check that fails of it. */
  ghost predicate FirstFailure(verdict: Verdict, chain: seq<Checkpoint>, i: nat, n: nat)
    requires i < |chain| && n < |CHECKS|
  {
    && (forall j :: 0 <= j < i ==> Fits(chain, j)) && verdict == CHECKS[n] && Shows(verdict, chain, i)
    && forall m :: 0 <= m < n ==> !Shows(CHECKS[m], chain, i)
  }

  method ValidateCheckpointSequence(chain: seq<Checkpoint>) returns (verdict: Verdict, ghost at: nat, ghost check: nat)
    ensures verdict.Valid? <==> Accepted(chain)
    ensures verdict.ChainEmpty? <==> chain == []
    ensures !verdict.Valid? && !verdict.ChainEmpty? ==>
              at < |chain| && check < |CHECKS| && FirstFailure(verdict, chain, at, check)
  {
    at, check := 0, 0;
    if chain == [] {
      return ChainEmpty, at, check;
    }
    var expected, previous: Option<string>, identity: Option<string>, version: Option<int> := 1, None, None, None;
    var completed: set<string>, ids: set<string> := {}, {};
    for i := 0 to |chain|
      invariant forall j :: 0 <= j < i ==> Fits(chain, j)
      invariant expected == i + 1
      invariant previous == if i == 0 then None else Some(chain[i - 1].id)
      invariant identity == if i == 0 then None else Some(chain[i - 1].identity)
      invariant version == if i == 0 then None else Some(chain[i - 1].version)
      invariant completed == if i == 0 then {} else chain[i - 1].completed
      invariant ids == set j | 0 <= j < i :: chain[j].id
    {
      var c := chain[i];
      at := i;
      FitsMeans(chain, i);
      if identity.Some? && identity.value != c.identity {
        return IdentityMismatch, at, 0;
      }
      if c.sequence != expected {
        return NotMonotonic, at, 1;
      }
      if c.previous != previous {
        return PredecessorMismatch, at, 2;
      }
      if c.id in ids {
        return IdDuplicate, at, 3;
      }
      assert forall j :: 0 <= j < i ==> chain[j].id in ids;
      if exists e :: e in c.pending && e in c.completed {
        return EffectOverlap, at, 4;
      }
      if exists e :: e in completed && e !in c.completed {
        return EffectRegressed, at, 5;
      }
      if version.Some? && c.version <= version.value {
        return VersionNotMonotonic, at, 6;
      }
      assert Fits(chain, i);
      identity, previous, version := Some(c.identity), Some(c.id), Some(c.version);
      ids, completed, expected := ids + {c.id}, c.completed, expected + 1;
    }
    return Valid, at, check;
  }

  // ---- What neighbours keep, the chain keeps ------------------------------------------------------

  /** Versions grow at least as fast as the chain, and completed effects stay completed. */
  lemma {:induction false} ChainGrows(chain: seq<Checkpoint>, i: nat, j: nat)
    requires Accepted(chain) && i <= j < |chain|
    ensures chain[j].version - chain[i].version >= j - i
    ensures chain[i].completed <= chain[j].completed && chain[i].identity == chain[j].identity
  {
    if i < j {
      ChainGrows(chain, i, j - 1);
      assert Fits(chain, j);
    }
  }

  /** The predecessor links name the neighbour, and no other checkpoint of the chain: followed
      from the last they lead through all of it, back to the one that has none. */
  lemma LinksTellOrder(chain: seq<Checkpoint>, i: nat, j: nat)
    requires Accepted(chain) && i < |chain| && j < |chain|
    ensures chain[i].previous == Some(chain[j].id) <==> i == j + 1
    ensures chain[i].previous == None <==> i == 0
    ensures chain[i].id == chain[j].id <==> i == j
  {
    assert Fits(chain, i) && Fits(chain, j);
    if i > 0 {
      assert Fits(chain, i - 1);
    }
  }

  /** A completed effect is never pending again. */
  lemma CompletedNeverPending(chain: seq<Checkpoint>, i: nat, j: nat, effect: string)
    requires Accepted(chain) && i <= j < |chain| && effect in chain[i].completed
    ensures effect !in chain[j].pending
  {
    ChainGrows(chain, i, j);
    assert Fits(chain, j);
  }

  /** A chain is accepted exactly when its front is and its last checkpoint fits it. */
  lemma ExtendsByOne(front: seq<Checkpoint>, last: Checkpoint)
    requires front != []
    ensures Accepted(front + [last]) <==> Accepted(front) && Fits(front + [last], |front|)
  {
    var chain := front + [last];
    assert forall i :: 0 <= i < |front| ==> chain[i] == front[i];
    if Accepted(chain) {
      forall i | 0 <= i < |front|
        ensures Fits(front, i)
      {
        assert Fits(chain, i);
      }
    }
    if Accepted(front) && Fits(chain, |front|) {
      forall i | 0 <= i < |chain|
        ensures Fits(chain, i)
      {
        assert i < |front| ==> Fits(front, i);
      }
    }
  }

  lemma {:induction false} PrefixesAccepted(chain: seq<Checkpoint>, n: nat)
    requires Accepted(chain) && 0 < n <= |chain|
    ensures Accepted(chain[..n])
  {
    if n < |chain| {
      var front := chain[..|chain| - 1];
      assert chain == front + [chain[|chain| - 1]];
      ExtendsByOne(front, chain[|chain| - 1]);
      PrefixesAccepted(front, n);
      assert front[..n] == chain[..n];
    } else {
      assert chain[..n] == chain;
    }
  }

  /** Of all the orders of the same checkpoints at most one is accepted. */
  lemma OneOrderOnly(chain: seq<Checkpoint>, other: seq<Checkpoint>)
    requires Accepted(chain) && Accepted(other) && multiset(chain) == multiset(other)
    ensures other == chain
  {
    assert |multiset(chain)| == |chain| && |multiset(other)| == |other|;
    forall i | 0 <= i < |other|
      ensures other[i] == chain[i]
    {
      assert other[i] in multiset(other) && other[i] in multiset(chain);
      var j :| 0 <= j < |chain| && chain[j] == other[i];
      assert Fits(chain, j) && Fits(other, i);
    }
  }
}
