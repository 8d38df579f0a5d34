/** A live attempt from its start to its recovery, wherever its process died. */
module LiveSessions {
  import opened Common
  import opened LiveTables
  import opened LiveStore
  import opened LiveBudget
  import opened LiveEvidence
  import opened LiveRuntime

  /** The calls made: each for its own invocation with a durable intent, in time, within the
      limits, and n calls for one turn only if the retries allow 0 + 1 + ... + (n - 1). */
  ghost predicate CalledOnce(db: Database, profile: Profile, contacts: seq<Contact>) {
    && (forall i, j :: 0 <= i < j < |contacts| ==> contacts[i].invocation != contacts[j].invocation)
    && (forall i :: 0 <= i < |contacts| ==> contacts[i].invocation in db.intents)
    && Admitted(db.intents, profile, contacts, 0)
    && |contacts| <= profile.callLimit && |contacts| <= profile.actionLimit + profile.retryLimit
    && (forall i :: 0 <= i < |contacts| ==>
          var n := NthOfTurn(contacts[i].invocation); n * (n - 1) <= 2 * profile.retryLimit)
  }

  lemma IntactCalls(db: Database, attempt: Id, phase: Phase, profile: Profile, contacts: seq<Contact>, from: nat)
    requires Evident(db, attempt, phase) && Bounded(CallsOf(db, attempt), profile)
    requires Contacted(contacts, from, CallsOf(db, attempt), phase) && Admitted(db.intents, profile, contacts, from)
    ensures from <= |contacts| && CalledOnce(db, profile, contacts[from..])
  {
    hide EventsOf, BooksOf, InOrder, Sound, ItsIntents, ItsObservations, HasOutcome, Effective, Used, PostingOf;
    var b, made := BooksAt(db, attempt), contacts[from..];
    DistinctCalls(db, attempt);
    forall i | 0 <= i < |made|
      ensures made[i].invocation == b.order[i] && made[i].invocation in db.intents
      ensures var n := NthOfTurn(made[i].invocation); n * (n - 1) <= 2 * profile.retryLimit
    {
      assert contacts[from + i].invocation == b.order[i];
      TriangleIs(NthOfTurn(b.order[i]));
      assert i < Done(b, phase) ==> Accounted(db.intents, db.observations, b, b.order[i]);
    }
  }

  /** An attempt that was refused its first row leaves nothing. */
  lemma NothingBegun(db: Database, attempt: Id, profile: Profile)
    requires Untouched(db, attempt)
    ensures AttemptEvents(db, attempt) == [] && forall k :: !Dangling(db, attempt, k)
    ensures Within(profile, CountersOf(AttemptEvents(db, attempt)))
    ensures Repeats([]) <= RepeatLimit(profile) && Admitted(db.intents, profile, [], 0)
  {
    NothingIsWithin(profile);
  }

  /** A call dangles exactly while the provider may have been contacted without an outcome. */
  lemma DanglingMeansContact(db: Database, attempt: Id, phase: Phase)
    requires Evident(db, attempt, phase)
    ensures (exists k :: Dangling(db, attempt, k)) <==> phase.Contacting?
    ensures forall j, k :: Dangling(db, attempt, j) && Dangling(db, attempt, k) ==> j == k
    ensures phase.Clear? ==>
              CountersOf(AttemptEvents(db, attempt)).sum == Sum(AllUsed(db.observations, CallsOf(db, attempt)))
  {
    hide Evident, Dangling, CountersOf, EventsOf, BooksOf, Sum, AllUsed;
    EvidentMeans(db, attempt, phase);
    forall k
      ensures Dangling(db, attempt, k)
              <==> phase.Contacting? && k == CallsOf(db, attempt)[|CallsOf(db, attempt)| - 1]
    {
      OnlyTheLatestDangles(db, attempt, phase, k);
    }
    if phase.Contacting? {
      assert Dangling(db, attempt, CallsOf(db, attempt)[|CallsOf(db, attempt)| - 1]);
    }
    if phase.Clear? {
      BudgetAgrees(db, attempt);
    }
  }

  /** What one recovery, wherever it is stopped, does to the evidence of an attempt. */
  lemma Recovered(before: Database, after: Database, attempt: Id, phase: Phase, observedAt: string, r: Recovery)
    requires Evident(before, attempt, phase) && Recovers(before, attempt, observedAt, after, r)
    ensures AttemptEvents(after, attempt) == AttemptEvents(before, attempt) && !r.RecoveryFailed?
    ensures !phase.Contacting? ==> after == before && Answers(before, attempt, r)
    ensures phase.Contacting? && r == Interrupted(0) ==> after == before
    ensures phase.Contacting? && r != Interrupted(0) ==>
              && Writes(r) && Evident(after, attempt, Clear) && attempt in after.attempts
              && after.attempts[attempt].closing
                 == if r == Interrupted(1) then None else Some(UnknownClosing(observedAt))
  {
    hide Evident, EventsOf, BooksOf, Observed, ClosesUnknown, Reuses, CountersOf, Sum, AllUsed;
    DanglingMeansContact(before, attempt, phase);
    if exists k :: FirstDangling(before, attempt, k) && ClosesUnknown(before, attempt, k, observedAt, after, r) {
      var k :| FirstDangling(before, attempt, k) && ClosesUnknown(before, attempt, k, observedAt, after, r);
      RecoveryDrains(before, after, attempt, phase, k, observedAt, r);
      EvidentMeans(after, attempt, Clear);
    }
  }

  /** They are the recorded observations of the attempt's calls in its first n turns, and in
      turns that had their action before. */
  ghost predicate OfActedTurns(db: Database, attempt: Id, before: map<Id, Turn>, n: nat,
                               observations: seq<Observation>) {
    forall o :: o in observations <==>
      && Recorded(db, o) && o.invocation in CallsOf(db, attempt) && CallOf(attempt, o.invocation)
      && var k := o.invocation.turnId; 1 <= k.turn <= n || (k in before && before[k].action.Some?)
  }

  lemma ReusedAreActed(db: Database, attempt: Id, phase: Phase, before: map<Id, Turn>, n: nat,
                       observations: seq<Observation>)
    requires Evident(db, attempt, phase) && Signed(before, db.turns, attempt, n)
    requires Reuses(db, attempt, observations)
    ensures OfActedTurns(db, attempt, before, n, observations)
  {
    hide Evident, EventsOf, BooksOf, Signed, Recorded, HasActed, TurnIndexOf;
    forall o | Recorded(db, o)
      ensures HasActed(db, attempt, o.invocation)
              <==> o.invocation in CallsOf(db, attempt) && CallOf(attempt, o.invocation)
                   && var k := o.invocation.turnId; 1 <= k.turn <= n || (k in before && before[k].action.Some?)
    {
      ActedCall(db, attempt, phase, before, n, o);
    }
  }

  lemma ActedCall(db: Database, attempt: Id, phase: Phase, before: map<Id, Turn>, n: nat, o: Observation)
    requires Evident(db, attempt, phase) && Signed(before, db.turns, attempt, n) && Recorded(db, o)
    ensures HasActed(db, attempt, o.invocation)
            <==> o.invocation in CallsOf(db, attempt) && CallOf(attempt, o.invocation)
                 && var k := o.invocation.turnId; 1 <= k.turn <= n || (k in before && before[k].action.Some?)
  {
    hide EventsOf, BooksOf, InOrder, Effective, PostingOf, Used, HasOutcome, ArtifactsSound, BindingsSound,
         EventsSound, AttemptsSound, ItsObservations;
    var id := o.invocation;
    assert id in db.intents;
    if id in CallsOf(db, attempt) {
      assert Intended(db.intents, BooksAt(db, attempt), id);
      TurnsOfCalls(db, attempt, phase, id);
    }
  }

  lemma AllReusedAreActed(db: Database, attempt: Id, phase: Phase, before: map<Id, Turn>, n: nat,
                          recoveries: seq<Recovery>, now: Database)
    requires Evident(db, attempt, phase) && Signed(before, db.turns, attempt, n)
    requires OthersRecovered(db, now, attempt, recoveries)
    ensures forall i :: 0 <= i < |recoveries| && recoveries[i].ReuseObserved? ==>
              OfActedTurns(db, attempt, before, n, recoveries[i].observations)
  {
    hide Evident, Signed, Reuses, OfActedTurns;
    forall i | 0 <= i < |recoveries| && recoveries[i].ReuseObserved?
      ensures OfActedTurns(db, attempt, before, n, recoveries[i].observations)
    {
      assert Answers(db, attempt, recoveries[i]);
      ReusedAreActed(db, attempt, phase, before, n, recoveries[i].observations);
    }
  }

  lemma NothingReused(db: Database, attempt: Id, before: map<Id, Turn>, recoveries: seq<Recovery>, now: Database)
    requires Untouched(db, attempt) && OthersRecovered(db, now, attempt, recoveries)
    ensures forall i :: 0 <= i < |recoveries| && recoveries[i].ReuseObserved? ==>
              OfActedTurns(db, attempt, before, 0, recoveries[i].observations)
  {
    hide Recorded, TurnIndexOf;
    forall i | 0 <= i < |recoveries| && recoveries[i].ReuseObserved?
      ensures OfActedTurns(db, attempt, before, 0, recoveries[i].observations)
    {
      assert Answers(db, attempt, recoveries[i]);
      assert CallsOf(db, attempt) == [];
    }
  }

  // ---- Any number of recoveries -------------------------------------------------------------

  /** A recovery that finds nothing to close. */
  ghost predicate Answers(db: Database, attempt: Id, r: Recovery) {
    r == Interrupted(0) || (r.ReuseObserved? && Reuses(db, attempt, r.observations))
  }

  predicate Writes(r: Recovery) {
    r.ClosedUnknown? || (r.Interrupted? && r.writes > 0)
  }

  /** Only the n-th of the recoveries writes, and those before it were stopped at once. */
  predicate OnlyWrites(recoveries: seq<Recovery>, n: nat) {
    && n < |recoveries| && Writes(recoveries[n])
    && (forall i :: 0 <= i < n ==> recoveries[i] == Interrupted(0))
    && (forall i :: n < i < |recoveries| ==> recoveries[i] == Interrupted(0) || recoveries[i].ReuseObserved?)
  }

  /** What recoveries make of an attempt left in contact with the provider: no more than one of
      them writes, and the attempt is closed unless that one was stopped between its writes. */
  ghost predicate ContactRecovered(left: Database, now: Database, attempt: Id, recoveries: seq<Recovery>) {
    if forall i :: 0 <= i < |recoveries| ==> recoveries[i] == Interrupted(0) then now == left
    else
      && (exists n: nat :: OnlyWrites(recoveries, n))
      && (forall k :: !Dangling(now, attempt, k))
      && CountersOf(AttemptEvents(now, attempt)).sum == Sum(AllUsed(now.observations, CallsOf(now, attempt)))
      && attempt in now.attempts
      && (now.attempts[attempt].closing.Some? <==> Interrupted(1) !in recoveries)
  }

  /** And of any other: they change nothing, and return what may be reused. */
  ghost predicate OthersRecovered(left: Database, now: Database, attempt: Id, recoveries: seq<Recovery>) {
    now == left && forall i :: 0 <= i < |recoveries| ==> Answers(left, attempt, recoveries[i])
  }

  lemma OthersRecoveredAgain(left: Database, now: Database, next: Database, attempt: Id,
                             recoveries: seq<Recovery>, observedAt: string, r: Recovery)
    requires OthersRecovered(left, now, attempt, recoveries) && Recovers(now, attempt, observedAt, next, r)
    requires forall k :: !Dangling(left, attempt, k)
    ensures OthersRecovered(left, next, attempt, recoveries + [r]) && next == now && !r.RecoveryFailed?
  {
    hide Dangling, ClosesUnknown, Reuses;
  }

  lemma ContactRecoveredAgain(left: Database, now: Database, next: Database, attempt: Id,
                              recoveries: seq<Recovery>, observedAt: string, r: Recovery)
    requires Evident(left, attempt, Contacting) && ContactRecovered(left, now, attempt, recoveries)
    requires Evident(now, attempt, Contacting) || Evident(now, attempt, Clear)
    requires Recovers(now, attempt, observedAt, next, r)
    ensures ContactRecovered(left, next, attempt, recoveries + [r]) && !r.RecoveryFailed?
    ensures Evident(next, attempt, Contacting) || Evident(next, attempt, Clear)
    ensures AttemptEvents(next, attempt) == AttemptEvents(now, attempt)
  {
    hide Evident, EventsOf, BooksOf, CountersOf, Recovers, Reuses, Dangling, Sum, AllUsed;
    if forall i :: 0 <= i < |recoveries| ==> recoveries[i] == Interrupted(0) {
      Recovered(left, next, attempt, Contacting, observedAt, r);
      if r != Interrupted(0) {
        assert OnlyWrites(recoveries + [r], |recoveries|);
        BudgetAgrees(next, attempt);
        NoneLeft(next, attempt);
        assert (recoveries + [r])[|recoveries|] == r;
      }
    } else {
      var n: nat :| OnlyWrites(recoveries, n);
      Drained(now, attempt);
      Recovered(now, next, attempt, Clear, observedAt, r);
      assert OnlyWrites(recoveries + [r], n);
      assert (recoveries + [r])[n] == recoveries[n];
    }
  }

  lemma NoneLeft(db: Database, attempt: Id)
    requires Evident(db, attempt, Clear)
    ensures forall k :: !Dangling(db, attempt, k)
  {
    hide Evident, Dangling;
    forall k
      ensures !Dangling(db, attempt, k)
    {
      OnlyTheLatestDangles(db, attempt, Clear, k);
    }
  }

  /** Without a dangling call the latest one is not in contact. */
  lemma Drained(db: Database, attempt: Id)
    requires Evident(db, attempt, Contacting) || Evident(db, attempt, Clear)
    requires forall k :: !Dangling(db, attempt, k)
    ensures Evident(db, attempt, Clear)
  {
    hide Evident, Dangling;
    if Evident(db, attempt, Contacting) {
      EvidentMeans(db, attempt, Contacting);
      OnlyTheLatestDangles(db, attempt, Contacting, CallsOf(db, attempt)[|CallsOf(db, attempt)| - 1]);
      assert false;
    }
  }

  /** Recoveries of an attempt that was left in contact with the provider, or with no such call. */
  method RecoverRepeatedly(store: LiveEvaluationStore, attempt: Id, times: seq<string>, ghost contact: bool)
    returns (recoveries: seq<Recovery>)
    requires contact ==> Evident(store.db, attempt, Contacting)
    requires !contact ==> forall k :: !Dangling(store.db, attempt, k)
    modifies store
    ensures |recoveries| == |times| && forall i :: 0 <= i < |recoveries| ==> !recoveries[i].RecoveryFailed?
    ensures AttemptEvents(store.db, attempt) == AttemptEvents(old(store.db), attempt)
    ensures if contact then ContactRecovered(old(store.db), store.db, attempt, recoveries)
            else OthersRecovered(old(store.db), store.db, attempt, recoveries)
  {
    hide Evident, EventsOf, Dangling, Recovers, ContactRecovered, OthersRecovered;
    ghost var left := store.db;
    recoveries := [];
    NoneRecovered(left, attempt);
    for i := 0 to |times|
      invariant |recoveries| == i && forall j :: 0 <= j < i ==> !recoveries[j].RecoveryFailed?
      invariant AttemptEvents(store.db, attempt) == AttemptEvents(left, attempt)
      invariant contact ==>
                  && ContactRecovered(left, store.db, attempt, recoveries)
                  && (Evident(store.db, attempt, Contacting) || Evident(store.db, attempt, Clear))
      invariant !contact ==> OthersRecovered(left, store.db, attempt, recoveries)
    {
      ghost var before := store.db;
      var r := store.RecoverAttempt(attempt, times[i]);
      if contact {
        ContactRecoveredAgain(left, before, store.db, attempt, recoveries, times[i], r);
      } else {
        OthersRecoveredAgain(left, before, store.db, attempt, recoveries, times[i], r);
      }
      recoveries := recoveries + [r];
    }
  }

  lemma NoneRecovered(left: Database, attempt: Id)
    ensures ContactRecovered(left, left, attempt, []) && OthersRecovered(left, left, attempt, [])
  {
    hide Dangling, EventsOf;
  }

  /** One attempt, stopped anywhere, and any number of recoveries after it, each stopped
      anywhere.  `left` is what the attempt left in the store. */
  method RunThenRecover(runtime: LiveRuntime, times: seq<string>)
    returns (out: Outcome, recoveries: seq<Recovery>, ghost left: Database, ghost handed: nat)
    requires runtime.Wired() && Sound(runtime.store.db) && Untouched(runtime.store.db, runtime.attempt)
    modifies runtime, runtime.store, runtime.provider
    ensures |old(runtime.provider.contacts)| <= |runtime.provider.contacts|
    ensures CalledOnce(left, runtime.cfg.profile,
                       runtime.provider.contacts[|old(runtime.provider.contacts)|..])
    ensures out != Raised(ActionBudgetExceeded)
    ensures Within(runtime.cfg.profile, CountersOf(AttemptEvents(left, runtime.attempt)))
            || (out in {Raised(UsageOverran), Crashed} && Outrun(left, runtime.attempt))
    ensures Repeats(runtime.recorded) <= RepeatLimit(runtime.cfg.profile)
    // At most one call is left without an outcome, and none when the attempt was closed.
    ensures forall j, k :: Dangling(left, runtime.attempt, j) && Dangling(left, runtime.attempt, k) ==> j == k
    ensures out.Closed? ==>
              && (forall k :: !Dangling(left, runtime.attempt, k))
              && Listed(runtime.observationIds, CallsOf(left, runtime.attempt), Clear)
              && CountersOf(AttemptEvents(left, runtime.attempt)).sum
                 == Sum(AllUsed(left.observations, CallsOf(left, runtime.attempt)))
    // Recovery never fails, and leaves the budget alone.
    ensures |recoveries| == |times| && forall i :: 0 <= i < |recoveries| ==> !recoveries[i].RecoveryFailed?
    ensures AttemptEvents(runtime.store.db, runtime.attempt) == AttemptEvents(left, runtime.attempt)
    ensures if exists k :: Dangling(left, runtime.attempt, k)
            then ContactRecovered(left, runtime.store.db, runtime.attempt, recoveries)
            else OthersRecovered(left, runtime.store.db, runtime.attempt, recoveries)
    // What it returns for reuse is what was observed in the turns whose action was recorded.
    ensures |runtime.recorded| <= handed <= |runtime.recorded| + 1
    ensures (forall k :: !Dangling(left, runtime.attempt, k)) ==>
              forall i :: 0 <= i < |recoveries| && recoveries[i].ReuseObserved? ==>
                OfActedTurns(left, runtime.attempt, old(runtime.store.db.turns), handed, recoveries[i].observations)
  {
    hide OfActedTurns, Admitted, Signed, Reuses;
    hide Evident, Bounded, Contacted, Listed, Replied, CountersOf, EventsOf, BooksOf, Within, Repeats, Untouched, Sound,
         Dangling, Recovers, CandidateBound, Outrun, ContactRecovered, OthersRecovered, Collected, Heard, Sum, AllUsed;
    ghost var before := runtime.store.db;
    ghost var phase, cited, invocation;
    ghost var actions, why;
    out, phase, cited, invocation, actions, why := runtime.Run();
    left := runtime.store.db;
    ghost var begun := runtime.Stopped(out, phase);
    if begun {
      IntactCalls(left, runtime.attempt, phase, runtime.cfg.profile, runtime.provider.contacts, runtime.from);
      EvidentMeans(left, runtime.attempt, phase);
      DanglingMeansContact(left, runtime.attempt, phase);
    } else {
      NothingBegun(before, runtime.attempt, runtime.cfg.profile);
      assert runtime.provider.contacts[|old(runtime.provider.contacts)|..] == [];
    }
    recoveries := RecoverRepeatedly(runtime.store, runtime.attempt, times, begun && phase.Contacting?);
    handed := if begun then runtime.signed else 0;
    if forall k :: !Dangling(left, runtime.attempt, k) {
      if begun {
        AllReusedAreActed(left, runtime.attempt, phase, runtime.turnsBefore, handed, recoveries,
                          runtime.store.db);
      } else {
        NothingReused(left, runtime.attempt, before.turns, recoveries, runtime.store.db);
      }
    }
  }
}
