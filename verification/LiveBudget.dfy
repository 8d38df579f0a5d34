/** Reservations and settlements of provider calls, folded from the events of an attempt.

    The runtime keeps its sums as floats rounded to twelve decimal places; here they are
    exact (see module Money). */
module LiveBudget {
  import opened Common
  import opened Money
  import opened LiveTables
  import opened LiveStore

  datatype Profile = Profile(callLimit: nat, inputLimit: nat, outputLimit: nat, totalLimit: nat,
                             wallLimit: nat, costLimit: nat, retryLimit: nat, actionLimit: nat,
                             toolLimit: nat, noProgressLimit: nat, timeout: nat)

  datatype LedgerError = Exceeded | UsageOverReservation | Refusal(error: StoreError)

  // ---- Sums of postings -------------------------------------------------------------------

  const NOTHING := Posting(0, 0, 0, 0, 0)

  function Plus(a: Posting, b: Posting): Posting {
    Posting(a.input + b.input, a.output + b.output, a.total + b.total, a.cost + b.cost, a.retry + b.retry)
  }

  function Minus(a: Posting, b: Posting): Posting {
    Posting(a.input - b.input, a.output - b.output, a.total - b.total, a.cost - b.cost, a.retry - b.retry)
  }

  /** Tokens and cost of `a` are at most those of `b`. */
  predicate AtMost(a: Posting, b: Posting) {
    a.input <= b.input && a.output <= b.output && a.total <= b.total && a.cost <= b.cost
  }

  function Sum(postings: seq<Posting>): Posting {
    if postings == [] then NOTHING
    else Plus(Sum(postings[..|postings| - 1]), postings[|postings| - 1])
  }

  lemma SumAppended(postings: seq<Posting>, p: Posting)
    ensures Sum(postings + [p]) == Plus(Sum(postings), p)
  {
    assert (postings + [p])[..|postings|] == postings;
  }

  lemma {:induction false} SumReplaced(postings: seq<Posting>, i: nat, p: Posting)
    requires i < |postings|
    ensures Sum(postings[i := p]) == Plus(Minus(Sum(postings), postings[i]), p)
  {
    var n := |postings| - 1;
    if i == n {
      assert postings[i := p][..n] == postings[..n];
    } else {
      SumReplaced(postings[..n], i, p);
      assert postings[i := p][..n] == postings[..n][i := p];
    }
  }

  lemma {:induction false} SumAtMost(a: seq<Posting>, b: seq<Posting>)
    requires |a| == |b| && forall i :: 0 <= i < |a| ==> AtMost(a[i], b[i])
    ensures AtMost(Sum(a), Sum(b))
  {
    if a != [] {
      var n := |a| - 1;
      SumAtMost(a[..n], b[..n]);
    }
  }

  // ---- What the events of an attempt add up to ---------------------------------------------

  /** The dictionaries and counters of the fold.  `order` is the insertion order of `reserved`. */
  datatype Books = Books(order: seq<Id>, reserved: map<Id, Posting>, settled: map<Id, Posting>,
                         actions: int, tools: int, noProgress: int)

  datatype Counters = Counters(calls: int, sum: Posting, actions: int, tools: int, noProgress: int)

  predicate Keyed(e: Event) {
    e.invocation.Some? && e.invocation.value != Text("")
  }

  function Posted(b: Books, e: Event): Books {
    match e.entry
    case Reserved(p, _, _) =>
      if !Keyed(e) then b
      else
        var id := e.invocation.value;
        b.(order := if id in b.reserved then b.order else b.order + [id], reserved := b.reserved[id := p])
    case Settled(p, _) =>
      if Keyed(e) then b.(settled := b.settled[e.invocation.value := p]) else b
    case Consumed(ActionUse, n) => b.(actions := b.actions + n)
    case Consumed(ToolUse, n) => b.(tools := b.tools + n)
    case Consumed(NoProgress, n) => b.(noProgress := b.noProgress + n)
  }

  function BooksOf(events: seq<Event>): Books {
    if events == [] then Books([], map[], map[], 0, 0, 0)
    else Posted(BooksOf(events[..|events| - 1]), events[|events| - 1])
  }

  lemma BooksAppended(events: seq<Event>, e: Event)
    ensures BooksOf(events + [e]) == Posted(BooksOf(events), e)
  {
    assert (events + [e])[..|events|] == events;
  }

  /** A settlement takes the place of its reservation. */
  function Effective(b: Books, id: Id): Posting {
    if id in b.settled then b.settled[id] else if id in b.reserved then b.reserved[id] else NOTHING
  }

  function Effectives(b: Books): seq<Posting> {
    seq(|b.order|, i requires 0 <= i < |b.order| => Effective(b, b.order[i]))
  }

  function CountersOf(events: seq<Event>): Counters {
    var b := BooksOf(events);
    Counters(|b.order|, Sum(Effectives(b)), b.actions, b.tools, b.noProgress)
  }

  function CountOf(c: Counters, what: Consumption): int {
    match what case ActionUse => c.actions case ToolUse => c.tools case NoProgress => c.noProgress
  }

  function LimitOf(profile: Profile, what: Consumption): nat {
    match what
    case ActionUse => profile.actionLimit
    case ToolUse => profile.toolLimit
    case NoProgress => profile.noProgressLimit
  }

  // ---- Events that the ledger writes ----------------------------------------------------------

  function ReservedEvent(attempt: Id, r: Reservation, retry: int, createdAt: string): Event {
    Event(ReservedId(r.invocation), attempt, Some(r.invocation),
          Reserved(Posting(r.input, r.output, r.total, r.cost, retry), r.wall, r.timeout), createdAt)
  }

  function SettledEvent(attempt: Id, invocation: Id, p: Posting, latency: int, createdAt: string): Event {
    Event(SettledId(invocation), attempt, Some(invocation), Settled(p, latency), createdAt)
  }

  function ConsumedEvent(attempt: Id, what: Consumption, key: Id, createdAt: string): Event {
    Event(ConsumedId(what, attempt, key), attempt, None, Consumed(what, 1), createdAt)
  }

  /** Each call is reserved once and settled at most once, after it was reserved. */
  ghost predicate InOrder(events: seq<Event>) {
    && BooksInOrder(BooksOf(events)) && Identified(BooksOf(events), events) && AllBooked(BooksOf(events), events)
  }

  ghost predicate BooksInOrder(b: Books) {
    && (forall i, j :: 0 <= i < j < |b.order| ==> b.order[i] != b.order[j])
    && (forall x :: x in b.order <==> x in b.reserved)
    && (forall x :: x in b.settled ==> x in b.reserved)
    && (forall x :: x in b.reserved ==> AtMost(NOTHING, b.reserved[x]))
  }

  ghost predicate Identified(b: Books, events: seq<Event>) {
    && (forall x :: x in b.reserved ==> HasEvent(events, ReservedId(x)))
    && (forall x :: x in b.settled ==> HasEvent(events, SettledId(x)))
  }

  ghost predicate AllBooked(b: Books, events: seq<Event>) {
    forall i :: 0 <= i < |events| ==> Booked(b, events[i])
  }

  /** The books agree with an event about its posting. */
  predicate Booked(b: Books, e: Event) {
    match e.entry
    case Reserved(p, _, _) => Keyed(e) ==> e.invocation.value in b.reserved && b.reserved[e.invocation.value] == p
    case Settled(p, _) => Keyed(e) ==> e.invocation.value in b.settled && b.settled[e.invocation.value] == p
    case Consumed(_, _) => true
  }

  lemma NothingPostedInOrder()
    ensures InOrder([])
  {
  }

  lemma HasEventAppended(events: seq<Event>, e: Event)
    ensures forall id :: HasEvent(events + [e], id) <==> HasEvent(events, id) || id == e.id
  {
    forall id | HasEvent(events, id) || id == e.id
      ensures HasEvent(events + [e], id)
    {
      if id == e.id {
        assert (events + [e])[|events|].id == id;
      } else {
        var i :| 0 <= i < |events| && events[i].id == id;
        assert (events + [e])[i].id == id;
      }
    }
  }

  lemma StillBooked(events: seq<Event>, e: Event)
    requires InOrder(events)
    requires e.entry.Reserved? && Keyed(e) ==> e.invocation.value !in BooksOf(events).reserved
    requires e.entry.Settled? && Keyed(e) ==> e.invocation.value !in BooksOf(events).settled
    ensures AllBooked(BooksOf(events + [e]), events + [e])
  {
    hide HasEvent, BooksOf, BooksInOrder, Identified;
    var b, b' := BooksOf(events), BooksOf(events + [e]);
    BooksAppended(events, e);
    forall i | 0 <= i <= |events|
      ensures Booked(b', (events + [e])[i])
    {
      if i < |events| {
        assert Booked(b, events[i]);
      }
    }
  }

  /** A reservation adds its posting to the effective ones. */
  lemma ReservationPosted(events: seq<Event>, e: Event)
    requires InOrder(events) && e.entry.Reserved? && Keyed(e) && e.id == ReservedId(e.invocation.value)
    requires !HasEvent(events, e.id) && AtMost(NOTHING, e.entry.posting)
    ensures var b, b' := BooksOf(events), BooksOf(events + [e]);
            && InOrder(events + [e])
            && b' == b.(order := b.order + [e.invocation.value],
                        reserved := b.reserved[e.invocation.value := e.entry.posting])
            && Effectives(b') == Effectives(b) + [e.entry.posting]
  {
    hide HasEvent, AllBooked, BooksOf;
    BooksAppended(events, e);
    HasEventAppended(events, e);
    StillBooked(events, e);
  }

  /** A settlement replaces the posting of its reservation. */
  lemma SettlementPosted(events: seq<Event>, e: Event, i: nat)
    requires InOrder(events) && e.entry.Settled? && Keyed(e) && e.id == SettledId(e.invocation.value)
    requires !HasEvent(events, e.id)
    requires i < |BooksOf(events).order| && BooksOf(events).order[i] == e.invocation.value
    ensures var b, b' := BooksOf(events), BooksOf(events + [e]);
            && InOrder(events + [e])
            && b' == b.(settled := b.settled[e.invocation.value := e.entry.posting])
            && Effectives(b') == Effectives(b)[i := e.entry.posting]
            && Effectives(b)[i] == b.reserved[e.invocation.value]
  {
    hide HasEvent, AllBooked, BooksOf;
    BooksAppended(events, e);
    HasEventAppended(events, e);
    StillBooked(events, e);
  }

  /** Any other event adds to a counter and leaves the calls alone. */
  lemma ConsumptionPosted(events: seq<Event>, e: Event)
    requires InOrder(events) && e.entry.Consumed?
    ensures var b, b' := BooksOf(events), BooksOf(events + [e]);
            && InOrder(events + [e])
            && b'.order == b.order && b'.reserved == b.reserved && b'.settled == b.settled
            && Effectives(b') == Effectives(b)
  {
    hide HasEvent, AllBooked, BooksOf;
    BooksAppended(events, e);
    HasEventAppended(events, e);
    StillBooked(events, e);
    SameEffectives(BooksOf(events), BooksOf(events + [e]));
  }

  lemma SameEffectives(b: Books, b': Books)
    requires b'.order == b.order && b'.reserved == b.reserved && b'.settled == b.settled
    ensures Effectives(b') == Effectives(b)
  {
  }

  lemma SumAfterConsumption(events: seq<Event>, e: Event)
    requires InOrder(events) && e.entry.Consumed?
    ensures var c, c' := CountersOf(events), CountersOf(events + [e]);
            && c'.calls == c.calls && c'.sum == c.sum
            && forall what :: CountOf(c', what)
                              == CountOf(c, what) + if what == e.entry.what then e.entry.count else 0
  {
    hide InOrder, BooksOf, Effectives;
    ConsumptionPosted(events, e);
    BooksAppended(events, e);
  }

  // ---- Budget safety ---------------------------------------------------------------------------

  /** Everything but the retries. */
  predicate Within(profile: Profile, c: Counters) {
    && c.calls <= profile.callLimit && c.sum.input <= profile.inputLimit
    && c.sum.output <= profile.outputLimit && c.sum.total <= profile.totalLimit
    && c.sum.cost <= profile.costLimit && c.actions <= profile.actionLimit
    && c.tools <= profile.toolLimit && c.noProgress <= profile.noProgressLimit
  }

  predicate Fits(profile: Profile, c: Counters, p: Posting, wall: nat) {
    && c.calls + 1 <= profile.callLimit && c.sum.input + p.input <= profile.inputLimit
    && c.sum.output + p.output <= profile.outputLimit && c.sum.total + p.total <= profile.totalLimit
    && wall <= profile.wallLimit && c.sum.cost + p.cost <= profile.costLimit
    && c.sum.retry + p.retry <= profile.retryLimit
  }

  /** What a call would use takes something over its limit. */
  predicate OverLimits(profile: Profile, price: Price, c: Counters, input: nat, output: nat, wallNow: nat, retry: nat) {
    || wallNow + profile.timeout > profile.wallLimit
    || c.calls == profile.callLimit || c.calls > profile.callLimit
    || c.sum.input > profile.inputLimit - input || c.sum.output > profile.outputLimit - output
    || c.sum.total > profile.totalLimit - (input + output)
    || c.sum.cost > profile.costLimit - Cost(price, input, output)
    || c.sum.retry > profile.retryLimit - retry
  }

  lemma FitsWithinLimits(profile: Profile, price: Price, c: Counters, input: nat, output: nat, wallNow: nat, retry: nat)
    ensures Fits(profile, c, Posting(input, output, input + output, Cost(price, input, output), retry),
                 wallNow + profile.timeout)
            <==> !OverLimits(profile, price, c, input, output, wallNow, retry)
  {
    hide Cost;
  }

  /** Every call was reserved so that it ends in time, if it keeps to its timeout. */
  predicate Timely(profile: Profile, events: seq<Event>) {
    forall i :: 0 <= i < |events| && events[i].entry.Reserved? ==>
      events[i].entry.timeout == profile.timeout <= events[i].entry.wall <= profile.wallLimit
  }

  lemma TimelyAppended(profile: Profile, before: seq<Event>, e: Event, after: seq<Event>)
    requires Timely(profile, before) && Appended(before, e, after)
    requires e.entry.Reserved? ==> e.entry.timeout == profile.timeout <= e.entry.wall <= profile.wallLimit
    ensures Timely(profile, after)
  {
    hide HasEvent;
  }

  /** The ledger issued this reservation. */
  predicate Issued(price: Price, events: seq<Event>, r: Reservation) {
    && r.invocation != Text("") && r.invocation in BooksOf(events).reserved
    && r.input >= 0 && r.output >= 0 && r.total == r.input + r.output
    && r.cost == Cost(price, r.input, r.output)
    && BooksOf(events).reserved[r.invocation]
       == Posting(r.input, r.output, r.total, r.cost, BooksOf(events).reserved[r.invocation].retry)
  }

  /** The test after a settlement asks four questions, of which the first two decide. */
  lemma OverReservation(price: Price, r: Reservation, input: nat, output: nat)
    requires r.input >= 0 && r.output >= 0 && r.total == r.input + r.output
    requires r.cost == Cost(price, r.input, r.output)
    ensures (input > r.input || output > r.output || input + output > r.total || Cost(price, input, output) > r.cost)
            <==> (input > r.input || output > r.output)
  {
    if input <= r.input && output <= r.output {
      CostMonotone(price, input, output, r.input, r.output);
    }
  }

  /** The event was there already, or it is new and goes last. */
  predicate Appended(before: seq<Event>, e: Event, after: seq<Event>) {
    (after == before && e in before) || (after == before + [e] && !HasEvent(before, e.id))
  }

  lemma ReserveKeeps(profile: Profile, price: Price, attempt: Id, before: seq<Event>, after: seq<Event>,
                     r: Reservation, retry: nat, createdAt: string)
    requires InOrder(before) && Appended(before, ReservedEvent(attempt, r, retry, createdAt), after)
    requires r.invocation != Text("") && r.input >= 0 && r.output >= 0
    requires r.total == r.input + r.output && r.cost == Cost(price, r.input, r.output) && r.wall >= 0
    requires Fits(profile, CountersOf(before), Posting(r.input, r.output, r.total, r.cost, retry), r.wall)
    ensures InOrder(after) && Issued(price, after, r) && Kept(BooksOf(before).reserved, BooksOf(after).reserved)
    ensures Within(profile, CountersOf(before)) ==> Within(profile, CountersOf(after))
    ensures after != before ==> CountersOf(after).sum.retry <= profile.retryLimit
  {
    hide InOrder, BooksOf, Effectives, HasEvent, Cost;
    var e := ReservedEvent(attempt, r, retry, createdAt);
    if after == before {
      AlreadyReserved(before, e);
    } else {
      NotYetReserved(before, e);
      ReservationPosted(before, e);
      SumAppended(Effectives(BooksOf(before)), e.entry.posting);
    }
  }

  lemma AlreadyReserved(events: seq<Event>, e: Event)
    requires InOrder(events) && e in events && e.entry.Reserved? && Keyed(e)
    ensures e.invocation.value in BooksOf(events).reserved
    ensures BooksOf(events).reserved[e.invocation.value] == e.entry.posting
  {
    hide BooksOf, HasEvent, Identified, BooksInOrder;
    var i :| 0 <= i < |events| && events[i] == e;
    assert Booked(BooksOf(events), events[i]);
  }

  lemma NotYetReserved(events: seq<Event>, e: Event)
    requires InOrder(events) && Keyed(e) && e.id == ReservedId(e.invocation.value) && !HasEvent(events, e.id)
    ensures e.invocation.value !in BooksOf(events).reserved
  {
    hide BooksOf, HasEvent, AllBooked, BooksInOrder;
  }

  /** What a settlement does to the sum: it takes the reservation out and puts the usage in.
      Settled a second time, it does nothing. */
  lemma SettleKeeps(price: Price, attempt: Id, before: seq<Event>, after: seq<Event>, r: Reservation,
                    p: Posting, latency: nat, createdAt: string)
    requires InOrder(before) && Issued(price, before, r)
    requires Appended(before, SettledEvent(attempt, r.invocation, p, latency, createdAt), after)
    ensures InOrder(after) && Issued(price, after, r) && BooksOf(after).reserved == BooksOf(before).reserved
    ensures var c, c' := CountersOf(before), CountersOf(after);
            && c' == c.(sum := c'.sum)
            && (after != before ==> c'.sum == Plus(Minus(c.sum, BooksOf(before).reserved[r.invocation]), p))
  {
    var e := SettledEvent(attempt, r.invocation, p, latency, createdAt);
    if after != before {
      var b := BooksOf(before);
      var i :| 0 <= i < |b.order| && b.order[i] == r.invocation;
      hide InOrder, BooksOf, Effectives, HasEvent, Sum;
      SettlementPosted(before, e, i);
      SumReplaced(Effectives(b), i, p);
    }
  }

  class LiveBudgetLedger {
    const store: LiveEvaluationStore
    const attempt: Id
    const profile: Profile
    const price: Price

    constructor (store: LiveEvaluationStore, attempt: Id, profile: Profile, price: Price)
      ensures this.store == store && this.attempt == attempt && this.profile == profile && this.price == price
    {
      this.store, this.attempt, this.profile, this.price := store, attempt, profile, price;
    }

    ghost function Events(): seq<Event>
      reads store
    {
      EventsOf(store.db.events, attempt)
    }

    method Snapshot() returns (c: Checked<Counters, LedgerError>)
      ensures c == if attempt in store.db.attempts then Ok(CountersOf(Events())) else Refused(Refusal(NotFound))
    {
      if attempt !in store.db.attempts {
        return Refused(Refusal(NotFound));
      }
      var events := store.BudgetEvents(attempt);
      var order: seq<Id>, reservations: map<Id, Posting>, settlements: map<Id, Posting> := [], map[], map[];
      var actions, tools, noProgress := 0, 0, 0;
      for i := 0 to |events|
        invariant BooksOf(events[..i]) == Books(order, reservations, settlements, actions, tools, noProgress)
        invariant forall k :: k in order ==> k in reservations
      {
        assert events[..i + 1] == events[..i] + [events[i]];
        BooksAppended(events[..i], events[i]);
        var entry := events[i].entry;
        if entry.Reserved? && Keyed(events[i]) {
          var id := events[i].invocation.value;
          if id !in reservations {
            order := order + [id];
          }
          reservations := reservations[id := entry.posting];
        } else if entry.Settled? && Keyed(events[i]) {
          settlements := settlements[events[i].invocation.value := entry.posting];
        } else if entry.Consumed? {
          match entry.what {
            case ActionUse => actions := actions + entry.count;
            case ToolUse => tools := tools + entry.count;
            case NoProgress => noProgress := noProgress + entry.count;
          }
        }
      }
      assert events[..|events|] == events;
      ghost var b := BooksOf(events);
      var sum := NOTHING;
      for i := 0 to |order|
        invariant sum == Sum(Effectives(b)[..i])
      {
        assert Effectives(b)[..i + 1] == Effectives(b)[..i] + [Effectives(b)[i]];
        SumAppended(Effectives(b)[..i], Effectives(b)[i]);
        sum := Plus(sum, if order[i] in settlements then settlements[order[i]] else reservations[order[i]]);
      }
      assert Effectives(b)[..|order|] == Effectives(b);
      return Ok(Counters(|order|, sum, actions, tools, noProgress));
    }

    method Post(event: Event) returns (error: Option<StoreError>)
      requires event.attempt == attempt
      modifies store
      ensures Follows(old(store.db), AddEvent(event), store.db, error)
      ensures error.Some? ==> store.db == old(store.db)
      ensures error.None? ==> Appended(old(Events()), event, Events())
    {
      hide HasEvent;
      ghost var before := store.db.events;
      error := store.AppendBudgetEvent(event);
      EventsOfAppended(before, event, attempt);
      OnlyEventsOf(before, event);
    }

    /** Set aside all that a call may use, if it still fits. */
    method ReserveProviderCall(invocation: Id, input: nat, output: nat, wallNow: nat, createdAt: string, retry: nat)
      returns (r: Checked<Reservation, LedgerError>)
      requires invocation != Text("")
      modifies store
      ensures attempt !in old(store.db.attempts) ==> r == Refused(Refusal(NotFound))
      ensures attempt in old(store.db.attempts) ==>
                (r == Refused(Exceeded)
                 <==> OverLimits(profile, price, CountersOf(old(Events())), input, output, wallNow, retry))
      ensures r.Refused? ==> store.db == old(store.db)
      ensures r.Ok? ==>
                && r.value == Reservation(invocation, input, output, input + output, Cost(price, input, output),
                                          wallNow + profile.timeout, profile.timeout)
                && Follows(old(store.db), AddEvent(ReservedEvent(attempt, r.value, retry, createdAt)), store.db, None)
                && Appended(old(Events()), ReservedEvent(attempt, r.value, retry, createdAt), Events())
      ensures r.Ok? ==> wallNow + profile.timeout <= profile.wallLimit
      ensures old(InOrder(Events())) ==>
                && InOrder(Events()) && (r.Ok? ==> Issued(price, Events(), r.value))
                && Kept(old(BooksOf(Events())).reserved, BooksOf(Events()).reserved)
                && (Events() == old(Events()) || CountersOf(Events()).sum.retry <= profile.retryLimit)
      ensures old(InOrder(Events()) && Within(profile, CountersOf(Events()))) ==> Within(profile, CountersOf(Events()))
    {
      hide InOrder, Within, Issued, Fits, CountersOf, Appended, Cost, Follows;
      FitsWithinLimits(profile, price, CountersOf(Events()), input, output, wallNow, retry);
      var current := Snapshot();
      if current.Refused? {
        return Refused(current.error);
      }
      var p := Posting(input, output, input + output, Cost(price, input, output), retry);
      var reservation := Reservation(invocation, input, output, p.total, p.cost, wallNow + profile.timeout,
                                     profile.timeout);
      if !Fits(profile, current.value, p, reservation.wall) {
        return Refused(Exceeded);
      }
      ghost var before := Events();
      var error := Post(ReservedEvent(attempt, reservation, retry, createdAt));
      if error.Some? {
        return Refused(Refusal(error.value));
      }
      if InOrder(before) {
        ReserveKeeps(profile, price, attempt, before, Events(), reservation, retry, createdAt);
      }
      return Ok(reservation);
    }

    /** Replace a reservation by what was used.  The settlement is written first and compared
        afterwards, so an overrun stays in the books. */
    method SettleProviderCall(r: Reservation, input: nat, output: nat, latency: nat, retry: nat, createdAt: string)
      returns (error: Option<LedgerError>)
      requires InOrder(Events()) && Issued(price, Events(), r)
      modifies store
      ensures InOrder(Events()) && BooksOf(Events()).reserved == old(BooksOf(Events())).reserved
      ensures error.Some? && error.value.Refusal? ==> store.db == old(store.db)
      ensures var p := Posting(input, output, input + output, Cost(price, input, output), retry);
              var e := SettledEvent(attempt, r.invocation, p, latency, createdAt);
              error in {None, Some(UsageOverReservation)} ==>
                Follows(old(store.db), AddEvent(e), store.db, None) && Appended(old(Events()), e, Events())
      ensures error != Some(Exceeded)
      ensures error == Some(UsageOverReservation) ==> input > r.input || output > r.output
      ensures error.None? ==> input <= r.input && output <= r.output
      ensures var c, c' := CountersOf(old(Events())), CountersOf(Events());
              var p := Posting(input, output, input + output, Cost(price, input, output), retry);
              && c' == c.(sum := c'.sum)
              && (Events() != old(Events()) ==>
                    c'.sum == Plus(Minus(c.sum, BooksOf(old(Events())).reserved[r.invocation]), p))
      ensures error.None? ==>
                var c, c' := CountersOf(old(Events())), CountersOf(Events());
                AtMost(c'.sum, c.sum) && (Within(profile, c) ==> Within(profile, c'))
    {
      hide InOrder, CountersOf, Appended, Cost, Follows, BooksOf, HasEvent;
      var total, cost := input + output, Cost(price, input, output);
      var p := Posting(input, output, total, cost, retry);
      ghost var before := Events();
      var refused := Post(SettledEvent(attempt, r.invocation, p, latency, createdAt));
      if refused.Some? {
        return Some(Refusal(refused.value));
      }
      SettleKeeps(price, attempt, before, Events(), r, p, latency, createdAt);
      OverReservation(price, r, input, output);
      if input > r.input || output > r.output || total > r.total || cost > r.cost {
        return Some(UsageOverReservation);
      }
      return None;
    }

    method ConsumeCount(what: Consumption, key: Id, createdAt: string) returns (error: Option<LedgerError>)
      modifies store
      ensures attempt !in old(store.db.attempts) ==> error == Some(Refusal(NotFound))
      ensures attempt in old(store.db.attempts) ==>
                (error == Some(Exceeded)
                 <==> var c := CountersOf(old(Events()));
                      || (what.ActionUse? && c.actions >= profile.actionLimit)
                      || (what.ToolUse? && c.tools >= profile.toolLimit)
                      || (what.NoProgress? && c.noProgress >= profile.noProgressLimit))
      ensures error.Some? ==> store.db == old(store.db)
      ensures error.None? ==>
                && Follows(old(store.db), AddEvent(ConsumedEvent(attempt, what, key, createdAt)), store.db, None)
                && Appended(old(Events()), ConsumedEvent(attempt, what, key, createdAt), Events())
      ensures old(InOrder(Events())) ==>
                && InOrder(Events()) && BooksOf(Events()).reserved == old(BooksOf(Events())).reserved
                && CountersOf(Events()).sum == CountersOf(old(Events())).sum
      ensures old(InOrder(Events()) && Within(profile, CountersOf(Events()))) ==> Within(profile, CountersOf(Events()))
    {
      hide InOrder, CountersOf, Follows, BooksOf, HasEvent;
      var current := Snapshot();
      if current.Refused? {
        return Some(current.error);
      }
      if CountOf(current.value, what) + 1 > LimitOf(profile, what) {
        return Some(Exceeded);
      }
      ghost var before := Events();
      var e := ConsumedEvent(attempt, what, key, createdAt);
      var refused := Post(e);
      if refused.Some? {
        return Some(Refusal(refused.value));
      }
      if InOrder(before) {
        ConsumptionPosted(before, e);
        SumAfterConsumption(before, e);
        ghost var c, c' := CountersOf(before), CountersOf(Events());
        assert CountOf(c', ActionUse) <= profile.actionLimit || !Within(profile, c);
        assert CountOf(c', ToolUse) <= profile.toolLimit || !Within(profile, c);
        assert CountOf(c', NoProgress) <= profile.noProgressLimit || !Within(profile, c);
      }
      return None;
    }
  }

  lemma {:induction false} OnlyEventsOf(events: seq<Event>, e: Event)
    ensures e in events ==> e in EventsOf(events, e.attempt)
    ensures HasEvent(EventsOf(events, e.attempt), e.id) ==> HasEvent(events, e.id)
  {
    if events != [] {
      var n := |events| - 1;
      OnlyEventsOf(events[..n], e);
      HasEventAppended(EventsOf(events[..n], e.attempt), events[n]);
      HasEventAppended(events[..n], events[n]);
      assert events[..n] + [events[n]] == events;
    }
  }

  // ---- Every run of ledger operations ---------------------------------------------------------

  lemma StillIssued(price: Price, before: seq<Event>, after: seq<Event>, issued: seq<Reservation>)
    requires Kept(BooksOf(before).reserved, BooksOf(after).reserved)
    requires AllIssued(price, before, issued)
    ensures AllIssued(price, after, issued)
  {
    hide BooksOf, Cost;
  }

  predicate AllIssued(price: Price, events: seq<Event>, issued: seq<Reservation>) {
    forall k :: 0 <= k < |issued| ==> Issued(price, events, issued[k])
  }

  /** The bound on the retries after a new settlement is one on what it posts. */
  lemma SettlementKeepsRetries(profile: Profile, price: Price, attempt: Id, before: seq<Event>, after: seq<Event>,
                               r: Reservation, p: Posting, latency: nat, createdAt: string)
    requires InOrder(before) && Issued(price, before, r) && after != before
    requires Appended(before, SettledEvent(attempt, r.invocation, p, latency, createdAt), after)
    ensures CountersOf(after).sum.retry <= profile.retryLimit
            <==> p.retry <= profile.retryLimit - CountersOf(before).sum.retry
                            + BooksOf(before).reserved[r.invocation].retry
  {
    hide InOrder, BooksOf, CountersOf, Appended, Cost;
    SettleKeeps(price, attempt, before, after, r, p, latency, createdAt);
  }

  predicate Settles(settlement: Event, reservation: Event) {
    settlement.entry.Settled? && reservation.entry.Reserved? && settlement.invocation == reservation.invocation
  }

  /** No settlement in the log used more tokens than its reservation set aside. */
  predicate NoneOutran(events: seq<Event>) {
    forall i, j :: 0 <= i < |events| && 0 <= j < |events| && Settles(events[i], events[j]) ==>
      && events[i].entry.posting.input <= events[j].entry.posting.input
      && events[i].entry.posting.output <= events[j].entry.posting.output
  }

  /** Nor reported more retries. */
  predicate NoneRetriedMore(events: seq<Event>) {
    forall i, j :: 0 <= i < |events| && 0 <= j < |events| && Settles(events[i], events[j]) ==>
      events[i].entry.posting.retry <= events[j].entry.posting.retry
  }

  /** The limits hold as far as the log shows that they must. */
  ghost predicate Held(profile: Profile, events: seq<Event>) {
    && (NoneOutran(events) ==> Within(profile, CountersOf(events)))
    && (NoneRetriedMore(events) ==> CountersOf(events).sum.retry <= profile.retryLimit)
  }

  /** What the books say was reserved, an event of the log reserved. */
  lemma {:induction false} ReservedThere(events: seq<Event>, invocation: Id) returns (i: nat)
    requires invocation in BooksOf(events).reserved
    ensures i < |events| && events[i].entry.Reserved? && events[i].invocation == Some(invocation)
    ensures events[i].entry.posting == BooksOf(events).reserved[invocation]
  {
    var n := |events| - 1;
    var e := events[n];
    if e.entry.Reserved? && Keyed(e) && e.invocation.value == invocation {
      i := n;
    } else {
      i := ReservedThere(events[..n], invocation);
    }
  }

  lemma FewerOutran(before: seq<Event>, e: Event, after: seq<Event>)
    requires Appended(before, e, after)
    ensures NoneOutran(after) ==> NoneOutran(before)
    ensures NoneRetriedMore(after) ==> NoneRetriedMore(before)
  {
    if NoneOutran(after) {
      forall i, j | 0 <= i < |before| && 0 <= j < |before| && Settles(before[i], before[j])
        ensures before[i].entry.posting.input <= before[j].entry.posting.input
        ensures before[i].entry.posting.output <= before[j].entry.posting.output
      {
        assert after[i] == before[i] && after[j] == before[j];
      }
    }
    if NoneRetriedMore(after) {
      forall i, j | 0 <= i < |before| && 0 <= j < |before| && Settles(before[i], before[j])
        ensures before[i].entry.posting.retry <= before[j].entry.posting.retry
      {
        assert after[i] == before[i] && after[j] == before[j];
      }
    }
  }

  /** A settlement over its reservation shows in the log. */
  lemma OverrunShows(before: seq<Event>, e: Event, after: seq<Event>)
    requires Appended(before, e, after) && e.entry.Settled? && e.invocation.Some?
    requires e.invocation.value in BooksOf(after).reserved
    ensures var p, reserved := e.entry.posting, BooksOf(after).reserved[e.invocation.value];
            && (p.input > reserved.input || p.output > reserved.output ==> !NoneOutran(after))
            && (p.retry > reserved.retry ==> !NoneRetriedMore(after))
  {
    hide HasEvent, BooksOf;
    var j := ReservedThere(after, e.invocation.value);
    assert e in after;
    var i :| 0 <= i < |after| && after[i] == e;
    assert Settles(after[i], after[j]);
  }

  /** Any operations, with any arguments, in any order.  As long as the log shows no settlement
      over its reservation no budget but the retries is exceeded, and as long as it shows none
      that reported more retries they are not exceeded either. */
  method RunLedger(ledger: LiveBudgetLedger, steps: nat)
    requires ledger.Events() == []
    modifies ledger.store
    ensures Held(ledger.profile, ledger.Events())
    ensures InOrder(ledger.Events()) && Timely(ledger.profile, ledger.Events())
  {
    NothingPostedInOrder();
    var issued: seq<Reservation> := [];
    for i := 0 to steps
      invariant InOrder(ledger.Events()) && Timely(ledger.profile, ledger.Events())
      invariant AllIssued(ledger.price, ledger.Events(), issued)
      invariant Held(ledger.profile, ledger.Events())
    {
      hide InOrder, Held, BooksOf, Issued, AllIssued, Timely;
      issued := StepLedger(ledger, issued);
    }
  }

  method StepLedger(ledger: LiveBudgetLedger, issued: seq<Reservation>) returns (issued': seq<Reservation>)
    requires InOrder(ledger.Events()) && AllIssued(ledger.price, ledger.Events(), issued)
    requires Timely(ledger.profile, ledger.Events()) && Held(ledger.profile, ledger.Events())
    modifies ledger.store
    ensures InOrder(ledger.Events()) && AllIssued(ledger.price, ledger.Events(), issued')
    ensures Timely(ledger.profile, ledger.Events()) && Held(ledger.profile, ledger.Events())
  {
    hide InOrder, Within, CountersOf, BooksOf, Cost, OverLimits, Follows, Appended, Issued, AtMost, Timely,
         NoneOutran, NoneRetriedMore;
    ghost var before := ledger.Events();
    var input: nat, output: nat, time: nat, retry: nat :| true;
    var key: Id, what: Consumption, now: string := *, *, *;
    issued' := issued;
    if
    case key != Text("") =>
      var r := ledger.ReserveProviderCall(key, input, output, time, now, retry);
      StillIssued(ledger.price, before, ledger.Events(), issued);
      if r.Ok? {
        issued' := issued + [r.value];
        ghost var e := ReservedEvent(ledger.attempt, r.value, retry, now);
        TimelyAppended(ledger.profile, before, e, ledger.Events());
        FewerOutran(before, e, ledger.Events());
      }
    case issued != [] =>
      var k: nat :| k < |issued|;
      SettleStep(ledger, issued[k], input, output, time, retry, now);
      StillIssued(ledger.price, before, ledger.Events(), issued);
    case true =>
      var error := ledger.ConsumeCount(what, key, now);
      StillIssued(ledger.price, before, ledger.Events(), issued);
      if error.None? {
        ghost var e := ConsumedEvent(ledger.attempt, what, key, now);
        TimelyAppended(ledger.profile, before, e, ledger.Events());
        FewerOutran(before, e, ledger.Events());
      }
  }

  method SettleStep(ledger: LiveBudgetLedger, r: Reservation, input: nat, output: nat, time: nat, retry: nat,
                    now: string)
    requires InOrder(ledger.Events()) && Issued(ledger.price, ledger.Events(), r)
    requires Timely(ledger.profile, ledger.Events()) && Held(ledger.profile, ledger.Events())
    modifies ledger.store
    ensures InOrder(ledger.Events())
    ensures BooksOf(ledger.Events()).reserved == old(BooksOf(ledger.Events())).reserved
    ensures Timely(ledger.profile, ledger.Events()) && Held(ledger.profile, ledger.Events())
  {
    hide InOrder, Within, CountersOf, BooksOf, Cost, Follows, Appended, AtMost, Timely, NoneOutran, NoneRetriedMore;
    ghost var before := ledger.Events();
    var error := ledger.SettleProviderCall(r, input, output, time, retry, now);
    if error in {None, Some(UsageOverReservation)} {
      ghost var p := Posting(input, output, input + output, Cost(ledger.price, input, output), retry);
      ghost var e := SettledEvent(ledger.attempt, r.invocation, p, time, now);
      TimelyAppended(ledger.profile, before, e, ledger.Events());
      FewerOutran(before, e, ledger.Events());
      OverrunShows(before, e, ledger.Events());
    }
  }

  /** The retries are tested when a call is reserved, but a settlement may then report any
      number of them: two operations that both succeed can leave the total over its limit. */
  lemma SettlementMayExceedRetries(profile: Profile, price: Price, attempt: Id, r: Reservation, now: string)
    requires r.invocation != Text("") && r.input >= 0 && r.output >= 0 && r.total == r.input + r.output
    requires r.cost == Cost(price, r.input, r.output) && r.wall >= 0
    requires Fits(profile, CountersOf([]), Posting(r.input, r.output, r.total, r.cost, 0), r.wall)
    ensures var reserved := [ReservedEvent(attempt, r, 0, now)];
            var p := Posting(0, 0, 0, Cost(price, 0, 0), profile.retryLimit + 1);
            var settled := [reserved[0], SettledEvent(attempt, r.invocation, p, 0, now)];
            && InOrder(settled) && Within(profile, CountersOf(settled))
            && CountersOf(reserved).sum.retry <= profile.retryLimit < CountersOf(settled).sum.retry
  {
    hide Cost, InOrder, HasEvent, BooksOf, CountersOf, Within, Issued, Fits;
    var e := ReservedEvent(attempt, r, 0, now);
    var p := Posting(0, 0, 0, Cost(price, 0, 0), profile.retryLimit + 1);
    var e' := SettledEvent(attempt, r.invocation, p, 0, now);
    ReservedAlone(profile, price, attempt, r, now);
    NotYetThere([e], e');
    assert [e, e'] == [e] + [e'];
    SettleKeeps(price, attempt, [e], [e, e'], r, p, 0, now);
    CostMonotone(price, 0, 0, r.input, r.output);
    WithinLess(profile, CountersOf([e]), CountersOf([e, e']));
  }

  lemma ReservedAlone(profile: Profile, price: Price, attempt: Id, r: Reservation, now: string)
    requires r.invocation != Text("") && r.input >= 0 && r.output >= 0 && r.total == r.input + r.output
    requires r.cost == Cost(price, r.input, r.output) && r.wall >= 0
    requires Fits(profile, CountersOf([]), Posting(r.input, r.output, r.total, r.cost, 0), r.wall)
    ensures var e := ReservedEvent(attempt, r, 0, now);
            && InOrder([e]) && Issued(price, [e], r) && Within(profile, CountersOf([e]))
            && BooksOf([e]).reserved[r.invocation] == e.entry.posting
            && CountersOf([e]).sum == e.entry.posting
  {
    hide Cost, InOrder, HasEvent, Fits, BooksOf, Effectives, Kept, Within;
    var e := ReservedEvent(attempt, r, 0, now);
    assert [e] == [] + [e];
    NotYetThere([], e);
    NothingPostedInOrder();
    NoCounters();
    NothingIsWithin(profile);
    ReserveKeeps(profile, price, attempt, [], [e], r, 0, now);
    ReservationPosted([], e);
    SumAppended(Effectives(BooksOf([])), e.entry.posting);
    FirstReserved(e);
  }

  lemma FirstReserved(e: Event)
    requires e.entry.Reserved? && Keyed(e)
    ensures e.invocation.value in BooksOf([e]).reserved
    ensures BooksOf([e]).reserved[e.invocation.value] == e.entry.posting
  {
    assert [] + [e] == [e];
    BooksAppended([], e);
  }

  lemma WithinLess(profile: Profile, c: Counters, c': Counters)
    requires Within(profile, c) && c' == c.(sum := c'.sum) && AtMost(c'.sum, c.sum)
    ensures Within(profile, c')
  {
  }

  lemma NothingIsWithin(profile: Profile)
    ensures Within(profile, CountersOf([]))
  {
  }

  lemma NotYetThere(events: seq<Event>, e: Event)
    requires forall i :: 0 <= i < |events| ==> events[i].id != e.id
    ensures !HasEvent(events, e.id)
  {
  }

  lemma NoCounters()
    ensures CountersOf([]) == Counters(0, NOTHING, 0, 0, 0)
  {
  }
}
