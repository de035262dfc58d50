/** Order submission behind the idempotency cache, with requests interleaving at
    every await. */
module Idempotency {

  /** How long a stored result answers for its key, in milliseconds. */
  const TTL: nat := 300000

  /** A collision-free digest of a request body. */
  datatype Hash = Sha256(body: string)

  /** What the cache holds for a key. */
  datatype Entry = Entry(order: nat, bodyHash: Hash, expiresAt: nat)

  /** An incoming request; the empty key stands for an absent header. */
  datatype Request = Request(key: string, body: string, wellFormed: bool)

  datatype Answer =
    | Created(order: nat)
    | Cached(order: nat)
    | Conflict
    | Invalid
    | Unavailable

  /** Where a request stands: before the cache lookup, past it, creating, enqueuing, storing, answered. */
  datatype Phase =
    | Arrived
    | Passed
    | Enqueuing(order: nat)
    | Storing(order: nat)
    | Done(answer: Answer)

  /** How an awaited call ends: its effect and its reply may fail separately. */
  datatype Reply = Ok | Threw(applied: bool)

  /** An order row, by the request that inserted it and the time it did. */
  datatype Order = Order(request: nat, at: nat)

  datatype State = State(
    now: nat,
    cache: map<string, Entry>,
    requests: seq<Request>,
    phases: seq<Phase>,
    orders: seq<Order>)

  datatype Event =
    | Wait(ms: nat)
    | Arrive(request: Request)
    | Lookup(i: nat)
    | Create(i: nat, reply: Reply)
    | Enqueue(i: nat, reply: Reply)
    | Store(i: nat, reply: Reply)

  function Init(): State { State(0, map[], [], [], []) }

  predicate Cacheable(s: State, i: nat)
    requires i < |s.requests|
  {
    s.requests[i].key != ""
  }

  /** The stored result a lookup made now would find: a key is gone once its time is past. */
  predicate Hit(s: State, key: string)
  {
    key in s.cache && s.now <= s.cache[key].expiresAt
  }

  /** The lookup: a hit answers at once, anything else goes on. */
  function LookupPhase(s: State, i: nat): Phase
    requires i < |s.requests|
  {
    var r := s.requests[i];
    if r.key != "" && Hit(s, r.key) then
      if s.cache[r.key].bodyHash != Sha256(r.body) then Done(Conflict)
      else Done(Cached(s.cache[r.key].order))
    else if !r.wellFormed then Done(Invalid)
    else Passed
  }

  predicate Enabled(s: State, e: Event)
  {
    && |s.phases| == |s.requests|
    && match e
       case Wait(_) => true
       case Arrive(_) => true
       case Lookup(i) => i < |s.phases| && s.phases[i] == Arrived
       case Create(i, _) => i < |s.phases| && s.phases[i] == Passed
       case Enqueue(i, _) => i < |s.phases| && s.phases[i].Enqueuing?
       case Store(i, _) => i < |s.phases| && s.phases[i].Storing?
  }

  function Stored(s: State, i: nat): map<string, Entry>
    requires i < |s.requests| && i < |s.phases| && s.phases[i].Storing?
  {
    var r := s.requests[i];
    s.cache[r.key := Entry(s.phases[i].order, Sha256(r.body), s.now + TTL)]
  }

  function Step(s: State, e: Event): State
    requires Enabled(s, e)
  {
    match e
    case Wait(ms) => s.(now := s.now + ms)
    case Arrive(r) => s.(requests := s.requests + [r], phases := s.phases + [Arrived])
    case Lookup(i) => s.(phases := s.phases[i := LookupPhase(s, i)])
    case Create(i, reply) =>
      s.(orders := if reply == Threw(false) then s.orders else s.orders + [Order(i, s.now)],
         phases := s.phases[i := if reply.Ok? then Enqueuing(|s.orders|) else Done(Unavailable)])
    case Enqueue(i, reply) =>
      var order := s.phases[i].order;
      s.(phases := s.phases[i :=
        if reply.Threw? then Done(Unavailable)
        else if Cacheable(s, i) then Storing(order) else Done(Created(order))])
    case Store(i, reply) =>
      s.(cache := if reply == Threw(false) then s.cache else Stored(s, i),
         phases := s.phases[i := if reply.Ok? then Done(Created(s.phases[i].order)) else Done(Unavailable)])
  }

  // ---- Runs ----

  predicate Runs(s: State, es: seq<Event>)
    decreases |es|
  {
    es == [] || (Enabled(s, es[0]) && Runs(Step(s, es[0]), es[1..]))
  }

  function After(s: State, es: seq<Event>): State
    requires Runs(s, es)
    decreases |es|
  {
    if es == [] then s else After(Step(s, es[0]), es[1..])
  }

  // ---- What every run keeps ----

  /** The request and the order a cached entry answers for. */
  ghost predicate EntryFor(s: State, key: string, entry: Entry)
  {
    && entry.order < |s.orders|
    && s.orders[entry.order].request < |s.requests|
    && s.requests[s.orders[entry.order].request].key == key
    && Sha256(s.requests[s.orders[entry.order].request].body) == entry.bodyHash
  }

  ghost predicate PhaseOk(s: State, i: nat)
    requires i < |s.phases|
  {
    match s.phases[i]
    case Enqueuing(o) => o < |s.orders| && s.orders[o].request == i
    case Storing(o) => o < |s.orders| && s.orders[o].request == i && i < |s.requests| && Cacheable(s, i)
    case Done(Created(o)) => o < |s.orders| && s.orders[o].request == i
    case Done(Cached(o)) => o < |s.orders|
    case _ => true
  }

  /** A request in this phase may have inserted an order. */
  predicate MayHaveOrder(p: Phase)
  {
    p.Enqueuing? || p.Storing? || (p.Done? && (p.answer.Created? || p.answer.Unavailable?))
  }

  /** The request that inserted the order is at work on it, has answered with it, or has
      been answered 503. */
  ghost predicate Owner(s: State, o: nat)
    requires o < |s.orders|
  {
    s.orders[o].request < |s.phases|
    && var p := s.phases[s.orders[o].request];
       p == Enqueuing(o) || p == Storing(o) || p == Done(Created(o)) || p == Done(Unavailable)
  }

  ghost predicate Owned(s: State)
  {
    forall o :: 0 <= o < |s.orders| ==> Owner(s, o)
  }

  lemma OwnedStep(s: State, e: Event)
    requires Owned(s) && Enabled(s, e)
    ensures Owned(Step(s, e))
  {
    forall o | 0 <= o < |Step(s, e).orders|
      ensures Owner(Step(s, e), o)
    {
      if o < |s.orders| { assert Owner(s, o); }
    }
  }

  /** Every order has its request, every phase its own order, and every cached
      result an order created under the same key for the same body. */
  ghost predicate Inv(s: State)
  {
    && |s.phases| == |s.requests|
    && (forall o :: 0 <= o < |s.orders| ==> s.orders[o].request < |s.requests| && s.orders[o].at <= s.now)
    && (forall i :: 0 <= i < |s.phases| ==> PhaseOk(s, i))
    && (forall key :: key in s.cache ==> EntryFor(s, key, s.cache[key]))
    && Owned(s)
  }

  lemma PhasesStep(s: State, e: Event, i: nat)
    requires Inv(s) && Enabled(s, e) && i < |Step(s, e).phases|
    ensures PhaseOk(Step(s, e), i)
  {
    var t := Step(s, e);
    if i < |s.phases| {
      assert PhaseOk(s, i);
    }
    if e == Lookup(i) && s.requests[i].key in s.cache {
      assert EntryFor(s, s.requests[i].key, s.cache[s.requests[i].key]);
    }
  }

  lemma CacheStep(s: State, e: Event, key: string)
    requires Inv(s) && Enabled(s, e) && key in Step(s, e).cache
    ensures EntryFor(Step(s, e), key, Step(s, e).cache[key])
  {
    if e.Store? {
      assert PhaseOk(s, e.i);
    }
    if key in s.cache {
      assert EntryFor(s, key, s.cache[key]);
    }
  }

  lemma InvStep(s: State, e: Event)
    requires Inv(s) && Enabled(s, e)
    ensures Inv(Step(s, e))
  {
    var t := Step(s, e);
    OwnedStep(s, e);
    forall i: nat | i < |t.phases|
      ensures PhaseOk(t, i)
    {
      PhasesStep(s, e, i);
    }
    forall key | key in t.cache
      ensures EntryFor(t, key, t.cache[key])
    {
      CacheStep(s, e, key);
    }
  }

  lemma {:induction false} InvRun(s: State, es: seq<Event>)
    requires Inv(s) && Runs(s, es)
    ensures Inv(After(s, es))
    decreases |es|
  {
    if es != [] {
      InvStep(s, es[0]);
      InvRun(Step(s, es[0]), es[1..]);
    }
  }

  // ---- A stored result answers for five minutes ----

  /** A result for the key answers at least until the given time. */
  predicate AnswersUntil(s: State, key: string, until: nat)
  {
    key in s.cache && s.cache[key].expiresAt >= until
  }

  lemma {:induction false} StaysAnswered(s: State, es: seq<Event>, key: string, until: nat)
    requires Runs(s, es) && AnswersUntil(s, key, until) && until <= s.now + TTL
    ensures AnswersUntil(After(s, es), key, until)
    decreases |es|
  {
    if es != [] {
      StaysAnswered(Step(s, es[0]), es[1..], key, until);
    }
  }

  lemma {:induction false} StaysDone(s: State, es: seq<Event>, i: nat)
    requires Runs(s, es) && i < |s.phases| && s.phases[i].Done?
    ensures i < |After(s, es).phases| && After(s, es).phases[i] == s.phases[i]
    decreases |es|
  {
    if es != [] {
      StaysDone(Step(s, es[0]), es[1..], i);
    }
  }

  /** A request answered without an order never has one. */
  lemma StaysOrderless(s: State, es: seq<Event>, i: nat)
    requires Inv(s) && Runs(s, es) && i < |s.phases| && s.phases[i].Done? && !MayHaveOrder(s.phases[i])
    ensures i < |After(s, es).phases| && After(s, es).phases[i] == s.phases[i]
    ensures forall o :: 0 <= o < |After(s, es).orders| ==> After(s, es).orders[o].request != i
  {
    StaysDone(s, es, i);
    InvRun(s, es);
    forall o | 0 <= o < |After(s, es).orders|
      ensures After(s, es).orders[o].request != i
    {
      assert Owner(After(s, es), o);
    }
  }

  /** A request whose lookup comes within five minutes of a store for its key never has
      an order, however the run goes on: it is answered at once, with the id of an order
      created under that key for the same body, or with a conflict when the stored body
      differs. */
  lemma StoredResultAnswers(s: State, i: nat, reply: Reply, es: seq<Event>, j: nat, fs: seq<Event>)
    requires Inv(s) && Enabled(s, Store(i, reply)) && reply != Threw(false)
    requires Runs(Step(s, Store(i, reply)), es)
    requires var t := After(Step(s, Store(i, reply)), es);
             && t.now <= s.now + TTL
             && Enabled(t, Lookup(j)) && t.requests[j].key == s.requests[i].key
             && Runs(Step(t, Lookup(j)), fs)
    ensures var t := After(Step(s, Store(i, reply)), es);
            var u := After(Step(t, Lookup(j)), fs);
            && j < |u.phases|
            && t.requests[j].key in t.cache
            && var entry := t.cache[t.requests[j].key];
            && u.phases[j] == (if Sha256(t.requests[j].body) == entry.bodyHash
                               then Done(Cached(entry.order)) else Done(Conflict))
            && EntryFor(t, t.requests[j].key, entry)
            && forall o :: 0 <= o < |u.orders| ==> u.orders[o].request != j
  {
    var s' := Step(s, Store(i, reply));
    InvStep(s, Store(i, reply));
    InvRun(s', es);
    assert PhaseOk(s, i);
    StaysAnswered(s', es, s.requests[i].key, s.now + TTL);
    InvStep(After(s', es), Lookup(j));
    StaysOrderless(Step(After(s', es), Lookup(j)), fs, j);
  }

  // ---- What a lookup finds ----

  /** A store that took effect. */
  datatype Record = Record(key: string, order: nat, bodyHash: Hash, at: nat)

  predicate Effective(e: Event) { e.Store? && e.reply != Threw(false) }

  function RecordOf(s: State, i: nat): Record
    requires Enabled(s, Store(i, Ok))
  {
    Record(s.requests[i].key, s.phases[i].order, Sha256(s.requests[i].body), s.now)
  }

  /** The stores of a run that took effect, in order. */
  function Stores(s: State, es: seq<Event>): seq<Record>
    requires Runs(s, es)
    decreases |es|
  {
    if es == [] then []
    else RecordsOf(s, es[0]) + Stores(Step(s, es[0]), es[1..])
  }

  /** The last record of a key, or none. */
  function LastOf(records: seq<Record>, key: string): seq<Record>
  {
    if records == [] then []
    else
      var last := records[|records| - 1];
      if last.key == key then [last] else LastOf(records[..|records| - 1], key)
  }

  lemma {:induction false} LastOfConcat(a: seq<Record>, b: seq<Record>, key: string)
    ensures LastOf(a + b, key) == if LastOf(b, key) == [] then LastOf(a, key) else LastOf(b, key)
  {
    if b == [] {
      assert a + b == a;
    } else {
      assert (a + b)[..|a + b| - 1] == a + b[..|b| - 1];
      LastOfConcat(a, b[..|b| - 1], key);
    }
  }

  /** The cache holds a key exactly as its last record says. */
  ghost predicate CacheIs(cache: map<string, Entry>, key: string, last: seq<Record>)
  {
    if last == [] then key !in cache
    else key in cache && cache[key] == Entry(last[0].order, last[0].bodyHash, last[0].at + TTL)
  }

  function RecordsOf(s: State, e: Event): seq<Record>
    requires Enabled(s, e)
  {
    if Effective(e) then [RecordOf(s, e.i)] else []
  }

  lemma CacheStepFollows(s: State, e: Event, key: string, before: seq<Record>)
    requires Enabled(s, e) && CacheIs(s.cache, key, LastOf(before, key))
    ensures CacheIs(Step(s, e).cache, key, LastOf(before + RecordsOf(s, e), key))
  {
    LastOfConcat(before, RecordsOf(s, e), key);
    if Effective(e) {
      assert [RecordOf(s, e.i)][..0] == [];
    }
  }

  lemma Associates(a: seq<Record>, b: seq<Record>, d: seq<Record>)
    ensures a + (b + d) == a + b + d
  {
  }

  lemma {:induction false} CacheFollows(s: State, es: seq<Event>, key: string, before: seq<Record>)
    requires Runs(s, es) && CacheIs(s.cache, key, LastOf(before, key))
    ensures CacheIs(After(s, es).cache, key, LastOf(before + Stores(s, es), key))
    decreases |es|
  {
    if es == [] {
      assert before + [] == before;
    } else {
      CacheStepFollows(s, es[0], key, before);
      CacheFollows(Step(s, es[0]), es[1..], key, before + RecordsOf(s, es[0]));
      Associates(before, RecordsOf(s, es[0]), Stores(Step(s, es[0]), es[1..]));
    }
  }

  /** After every run a lookup goes by the history alone: it is answered from the last
      store of its key that took effect while that is at most five minutes old, and goes
      on, if the request is well-formed, exactly otherwise. */
  lemma LookupGoesByHistory(es: seq<Event>, i: nat)
    requires Runs(Init(), es) && i < |After(Init(), es).requests|
    ensures var s := After(Init(), es);
            var r := s.requests[i];
            var last := LastOf(Stores(Init(), es), r.key);
            LookupPhase(s, i) ==
              if r.key != "" && last != [] && s.now <= last[0].at + 300_000 then
                Done(if last[0].bodyHash == Sha256(r.body) then Cached(last[0].order) else Conflict)
              else if r.wellFormed then Passed else Done(Invalid)
  {
    var key := After(Init(), es).requests[i].key;
    CacheFollows(Init(), es, key, []);
    assert [] + Stores(Init(), es) == Stores(Init(), es);
  }

  // ---- Answers, from what the calls did ----

  /** Whether one of the request's calls threw. */
  ghost predicate CallThrew(es: seq<Event>, i: nat)
  {
    exists applied ::
      Create(i, Threw(applied)) in es || Enqueue(i, Threw(applied)) in es || Store(i, Threw(applied)) in es
  }

  predicate InsertTook(es: seq<Event>, i: nat) { Create(i, Ok) in es || Create(i, Threw(true)) in es }

  /** Whether every call that the request needs has returned. */
  predicate AllReturned(es: seq<Event>, i: nat, key: string)
  {
    Create(i, Ok) in es && Enqueue(i, Ok) in es && (key != "" ==> Store(i, Ok) in es)
  }

  ghost predicate AnswerFrom(es: seq<Event>, s: State, i: nat)
    requires i < |s.phases| == |s.requests|
  {
    && (s.phases[i] == Done(Unavailable) <==> CallThrew(es, i))
    && (s.phases[i].Done? && s.phases[i].answer.Created? <==> AllReturned(es, i, s.requests[i].key))
    && ((exists o :: 0 <= o < |s.orders| && s.orders[o].request == i) <==> InsertTook(es, i))
    && (s.phases[i].Arrived? || s.phases[i].Passed? ==>
          Create(i, Ok) !in es && Enqueue(i, Ok) !in es && Store(i, Ok) !in es)
    && (s.phases[i].Enqueuing? ==> Create(i, Ok) in es && Enqueue(i, Ok) !in es && Store(i, Ok) !in es)
    && (s.phases[i].Storing? ==> Create(i, Ok) in es && Enqueue(i, Ok) in es && Store(i, Ok) !in es)
  }

  ghost predicate Named(e: Event, i: nat) { (e.Create? || e.Enqueue? || e.Store?) && e.i == i }

  ghost predicate AnswersFrom(es: seq<Event>, s: State)
  {
    && |s.phases| == |s.requests|
    && (forall i :: 0 <= i < |s.phases| ==> AnswerFrom(es, s, i))
    && (forall e, i: nat :: e in es && Named(e, i) ==> i < |s.phases|)
  }

  lemma ThrewGrows(es: seq<Event>, e: Event, i: nat)
    ensures CallThrew(es + [e], i)
       <==> CallThrew(es, i) || ((e.Create? || e.Enqueue? || e.Store?) && e.i == i && e.reply.Threw?)
  {
    if (e.Create? || e.Enqueue? || e.Store?) && e.i == i && e.reply.Threw? {
      var a := e.reply.applied;
      assert e == Create(i, Threw(a)) || e == Enqueue(i, Threw(a)) || e == Store(i, Threw(a));
    }
  }

  lemma OrderedGrows(s: State, e: Event, i: nat)
    requires Inv(s) && Enabled(s, e) && i < |s.phases|
    ensures (exists o :: 0 <= o < |Step(s, e).orders| && Step(s, e).orders[o].request == i)
       <==> || (exists o :: 0 <= o < |s.orders| && s.orders[o].request == i)
            || (e.Create? && e.i == i && e.reply != Threw(false))
  {
    var t := Step(s, e);
    if o :| 0 <= o < |s.orders| && s.orders[o].request == i {
      assert t.orders[o].request == i;
    }
    if e.Create? && e.i == i && e.reply != Threw(false) {
      assert t.orders[|s.orders|].request == i;
    }
  }

  lemma AnswerStep(es: seq<Event>, s: State, e: Event, i: nat)
    requires Inv(s) && Enabled(s, e) && AnswersFrom(es, s) && i < |s.phases|
    ensures |Step(s, e).phases| == |Step(s, e).requests| && i < |Step(s, e).phases|
    ensures AnswerFrom(es + [e], Step(s, e), i)
  {
    assert AnswerFrom(es, s, i) && PhaseOk(s, i);
    ThrewGrows(es, e, i);
    OrderedGrows(s, e, i);
  }

  lemma {:induction false} RunAnswers(s: State, before: seq<Event>, es: seq<Event>)
    requires Inv(s) && Runs(s, es) && AnswersFrom(before, s)
    ensures AnswersFrom(before + es, After(s, es))
    decreases |es|
  {
    if es == [] {
      assert before + es == before;
    } else {
      StepAnswers(before, s, es[0]);
      InvStep(s, es[0]);
      RunAnswers(Step(s, es[0]), before + [es[0]], es[1..]);
      assert before + [es[0]] + es[1..] == before + es;
    }
  }

  lemma StepAnswers(es: seq<Event>, s: State, e: Event)
    requires Inv(s) && Enabled(s, e) && AnswersFrom(es, s)
    ensures AnswersFrom(es + [e], Step(s, e))
  {
    var t := Step(s, e);
    forall i: nat | i < |t.phases|
      ensures AnswerFrom(es + [e], t, i)
    {
      if i < |s.phases| { AnswerStep(es, s, e, i); } else { NewcomerAnswers(es, s, e); }
    }
  }

  lemma NewcomerAnswers(es: seq<Event>, s: State, e: Event)
    requires Inv(s) && Enabled(s, e) && AnswersFrom(es, s) && e.Arrive?
    ensures AnswerFrom(es + [e], Step(s, e), |s.phases|)
  {
    var i := |s.phases|;
    ThrewGrows(es, e, i);
    forall r
      ensures Create(i, r) !in es && Enqueue(i, r) !in es && Store(i, r) !in es
    {
      assert Named(Create(i, r), i) && Named(Enqueue(i, r), i) && Named(Store(i, r), i);
    }
    assert Named(Create(i, Ok), i) && Named(Enqueue(i, Ok), i) && Named(Store(i, Ok), i);
    forall o | 0 <= o < |s.orders|
      ensures s.orders[o].request != i
    {
    }
  }

  /** In every run a request is answered 503 exactly if one of its calls threw, and with its
      order exactly if all of them returned; and it has an order exactly if its insert took
      effect, whether or not the reply came back. */
  lemma AnswerIs(es: seq<Event>, i: nat)
    requires Runs(Init(), es) && i < |After(Init(), es).phases|
    ensures var s := After(Init(), es);
            && i < |s.requests|
            && (s.phases[i] == Done(Unavailable) <==> CallThrew(es, i))
            && (s.phases[i].Done? && s.phases[i].answer.Created? <==> AllReturned(es, i, s.requests[i].key))
            && ((exists o :: 0 <= o < |s.orders| && s.orders[o].request == i) <==> InsertTook(es, i))
  {
    RunAnswers(Init(), [], es);
    assert [] + es == es;
    assert AnswerFrom(es, After(Init(), es), i);
  }

  // ---- One order per key and five minutes, when same-key requests do not overlap ----

  predicate InFlight(p: Phase) { p.Passed? || p.Enqueuing? || p.Storing? }

  /** No lookup starts while another request with its key is between lookup and answer. */
  predicate Alone(s: State, e: Event)
    requires Enabled(s, e)
  {
    e.Lookup? ==>
      forall j :: 0 <= j < |s.phases| && j != e.i && s.requests[j].key == s.requests[e.i].key
        ==> !InFlight(s.phases[j])
  }

  predicate SerialRun(s: State, es: seq<Event>)
    decreases |es|
  {
    es == [] || (Enabled(s, es[0]) && Alone(s, es[0]) && SerialRun(Step(s, es[0]), es[1..]))
  }

  lemma {:induction false} SerialRuns(s: State, es: seq<Event>)
    requires SerialRun(s, es)
    ensures Runs(s, es)
    decreases |es|
  {
    if es != [] {
      SerialRuns(Step(s, es[0]), es[1..]);
    }
  }

  predicate SameKey(s: State, i: nat, j: nat)
  {
    i < |s.requests| && j < |s.requests| && s.requests[i].key == s.requests[j].key && s.requests[i].key != ""
  }

  predicate OfKey(s: State, o: nat, key: string)
  {
    o < |s.orders| && s.orders[o].request < |s.requests| && s.requests[s.orders[o].request].key == key
  }

  /** The last order created under the key. */
  ghost predicate Newest(s: State, o: nat, key: string)
  {
    OfKey(s, o, key) && forall q: nat :: q > o ==> !OfKey(s, q, key)
  }

  /** The orders whose result has been stored, after a step and after a run. */
  function KeptNext(s: State, e: Event, kept: set<nat>): set<nat>
    requires Enabled(s, e)
  {
    if Effective(e) then kept + {s.phases[e.i].order} else kept
  }

  function Kept(s: State, es: seq<Event>, kept: set<nat>): set<nat>
    requires Runs(s, es)
    decreases |es|
  {
    if es == [] then kept else Kept(Step(s, es[0]), es[1..], KeptNext(s, es[0], kept))
  }

  /** At most one request of each key is between lookup and answer. */
  ghost predicate OneInFlight(s: State)
  {
    forall i: nat, j: nat :: i != j && i < |s.phases| && j < |s.phases| && SameKey(s, i, j)
      ==> !InFlight(s.phases[i]) || !InFlight(s.phases[j])
  }

  /** Only orders are kept, and the cache holds only kept ones. */
  ghost predicate KeptOrders(s: State, kept: set<nat>)
  {
    && (forall o :: o in kept ==> o < |s.orders|)
    && (forall key :: key in s.cache ==> s.cache[key].order in kept)
  }

  /** A key's newest order: if kept, it answers until five minutes from its creation at
      least; if not, whatever the cache has for the key had expired by its creation. */
  ghost predicate NewestCached(s: State, kept: set<nat>)
  {
    forall o: nat, key :: key != "" && Newest(s, o, key) ==> CachedAs(s, o, key, o in kept)
  }

  ghost predicate CachedAs(s: State, o: nat, key: string, kept: bool)
    requires o < |s.orders|
  {
    if kept then AnswersUntil(s, key, s.orders[o].at + TTL) && s.cache[key].order == o
    else key in s.cache ==> s.cache[key].expiresAt < s.orders[o].at
  }

  /** A request past its lookup would still miss. */
  ghost predicate PassedMisses(s: State)
  {
    forall i: nat :: i < |s.phases| && i < |s.requests| && s.phases[i].Passed? && s.requests[i].key != ""
      ==> !Hit(s, s.requests[i].key)
  }

  /** An order being enqueued or stored is its key's newest. */
  ghost predicate BusyNewest(s: State)
  {
    forall i: nat :: i < |s.phases| && i < |s.requests| && s.requests[i].key != ""
      && (s.phases[i].Enqueuing? || s.phases[i].Storing?)
      ==> Newest(s, s.phases[i].order, s.requests[i].key)
  }

  /** An order answered as created under a key has been kept. */
  ghost predicate AnsweredKept(s: State, kept: set<nat>)
  {
    forall i: nat :: i < |s.phases| && i < |s.requests| && s.requests[i].key != ""
      && s.phases[i].Done? && s.phases[i].answer.Created?
      ==> s.phases[i].answer.order in kept
  }

  /** Order q comes under the same key as order o. */
  predicate Later(s: State, o: nat, q: nat)
  {
    && o < q < |s.orders|
    && s.orders[o].request < |s.requests| && s.orders[q].request < |s.requests|
    && SameKey(s, s.orders[o].request, s.orders[q].request)
  }

  /** Orders of one key are more than five minutes apart, once the earlier one is kept. */
  ghost predicate Spaced(s: State, kept: set<nat>)
  {
    forall o: nat, q: nat :: Later(s, o, q) && o in kept ==> s.orders[o].at + TTL < s.orders[q].at
  }

  ghost predicate SerialInv(s: State, kept: set<nat>)
  {
    && Inv(s) && OneInFlight(s) && KeptOrders(s, kept) && NewestCached(s, kept)
    && PassedMisses(s) && BusyNewest(s) && AnsweredKept(s, kept) && Spaced(s, kept)
  }

  lemma OneInFlightStep(s: State, e: Event)
    requires Inv(s) && OneInFlight(s) && Enabled(s, e) && Alone(s, e)
    ensures OneInFlight(Step(s, e))
  {
    var t := Step(s, e);
    forall i: nat, j: nat | i != j && i < |t.phases| && j < |t.phases| && SameKey(t, i, j)
      ensures !InFlight(t.phases[i]) || !InFlight(t.phases[j])
    {
      if i < |s.phases| && j < |s.phases| {
        assert SameKey(s, i, j);
      }
    }
  }

  predicate Inserts(e: Event) { e.Create? && e.reply != Threw(false) }

  /** Orders keep their keys, and a step adds an order only by an insert that takes effect. */
  lemma OfKeyStep(s: State, e: Event, o: nat, key: string)
    requires Inv(s) && Enabled(s, e)
    ensures o < |s.orders| ==> (OfKey(Step(s, e), o, key) <==> OfKey(s, o, key))
    ensures o < |s.orders| ==> Step(s, e).orders[o] == s.orders[o]
    ensures o >= |s.orders| ==>
              (OfKey(Step(s, e), o, key) <==> Inserts(e) && o == |s.orders| && s.requests[e.i].key == key)
  {
    if o < |s.orders| {
      assert s.orders[o].request < |s.requests|;
    }
  }

  lemma NewestBefore(s: State, e: Event, o: nat, key: string)
    requires Inv(s) && Enabled(s, e) && Newest(Step(s, e), o, key)
    ensures o < |s.orders| ==> Newest(s, o, key) && !(Inserts(e) && s.requests[e.i].key == key)
    ensures o >= |s.orders| ==> Inserts(e) && o == |s.orders| && s.requests[e.i].key == key
  {
    OfKeyStep(s, e, o, key);
    OfKeyStep(s, e, |s.orders|, key);
    forall q: nat | q > o && q < |s.orders|
      ensures !OfKey(s, q, key)
    {
      OfKeyStep(s, e, q, key);
      assert !OfKey(Step(s, e), q, key);
    }
  }

  lemma NewestAfter(s: State, e: Event, o: nat, key: string)
    requires Inv(s) && Enabled(s, e) && Newest(s, o, key) && !(Inserts(e) && s.requests[e.i].key == key)
    ensures Newest(Step(s, e), o, key)
  {
    OfKeyStep(s, e, o, key);
    forall q: nat | q > o
      ensures !OfKey(Step(s, e), q, key)
    {
      OfKeyStep(s, e, q, key);
    }
  }

  lemma CreatedNewest(s: State, e: Event)
    requires Inv(s) && Enabled(s, e) && Inserts(e)
    ensures Newest(Step(s, e), |s.orders|, s.requests[e.i].key)
  {
  }

  lemma KeptOrdersStep(s: State, e: Event, kept: set<nat>)
    requires Inv(s) && KeptOrders(s, kept) && Enabled(s, e)
    ensures KeptOrders(Step(s, e), KeptNext(s, e, kept))
  {
    if e.Store? { assert PhaseOk(s, e.i); }
  }

  lemma NewestCachedStep(s: State, e: Event, kept: set<nat>)
    requires SerialInv(s, kept) && Enabled(s, e)
    ensures NewestCached(Step(s, e), KeptNext(s, e, kept))
  {
    var t := Step(s, e);
    forall o: nat, key | key != "" && Newest(t, o, key)
      ensures CachedAs(t, o, key, o in KeptNext(s, e, kept))
    {
      NewestBefore(s, e, o, key);
      CachedStep(s, e, kept, o, key);
    }
  }

  lemma CachedStep(s: State, e: Event, kept: set<nat>, o: nat, key: string)
    requires SerialInv(s, kept) && Enabled(s, e) && key != "" && o < |Step(s, e).orders|
    requires o < |s.orders| ==> Newest(s, o, key) && CachedAs(s, o, key, o in kept)
    requires o >= |s.orders| ==> Inserts(e) && o == |s.orders| && s.requests[e.i].key == key
    ensures CachedAs(Step(s, e), o, key, o in KeptNext(s, e, kept))
  {
    if o >= |s.orders| {
      assert !Hit(s, key) && o !in kept;
    } else if Effective(e) {
      assert PhaseOk(s, e.i);
      if s.requests[e.i].key == key {
        assert Newest(s, s.phases[e.i].order, key);
        assert s.phases[e.i].order == o;
      } else {
        assert s.phases[e.i].order != o;
      }
    }
  }

  lemma PassedMissesStep(s: State, e: Event, kept: set<nat>)
    requires SerialInv(s, kept) && Enabled(s, e)
    ensures PassedMisses(Step(s, e))
  {
    var t := Step(s, e);
    forall i: nat | i < |t.phases| && i < |t.requests| && t.phases[i].Passed? && t.requests[i].key != ""
      ensures !Hit(t, t.requests[i].key)
    {
      if e.Store? && s.requests[e.i].key == t.requests[i].key {
        assert SameKey(s, i, e.i) && InFlight(s.phases[e.i]);
        assert false;
      }
    }
  }

  lemma BusyNewestStep(s: State, e: Event, kept: set<nat>)
    requires SerialInv(s, kept) && Enabled(s, e)
    ensures BusyNewest(Step(s, e))
  {
    var t := Step(s, e);
    forall i: nat | i < |t.phases| && i < |t.requests| && t.requests[i].key != ""
      && (t.phases[i].Enqueuing? || t.phases[i].Storing?)
      ensures Newest(t, t.phases[i].order, t.requests[i].key)
    {
      if e.Create? && e.i == i {
        CreatedNewest(s, e);
      } else {
        if Inserts(e) { assert !SameKey(s, i, e.i) by { if SameKey(s, i, e.i) { assert InFlight(s.phases[i]); } } }
        NewestAfter(s, e, s.phases[i].order, s.requests[i].key);
      }
    }
  }

  lemma AnsweredKeptStep(s: State, e: Event, kept: set<nat>)
    requires Inv(s) && AnsweredKept(s, kept) && Enabled(s, e)
    ensures AnsweredKept(Step(s, e), KeptNext(s, e, kept))
  {
  }

  /** Some order of a key is its newest. */
  lemma {:induction false} HasNewest(s: State, o: nat, key: string) returns (m: nat)
    requires OfKey(s, o, key)
    ensures o <= m && Newest(s, m, key)
    decreases |s.orders| - o
  {
    if q: nat :| q > o && OfKey(s, q, key) {
      m := HasNewest(s, q, key);
    } else {
      m := o;
    }
  }

  lemma SpacedStep(s: State, e: Event, kept: set<nat>)
    requires SerialInv(s, kept) && Enabled(s, e)
    ensures Spaced(Step(s, e), KeptNext(s, e, kept))
  {
    var t := Step(s, e);
    forall o: nat, q: nat | Later(t, o, q) && o in KeptNext(s, e, kept)
      ensures t.orders[o].at + TTL < t.orders[q].at
    {
      if q < |s.orders| {
        OldSpaced(s, e, kept, o, q);
      } else {
        NewSpaced(s, e, kept, o, q);
      }
    }
  }

  lemma OldSpaced(s: State, e: Event, kept: set<nat>, o: nat, q: nat)
    requires SerialInv(s, kept) && Enabled(s, e) && Later(Step(s, e), o, q) && q < |s.orders|
    requires o in KeptNext(s, e, kept)
    ensures Step(s, e).orders[o].at + TTL < Step(s, e).orders[q].at
  {
    assert s.orders[o].request < |s.requests| && s.orders[q].request < |s.requests|;
    assert Later(s, o, q);
    if o !in kept {
      assert PhaseOk(s, e.i);
      assert Newest(s, o, s.requests[e.i].key);
      assert OfKey(s, q, s.requests[e.i].key);
      assert false;
    }
  }

  lemma NewSpaced(s: State, e: Event, kept: set<nat>, o: nat, q: nat)
    requires SerialInv(s, kept) && Enabled(s, e) && Later(Step(s, e), o, q) && q >= |s.orders|
    requires o in KeptNext(s, e, kept)
    ensures Step(s, e).orders[o].at + TTL < Step(s, e).orders[q].at
  {
    var key := Step(s, e).requests[Step(s, e).orders[q].request].key;
    OfKeyStep(s, e, q, key);
    OfKeyStep(s, e, o, key);
    assert s.phases[e.i].Passed? && !Hit(s, key);
    var m := HasNewest(s, o, key);
    if m == o {
      assert CachedAs(s, o, key, true);
    } else {
      assert Later(s, o, m) && s.orders[m].at <= s.now;
    }
  }

  lemma SerialInvStep(s: State, e: Event, kept: set<nat>)
    requires SerialInv(s, kept) && Enabled(s, e) && Alone(s, e)
    ensures SerialInv(Step(s, e), KeptNext(s, e, kept))
  {
    InvStep(s, e);
    OneInFlightStep(s, e);
    KeptOrdersStep(s, e, kept);
    NewestCachedStep(s, e, kept);
    PassedMissesStep(s, e, kept);
    BusyNewestStep(s, e, kept);
    AnsweredKeptStep(s, e, kept);
    SpacedStep(s, e, kept);
  }

  lemma {:induction false} SerialInvRun(s: State, es: seq<Event>, kept: set<nat>)
    requires SerialInv(s, kept) && SerialRun(s, es)
    ensures Runs(s, es) && SerialInv(After(s, es), Kept(s, es, kept))
    decreases |es|
  {
    if es != [] {
      SerialInvStep(s, es[0], kept);
      SerialInvRun(Step(s, es[0]), es[1..], KeptNext(s, es[0], kept));
    }
  }

  /** The orders whose store took effect in the run. */
  function StoredOrders(es: seq<Event>): set<nat>
    requires Runs(Init(), es)
  {
    Kept(Init(), es, {})
  }

  /** When same-key requests do not overlap, two orders of one key are created more than
      five minutes apart, unless the first one's store did not take effect; and then its
      request was not answered with it. */
  lemma OneOrderPerKey(es: seq<Event>, o: nat, q: nat)
    requires SerialRun(Init(), es)
    ensures Runs(Init(), es)
    ensures var s := After(Init(), es);
            Later(s, o, q) ==>
              && (o in StoredOrders(es) ==> s.orders[o].at + TTL < s.orders[q].at)
              && s.orders[o].request < |s.phases|
              && (o !in StoredOrders(es) ==> s.phases[s.orders[o].request] == Done(Unavailable))
  {
    SerialInvRun(Init(), es, {});
    var s := After(Init(), es);
    if Later(s, o, q) {
      assert Owner(s, o);
      if o !in StoredOrders(es) {
        UnstoredRefused(s, StoredOrders(es), o, q);
      }
    }
  }

  /** Every request that may have an order has answered with it or is at work on it, but
      for the ones answered 503. */
  lemma UnstoredRefused(s: State, kept: set<nat>, o: nat, q: nat)
    requires SerialInv(s, kept) && Later(s, o, q) && o !in kept
    ensures s.phases[s.orders[o].request] == Done(Unavailable)
  {
    var r := s.orders[o].request;
    assert OfKey(s, q, s.requests[r].key);
    assert Owner(s, o);
  }

  /** When same-key requests do not overlap, the next lookup within five minutes of a key's
      newest order leads to another order exactly when that order's store did not take
      effect: when the cache does not hold it. */
  lemma AnotherOrderIff(es: seq<Event>, o: nat, i: nat)
    requires SerialRun(Init(), es)
    ensures Runs(Init(), es)
    ensures var s := After(Init(), es);
            i < |s.requests| && s.requests[i].key != "" && s.requests[i].wellFormed
            && Newest(s, o, s.requests[i].key) && s.now <= s.orders[o].at + TTL
            ==> && (LookupPhase(s, i) == Passed <==> o !in StoredOrders(es))
                && (o in StoredOrders(es) <==> s.requests[i].key in s.cache && s.cache[s.requests[i].key].order == o)
  {
    SerialInvRun(Init(), es, {});
    var s := After(Init(), es);
    if i < |s.requests| && s.requests[i].key != "" && Newest(s, o, s.requests[i].key) {
      assert CachedAs(s, o, s.requests[i].key, o in StoredOrders(es));
    }
  }

  lemma Unfold(s: State, e: Event, es: seq<Event>)
    requires Enabled(s, e) && Runs(Step(s, e), es)
    ensures Runs(s, [e] + es) && After(s, [e] + es) == After(Step(s, e), es)
    ensures Alone(s, e) && SerialRun(Step(s, e), es) ==> SerialRun(s, [e] + es)
  {
    assert ([e] + es)[1..] == es;
  }

  /** Both provisos are needed. Two overlapping lookups put two orders under one key ... */
  lemma OverlapDuplicates(r: Request)
    requires r.key != "" && r.wellFormed
    ensures var es := [Arrive(r)] + ([Arrive(r)] + ([Lookup(0)] + ([Lookup(1)]
                      + ([Create(0, Ok)] + ([Create(1, Ok)] + [])))));
            Runs(Init(), es) && After(Init(), es).orders == [Order(0, 0), Order(1, 0)]
  {
    var s1 := Step(Init(), Arrive(r));
    var s2 := Step(s1, Arrive(r));
    var s3 := Step(s2, Lookup(0));
    var s4 := Step(s3, Lookup(1));
    var s5 := Step(s4, Create(0, Ok));
    var s6 := Step(s5, Create(1, Ok));
    var e6: seq<Event> := [];
    var e5 := [Create(1, Ok)] + e6;
    var e4 := [Create(0, Ok)] + e5;
    var e3 := [Lookup(1)] + e4;
    var e2 := [Lookup(0)] + e3;
    assert s4.phases == [Passed, Passed];
    assert s6.orders == [Order(0, 0), Order(1, 0)];
    Unfold(s5, Create(1, Ok), e6);
    Unfold(s4, Create(0, Ok), e5);
    Unfold(s3, Lookup(1), e4);
    Unfold(s2, Lookup(0), e3);
    Unfold(s1, Arrive(r), e2);
    Unfold(Init(), Arrive(r), [Arrive(r)] + e2);
  }

  /** A request whose enqueue failed: its row stays behind. */
  function LeftBehind(r: Request): State
  {
    State(0, map[], [r], [Done(Unavailable)], [Order(0, 0)])
  }

  lemma RetryOrders(r: Request)
    requires r.key != "" && r.wellFormed
    ensures var es := [Arrive(r)] + ([Lookup(1)] + ([Create(1, Ok)] + []));
            && SerialRun(LeftBehind(r), es) && Runs(LeftBehind(r), es)
            && After(LeftBehind(r), es).orders == [Order(0, 0), Order(1, 0)]
  {
    var s4 := LeftBehind(r);
    var s5 := Step(s4, Arrive(r));
    var s6 := Step(s5, Lookup(1));
    assert s6.phases == [Done(Unavailable), Passed];
    Unfold(s6, Create(1, Ok), []);
    Unfold(s5, Lookup(1), [Create(1, Ok)] + []);
    Unfold(s4, Arrive(r), [Lookup(1)] + ([Create(1, Ok)] + []));
  }

  /** ... and so does a failed enqueue that the client retries. */
  lemma RetryDuplicates(r: Request)
    requires r.key != "" && r.wellFormed
    ensures var es := [Arrive(r)] + ([Lookup(0)] + ([Create(0, Ok)] + ([Enqueue(0, Threw(false))]
                      + ([Arrive(r)] + ([Lookup(1)] + ([Create(1, Ok)] + []))))));
            SerialRun(Init(), es) && Runs(Init(), es) && After(Init(), es).orders == [Order(0, 0), Order(1, 0)]
  {
    var s1 := Step(Init(), Arrive(r));
    var s2 := Step(s1, Lookup(0));
    var s3 := Step(s2, Create(0, Ok));
    var e4 := [Arrive(r)] + ([Lookup(1)] + ([Create(1, Ok)] + []));
    var e3 := [Enqueue(0, Threw(false))] + e4;
    var e2 := [Create(0, Ok)] + e3;
    assert Step(s3, Enqueue(0, Threw(false))) == LeftBehind(r);
    RetryOrders(r);
    Unfold(s3, Enqueue(0, Threw(false)), e4);
    Unfold(s2, Create(0, Ok), e3);
    Unfold(s1, Lookup(0), e2);
    Unfold(Init(), Arrive(r), [Lookup(0)] + e2);
  }

  lemma {:induction false} RunExtends(s: State, es: seq<Event>, e: Event)
    requires Runs(s, es) && Enabled(After(s, es), e)
    ensures Runs(s, es + [e]) && After(s, es + [e]) == Step(After(s, es), e)
    decreases |es|
  {
    if es == [] {
      Unfold(s, e, []);
      assert [] + [e] == [e] + [];
    } else {
      RunExtends(Step(s, es[0]), es[1..], e);
      Unfold(s, es[0], es[1..] + [e]);
      assert es + [e] == [es[0]] + (es[1..] + [e]);
    }
  }

  ghost predicate Reachable(s: State)
  {
    exists es :: Runs(Init(), es) && After(Init(), es) == s
  }

  lemma StepReachable(s: State, e: Event)
    requires Reachable(s) && Enabled(s, e)
    ensures Reachable(Step(s, e))
  {
    var es :| Runs(Init(), es) && After(Init(), es) == s;
    RunExtends(Init(), es, e);
  }

  /** The answer to a request submitted now, if all it awaits returns. */
  function AnswerTo(s: State, r: Request): Answer
  {
    if r.key != "" && Hit(s, r.key) then
      if s.cache[r.key].bodyHash == Sha256(r.body) then Cached(s.cache[r.key].order) else Conflict
    else if !r.wellFormed then Invalid
    else Created(|s.orders|)
  }

  /** The middleware and the controller as the program runs them: one method for
      each stretch between two awaits. */
  class OrderApi {
    var now: nat
    var cache: map<string, Entry>
    var requests: seq<Request>
    var phases: seq<Phase>
    var orders: seq<Order>

    ghost function View(): State
      reads this
    {
      State(now, cache, requests, phases, orders)
    }

    constructor ()
      ensures View() == Init()
    {
      now, cache, requests, phases, orders := 0, map[], [], [], [];
    }

    /** idempotencyMiddleware after its lookup, then the controller's validation. */
    method CheckIdempotency(i: nat)
      requires Enabled(View(), Lookup(i))
      modifies this`phases
      ensures View() == Step(old(View()), Lookup(i))
    {
      var request := requests[i];
      if request.key != "" {
        if request.key in cache && now <= cache[request.key].expiresAt {
          var data := cache[request.key];
          if data.bodyHash != Sha256(request.body) {
            phases := phases[i := Done(Conflict)];
            return;
          }
          phases := phases[i := Done(Cached(data.order))];
          return;
        }
      }
      if !request.wellFormed {
        phases := phases[i := Done(Invalid)];
        return;
      }
      phases := phases[i := Passed];
    }

    /** submitOrder's insert. */
    method CreateOrder(i: nat, reply: Reply)
      requires Enabled(View(), Create(i, reply))
      modifies this`phases, this`orders
      ensures View() == Step(old(View()), Create(i, reply))
    {
      var orderId := |orders|;
      if reply.Ok? || reply.applied {
        orders := orders + [Order(i, now)];
      }
      if reply.Threw? {
        phases := phases[i := Done(Unavailable)];
        return;
      }
      phases := phases[i := Enqueuing(orderId)];
    }

    /** submitOrder's enqueue, and the controller's test of the key. */
    method EnqueueOrder(i: nat, reply: Reply)
      requires Enabled(View(), Enqueue(i, reply))
      modifies this`phases
      ensures View() == Step(old(View()), Enqueue(i, reply))
    {
      var orderId := phases[i].order;
      if reply.Threw? {
        phases := phases[i := Done(Unavailable)];
      } else if requests[i].key != "" {
        phases := phases[i := Storing(orderId)];
      } else {
        phases := phases[i := Done(Created(orderId))];
      }
    }

    /** storeIdempotencyResult, and the controller's answer. */
    method StoreResult(i: nat, reply: Reply)
      requires Enabled(View(), Store(i, reply))
      modifies this`phases, this`cache
      ensures View() == Step(old(View()), Store(i, reply))
    {
      var request, orderId := requests[i], phases[i].order;
      if reply.Ok? || reply.applied {
        cache := cache[request.key := Entry(orderId, Sha256(request.body), now + TTL)];
      }
      phases := phases[i := if reply.Ok? then Done(Created(orderId)) else Done(Unavailable)];
    }

    method Receive(r: Request) returns (i: nat)
      requires Reachable(View()) && |phases| == |requests|
      modifies this`requests, this`phases
      ensures View() == Step(old(View()), Arrive(r)) && Reachable(View())
      ensures i == |old(requests)| < |phases| == |requests|
    {
      StepReachable(View(), Arrive(r));
      i := |requests|;
      requests, phases := requests + [r], phases + [Arrived];
    }

    /** Time passes. */
    method Pass(ms: nat)
      requires Reachable(View()) && |phases| == |requests|
      modifies this`now
      ensures View() == Step(old(View()), Wait(ms)) && Reachable(View())
    {
      StepReachable(View(), Wait(ms));
      now := now + ms;
    }

    /** The insert, the enqueue and the store of a request past its lookup, all of which return. */
    method Complete(i: nat)
      requires Reachable(View()) && i < |phases| == |requests| && phases[i].Passed?
      modifies this`phases, this`orders, this`cache
      ensures Reachable(View()) && |phases| == |old(phases)|
      ensures phases[i] == Done(Created(|old(orders)|)) && orders == old(orders) + [Order(i, now)]
      ensures requests[i].key != "" ==> (
          requests[i].key in cache
          && cache[requests[i].key] == Entry(|old(orders)|, Sha256(requests[i].body), now + TTL))
    {
      StepReachable(View(), Create(i, Ok));
      CreateOrder(i, Ok);
      StepReachable(View(), Enqueue(i, Ok));
      EnqueueOrder(i, Ok);
      if phases[i].Storing? {
        StepReachable(View(), Store(i, Ok));
        StoreResult(i, Ok);
      }
    }

    /** A submission from end to end, in any reachable state. */
    method ExecuteOrder(r: Request) returns (answer: Answer)
      requires Reachable(View()) && |phases| == |requests|
      modifies this
      ensures Reachable(View()) && |phases| == |requests| && now == old(now)
      ensures answer == AnswerTo(old(View()), r)
      ensures orders == if answer.Created? then old(orders) + [Order(|old(requests)|, now)] else old(orders)
      ensures answer.Created? && r.key != "" ==>
                r.key in cache && cache[r.key] == Entry(answer.order, Sha256(r.body), now + TTL)
      ensures !answer.Created? ==> cache == old(cache)
    {
      var i := Receive(r);
      StepReachable(View(), Lookup(i));
      CheckIdempotency(i);
      if phases[i].Done? {
        return phases[i].answer;
      }
      Complete(i);
      return phases[i].answer;
    }

    /** Two well-formed submissions under a new key, `ms` apart. Within five minutes there is
        one order: the same body gets its id both times, another one a conflict. Later there
        are two. */
    method SubmitTwice(r: Request, again: Request, ms: nat) returns (first: Answer, second: Answer)
      requires Reachable(View()) && |phases| == |requests|
      requires r.key != "" && r.wellFormed && !Hit(View(), r.key) && again.key == r.key && again.wellFormed
      modifies this
      ensures Reachable(View()) && first == Created(|old(orders)|)
      ensures if ms <= 300_000 then
                |orders| == |old(orders)| + 1
                && second == (if again.body == r.body then Cached(|old(orders)|) else Conflict)
              else |orders| == |old(orders)| + 2 && second == Created(|old(orders)| + 1)
    {
      first := ExecuteOrder(r);
      Pass(ms);
      second := ExecuteOrder(again);
    }
  }
}
