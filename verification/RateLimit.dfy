/** The sliding-window limiter: a sorted set per client, pruned, counted, added to
    and given an expiry on every request, against the full request history. */
module RateLimit {

  /** The window, in milliseconds. */
  const WINDOW: nat := 60000

  /** A member of the sorted set: the request time and the random suffix. */
  datatype Entry = Entry(score: nat, nonce: nat)

  datatype Key = Key(entries: set<Entry>, expiresAt: nat)

  type Store = map<string, Key>

  /** A request: `now` is the program's clock when it reads it, `at` is Redis's when it
      executes the transaction. */
  datatype Request = Request(ip: string, now: nat, at: nat, nonce: nat)

  /** What the middleware answers: whether it lets the request through, and the
      X-RateLimit-Remaining header. */
  datatype Reply = Reply(admitted: bool, remaining: nat)

  /** The stored members that a command executed at `at` sees: a key is gone once its time
      is past. */
  function Seen(store: Store, ip: string, at: nat): set<Entry>
  {
    if ip in store && at <= store[ip].expiresAt then store[ip].entries else {}
  }

  function Prune(entries: set<Entry>, now: nat): set<Entry>
  {
    set e | e in entries && !(0 <= e.score <= now - WINDOW)
  }

  function EntryOf(r: Request): Entry { Entry(r.now, r.nonce) }

  /** The transaction's effect on the store. */
  function After(store: Store, r: Request): Store
  {
    store[r.ip := Key(Prune(Seen(store, r.ip, r.at), r.now) + {EntryOf(r)}, r.at + WINDOW)]
  }

  /** The answer, from the count taken between pruning and adding. */
  function Answer(store: Store, limit: nat, r: Request): Reply
  {
    var count := |Prune(Seen(store, r.ip, r.at), r.now)|;
    Reply(count < limit, if limit - count - 1 > 0 then limit - count - 1 else 0)
  }

  /** The limiter as the program runs it, one transaction per request. */
  class Limiter {
    var store: Store
    const limit: nat

    constructor (limit: nat)
      ensures store == map[] && this.limit == limit
    {
      store := map[];
      this.limit := limit;
    }

    method Handle(r: Request) returns (reply: Reply)
      modifies this
      ensures store == After(old(store), r)
      ensures reply == Answer(old(store), limit, r)
    {
      // multi: expired keys read as absent
      var entries := if r.ip in store && r.at <= store[r.ip].expiresAt then store[r.ip].entries else {};
      // zremrangebyscore
      entries := set e | e in entries && e.score > r.now - WINDOW;
      // zcard
      var count := |entries|;
      assert entries == Prune(Seen(store, r.ip, r.at), r.now);
      // zadd, expire
      entries := entries + {Entry(r.now, r.nonce)};
      store := store[r.ip := Key(entries, r.at + WINDOW)];
      var remaining := if limit - count - 1 > 0 then limit - count - 1 else 0;
      if count >= limit {
        return Reply(false, remaining);
      }
      return Reply(true, remaining);
    }
  }

  // ---- Whole runs ----

  /** Requests in the order Redis executes them: neither clock runs backwards, and no two
      add the same member. */
  ghost predicate Valid(h: seq<Request>)
  {
    && (forall i, j :: 0 <= i <= j < |h| ==> h[i].now <= h[j].now && h[i].at <= h[j].at)
    && (forall i, j :: 0 <= i < j < |h| ==> EntryOf(h[i]) != EntryOf(h[j]))
  }

  function StoreAfter(h: seq<Request>): Store
  {
    if h == [] then map[] else After(StoreAfter(h[..|h| - 1]), h[|h| - 1])
  }

  function ReplyTo(h: seq<Request>, limit: nat, i: nat): Reply
    requires i < |h|
  {
    Answer(StoreAfter(h[..i]), limit, h[i])
  }

  /** The earlier attempts of `ip` younger than the window at time `now`. */
  function Recent(h: seq<Request>, ip: string, now: nat): set<nat>
  {
    set i: nat | i < |h| && h[i].ip == ip && h[i].now > now - WINDOW
  }

  /** From attempt i on, and up to a command executed at `at`, no two consecutive
      executions for `ip` are more than a window apart on Redis's clock. */
  predicate NoGap(h: seq<Request>, ip: string, i: nat, at: nat)
  {
    i >= |h|
    || (var last := h[|h| - 1];
        if last.ip == ip then at <= last.at + WINDOW && NoGap(h[..|h| - 1], ip, i, last.at)
        else NoGap(h[..|h| - 1], ip, i, at))
  }

  /** The recent attempts a transaction still finds: those whose key has not expired since. */
  function Remembered(h: seq<Request>, ip: string, now: nat, at: nat): set<nat>
  {
    set i | i in Recent(h, ip, now) && NoGap(h, ip, i, at)
  }

  function Members(h: seq<Request>, s: set<nat>): set<Entry>
    requires forall i :: i in s ==> i < |h|
  {
    set i | i in s :: EntryOf(h[i])
  }

  /** A later request of the same client: what it remembers, and what is remembered of it. */
  lemma RememberedNext(p: seq<Request>, r: Request, now: nat, at: nat)
    requires r.now <= now && forall i :: 0 <= i < |p| ==> p[i].now <= r.now
    ensures Remembered(p + [r], r.ip, now, at)
         == if at <= r.at + WINDOW then
              set i | i in Remembered(p, r.ip, r.now, r.at) + {|p|} && (p + [r])[i].now > now - WINDOW
            else {}
  {
    var h := p + [r];
    assert h[..|p|] == p;
    forall i: nat | i <= |p|
      ensures i in Remembered(h, r.ip, now, at)
         <==> at <= r.at + WINDOW && i in Remembered(p, r.ip, r.now, r.at) + {|p|} && h[i].now > now - WINDOW
    {
      assert NoGap(h, r.ip, i, at) == (at <= r.at + WINDOW && NoGap(p, r.ip, i, r.at));
      if i < |p| { assert h[i] == p[i]; }
    }
  }

  lemma RememberedOther(p: seq<Request>, r: Request, ip: string, now: nat, at: nat)
    requires r.ip != ip
    ensures Remembered(p + [r], ip, now, at) == Remembered(p, ip, now, at)
  {
    var h := p + [r];
    assert h[..|p|] == p;
    forall i: nat | i < |p|
      ensures h[i] == p[i] && NoGap(h, ip, i, at) == NoGap(p, ip, i, at)
    {
    }
  }

  lemma MembersSame(p: seq<Request>, r: Request, s: set<nat>)
    requires forall i :: i in s ==> i < |p|
    ensures Members(p + [r], s) == Members(p, s)
  {
    forall i | i in s
      ensures (p + [r])[i] == p[i]
    {
    }
  }

  /** What a transaction finds after pruning, for every history: the members of the
      attempts it remembers. */
  lemma {:induction false} FindsRemembered(h: seq<Request>, ip: string, now: nat, at: nat)
    requires Valid(h) && forall i :: 0 <= i < |h| ==> h[i].now <= now && h[i].at <= at
    ensures Prune(Seen(StoreAfter(h), ip, at), now) == Members(h, Remembered(h, ip, now, at))
    decreases |h|
  {
    if h != [] {
      var p, r := h[..|h| - 1], h[|h| - 1];
      assert h == p + [r];
      if r.ip != ip {
        FindsRemembered(p, ip, now, at);
        RememberedOther(p, r, ip, now, at);
        MembersSame(p, r, Remembered(p, ip, now, at));
      } else {
        FindsRemembered(p, ip, r.now, r.at);
        RememberedNext(p, r, now, at);
        StoreNext(p, r, at);
        PruneMembers(p, r, Remembered(p, ip, r.now, r.at), now);
      }
    }
  }

  lemma StoreNext(p: seq<Request>, r: Request, at: nat)
    ensures Seen(StoreAfter(p + [r]), r.ip, at)
         == if at <= r.at + WINDOW then Prune(Seen(StoreAfter(p), r.ip, r.at), r.now) + {EntryOf(r)} else {}
  {
    assert (p + [r])[..|p|] == p;
  }

  /** Pruning members is dropping their attempts. */
  lemma PruneMembers(p: seq<Request>, r: Request, s: set<nat>, now: nat)
    requires forall i :: i in s ==> i < |p|
    ensures Prune(Members(p, s) + {EntryOf(r)}, now)
         == Members(p + [r], set i | i in s + {|p|} && (p + [r])[i].now > now - WINDOW)
  {
    var h := p + [r];
    var kept := set i | i in s + {|p|} && h[i].now > now - WINDOW;
    forall e | e in Prune(Members(p, s) + {EntryOf(r)}, now)
      ensures e in Members(h, kept)
    {
      if e == EntryOf(r) {
        assert |p| in kept && h[|p|] == r;
      } else {
        var i :| i in s && EntryOf(p[i]) == e;
        assert i in kept && h[i] == p[i];
      }
    }
    forall i | i in kept
      ensures EntryOf(h[i]) in Prune(Members(p, s) + {EntryOf(r)}, now)
    {
      if i < |p| { assert h[i] == p[i] && EntryOf(p[i]) in Members(p, s); }
    }
  }

  /** The pruned set is the attempts of the last 60 seconds exactly when, from the first
      of them on, the client's executions were never more than a window apart: only then is
      the key's expiry unobservable. */
  lemma PrunedIsRecentIff(h: seq<Request>, ip: string, now: nat, at: nat)
    requires Valid(h) && forall i :: 0 <= i < |h| ==> h[i].now <= now && h[i].at <= at
    ensures Prune(Seen(StoreAfter(h), ip, at), now) == Members(h, Recent(h, ip, now))
       <==> forall i :: i in Recent(h, ip, now) ==> NoGap(h, ip, i, at)
  {
    FindsRemembered(h, ip, now, at);
    var recent, remembered := Recent(h, ip, now), Remembered(h, ip, now, at);
    if Members(h, remembered) == Members(h, recent) {
      forall i | i in recent
        ensures NoGap(h, ip, i, at)
      {
        assert EntryOf(h[i]) in Members(h, recent);
        var j :| j in remembered && EntryOf(h[j]) == EntryOf(h[i]);
        assert j == i;
      }
    } else {
      assert remembered != recent;
    }
  }

  /** A steady connection forgets nothing: if no request took longer to reach Redis than
      the ones before it, every recent attempt is remembered. */
  lemma {:induction false} SteadyIsRemembered(h: seq<Request>, ip: string, i: nat, now: nat, at: nat)
    requires Valid(h) && i in Recent(h, ip, now)
    requires forall l :: i <= l < |h| ==> h[l].now <= now
    requires forall l, m :: i <= l <= m < |h| ==> h[m].at - h[m].now <= h[l].at - h[l].now
    requires forall l :: i <= l < |h| ==> at - now <= h[l].at - h[l].now
    ensures NoGap(h, ip, i, at)
    decreases |h|
  {
    var p, last := h[..|h| - 1], h[|h| - 1];
    if i < |p| {
      forall l, m | 0 <= l <= m < |p|
        ensures p[l] == h[l] && p[m] == h[m]
      {
      }
      if last.ip == ip {
        SteadyIsRemembered(p, ip, i, last.now, last.at);
      } else {
        SteadyIsRemembered(p, ip, i, now, at);
      }
    }
  }

  lemma {:induction false} ImageSize(h: seq<Request>, s: set<nat>)
    requires forall i :: i in s ==> i < |h|
    requires forall i, j :: i in s && j in s && EntryOf(h[i]) == EntryOf(h[j]) ==> i == j
    ensures |Members(h, s)| == |s|
    decreases |s|
  {
    if s != {} {
      var x :| x in s;
      var rest := s - {x};
      ImageSize(h, rest);
      assert Members(h, s) == Members(h, rest) + {EntryOf(h[x])};
      assert |s| == |rest| + 1;
    }
  }

  lemma ValidPrefix(h: seq<Request>, i: nat)
    requires Valid(h) && i <= |h|
    ensures Valid(h[..i])
    ensures forall j :: 0 <= j < i < |h| ==> h[..i][j].now <= h[i].now && h[..i][j].at <= h[i].at
  {
  }

  /** The attempts that request i still finds. */
  function RememberedBy(h: seq<Request>, i: nat): set<nat>
    requires i < |h|
  {
    Remembered(h[..i], h[i].ip, h[i].now, h[i].at)
  }

  function RecentFor(h: seq<Request>, i: nat): set<nat>
    requires i < |h|
  {
    Recent(h[..i], h[i].ip, h[i].now)
  }

  /** Every answer of every history: a request is let through exactly when fewer than
      `limit` attempts of its client, let through or not, are remembered from the 60
      seconds before it. */
  lemma AnswersFromHistory(h: seq<Request>, limit: nat, i: nat)
    requires Valid(h) && i < |h|
    ensures var c := |RememberedBy(h, i)|;
            && (ReplyTo(h, limit, i).admitted <==> c < limit)
            && (c < limit ==> ReplyTo(h, limit, i).remaining == limit - 1 - c)
            && (c >= limit ==> ReplyTo(h, limit, i).remaining == 0)
  {
    var p := h[..i];
    ValidPrefix(h, i);
    FindsRemembered(p, h[i].ip, h[i].now, h[i].at);
    ImageSize(p, RememberedBy(h, i));
  }

  // ---- Consequences ----

  /** The admitted requests of `ip` with times in [from, from + 60 s). */
  ghost function AdmittedIn(h: seq<Request>, limit: nat, ip: string, from: nat): set<nat>
  {
    set i: nat | i < |h| && h[i].ip == ip && from <= h[i].now < from + WINDOW && ReplyTo(h, limit, i).admitted
  }

  ghost predicate IsLast(s: set<nat>, m: nat)
  {
    m in s && forall i :: i in s ==> i <= m
  }

  lemma {:induction false} Largest(s: set<nat>) returns (m: nat)
    requires s != {}
    ensures IsLast(s, m)
    decreases |s|
  {
    var x :| x in s;
    m := x;
    if s != {x} {
      var k := Largest(s - {x});
      m := if k > x then k else x;
      assert forall y :: y in s ==> y == x || y in s - {x};
    }
  }

  lemma SubsetSize<T>(a: set<T>, b: set<T>)
    requires a <= b
    ensures |a| <= |b|
  {
    assert b == a + (b - a);
  }

  /** From each request admitted in the interval to the last of them the client's executions
      are never more than a window apart. */
  ghost predicate NoGapWithin(h: seq<Request>, limit: nat, ip: string, from: nat)
  {
    forall m: nat | IsLast(AdmittedIn(h, limit, ip, from), m) ::
      forall i: nat :: i in AdmittedIn(h, limit, ip, from) ==> NoGap(h[..m], ip, i, h[m].at)
  }

  lemma LastFindsOthers(h: seq<Request>, limit: nat, ip: string, from: nat, m: nat)
    requires Valid(h) && IsLast(AdmittedIn(h, limit, ip, from), m) && NoGapWithin(h, limit, ip, from)
    ensures AdmittedIn(h, limit, ip, from) - {m} <= RememberedBy(h, m)
  {
    forall i | i in AdmittedIn(h, limit, ip, from) - {m}
      ensures i in RememberedBy(h, m)
    {
      assert i < m && h[..m][i] == h[i];
    }
  }

  /** At most `limit` requests of a client are admitted in any half-open 60-second interval
      within which its executions leave no gap of more than a window. */
  lemma AtMostLimit(h: seq<Request>, limit: nat, ip: string, from: nat)
    requires Valid(h) && NoGapWithin(h, limit, ip, from)
    ensures |AdmittedIn(h, limit, ip, from)| <= limit
  {
    var a := AdmittedIn(h, limit, ip, from);
    if a != {} {
      var m := Largest(a);
      AnswersFromHistory(h, limit, m);
      LastFindsOthers(h, limit, ip, from, m);
      SubsetSize(a - {m}, RememberedBy(h, m));
    }
  }

  /** The proviso is needed: two requests stamped 59999 ms apart and executed 60001 ms
      apart are both admitted under a limit of one, within one half-open minute. */
  lemma ExpiryDoublesLimit(ip: string)
    ensures var h := [Request(ip, 0, 1, 0), Request(ip, 59999, 60002, 1)];
            Valid(h) && AdmittedIn(h, 1, ip, 0) == {0, 1}
  {
    var h := [Request(ip, 0, 1, 0), Request(ip, 59999, 60002, 1)];
    AnswersFromHistory(h, 1, 0);
    AnswersFromHistory(h, 1, 1);
    assert RememberedBy(h, 0) == {};
    assert h[..1] == [h[0]];
    assert !NoGap(h[..1], ip, 0, 60002);
    assert RememberedBy(h, 1) == {};
  }

  /** The requests of `ip` strictly between positions i and j. */
  ghost function Between(h: seq<Request>, ip: string, i: nat, j: nat): set<nat>
    requires j <= |h|
  {
    set l: nat | i < l < j && h[l].ip == ip
  }

  /** What j remembers from before i, an earlier request of the client, i remembered too. */
  lemma {:induction false} GapsBefore(h: seq<Request>, l: nat, i: nat, j: nat, at: nat)
    requires l < i < j <= |h| && NoGap(h[..j], h[i].ip, l, at)
    ensures NoGap(h[..i], h[i].ip, l, h[i].at)
    decreases j
  {
    assert h[..j][..j - 1] == h[..j - 1];
    if j > i + 1 {
      GapsBefore(h, l, i, j - 1, if h[j - 1].ip == h[i].ip then h[j - 1].at else at);
    }
  }

  /** A later request finds no more than i did, i itself and the requests in between. */
  lemma LaterFinds(h: seq<Request>, i: nat, j: nat)
    requires Valid(h) && i < j < |h| && h[i].ip == h[j].ip
    ensures RememberedBy(h, j) <= RememberedBy(h, i) + {i} + Between(h, h[i].ip, i, j)
  {
    forall l | l in RememberedBy(h, j)
      ensures l in RememberedBy(h, i) + {i} + Between(h, h[i].ip, i, j)
    {
      assert h[..j][l] == h[l];
      if l < i {
        assert h[..i][l] == h[l] && h[i].now <= h[j].now;
        GapsBefore(h, l, i, j, h[j].at);
      }
    }
  }

  /** An admitted answer that reports r remaining admits the client's next r
      requests, whenever they come and however late they are executed. */
  lemma RemainingIsGuaranteed(h: seq<Request>, limit: nat, i: nat, j: nat)
    requires Valid(h) && i < j < |h| && h[i].ip == h[j].ip
    requires ReplyTo(h, limit, i).admitted
    requires |Between(h, h[i].ip, i, j)| < ReplyTo(h, limit, i).remaining
    ensures ReplyTo(h, limit, j).admitted
  {
    AnswersFromHistory(h, limit, i);
    AnswersFromHistory(h, limit, j);
    var before, between := RememberedBy(h, i), Between(h, h[i].ip, i, j);
    LaterFinds(h, i, j);
    SubsetSize(RememberedBy(h, j), before + {i} + between);
    UnionSize(before, {i});
    UnionSize(before + {i}, between);
  }

  lemma UnionSize<T>(a: set<T>, b: set<T>)
    ensures |a + b| <= |a| + |b|
  {
    assert a + b == a + (b - a);
    SubsetSize(b - a, b);
  }

  /** A request with `limit` attempts in its window is refused if none of them is
      forgotten, let through or not; with exactly `limit` of them, only then. */
  lemma RefusalsCount(h: seq<Request>, limit: nat, i: nat)
    requires Valid(h) && i < |h| && |RecentFor(h, i)| >= limit
    ensures RememberedBy(h, i) == RecentFor(h, i) ==> !ReplyTo(h, limit, i).admitted
    ensures |RecentFor(h, i)| == limit ==> (!ReplyTo(h, limit, i).admitted <==> RememberedBy(h, i) == RecentFor(h, i))
  {
    AnswersFromHistory(h, limit, i);
    if RememberedBy(h, i) != RecentFor(h, i) {
      assert RecentFor(h, i) == RememberedBy(h, i) + (RecentFor(h, i) - RememberedBy(h, i));
    }
  }

  /** Sixty seconds without an attempt restore admission in full. */
  lemma SilenceRestores(h: seq<Request>, limit: nat, i: nat)
    requires Valid(h) && i < |h| && limit > 0
    requires forall l :: 0 <= l < i && h[l].ip == h[i].ip ==> h[l].now + WINDOW <= h[i].now
    ensures ReplyTo(h, limit, i) == Reply(true, limit - 1)
  {
    AnswersFromHistory(h, limit, i);
    forall l: nat | l < i
      ensures l !in RecentFor(h, i)
    {
      assert h[..i][l] == h[l];
    }
    assert RememberedBy(h, i) == {};
  }
}
