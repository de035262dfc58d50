/** Channel agreement: under every interleaving the subscriber connection is subscribed
    to what the live sockets need. */
module Channels {
  import opened WebSocket

  predicate Mapped(p: Phase) { p.AwaitSub? || p.Live? || p.AwaitUnsub? }

  /** Every command whose caller has not resumed is the one that caller waits for. */
  ghost predicate Tickets(s: State)
  {
    && s.resumed <= s.acked <= s.applied <= |s.cmds|
    && (forall t :: s.resumed <= t < |s.cmds| ==> s.cmds[t].socket < |s.sockets| && WaitsFor(s, t))
    && (forall i :: 0 <= i < |s.sockets| ==> HasTicket(s, i))
  }

  ghost predicate WaitsFor(s: State, t: nat)
    requires t < |s.cmds| && s.cmds[t].socket < |s.sockets|
  {
    s.sockets[s.cmds[t].socket].phase == if s.cmds[t].kind == Sub then AwaitSub(t) else AwaitUnsub(t)
  }

  ghost predicate HasTicket(s: State, i: nat)
    requires i < |s.sockets|
  {
    var x := s.sockets[i];
    && (x.phase.AwaitSub? ==> s.resumed <= x.phase.ticket < |s.cmds| && s.cmds[x.phase.ticket] == Cmd(x.order, Sub, i))
    && (x.phase.AwaitUnsub? ==>
          s.resumed <= x.phase.ticket < |s.cmds| && s.cmds[x.phase.ticket] == Cmd(x.order, Unsub, i))
  }

  /** The subscriptions map holds exactly the sockets from subscribe to unsubscribe. */
  ghost predicate Maps(s: State)
  {
    && (forall i :: i in s.subscriptions ==> i < |s.sockets|)
    && (forall i :: 0 <= i < |s.sockets| ==> (i in s.subscriptions <==> Mapped(s.sockets[i].phase)))
    && (forall i :: i in s.subscriptions && i < |s.sockets| ==> s.subscriptions[i] == s.sockets[i].order)
  }

  /** While one socket awaits its unsubscribe, every other socket of the channel is still
      awaiting a subscribe queued behind it. */
  ghost predicate Behind(s: State)
  {
    forall i, j :: 0 <= i < |s.sockets| && 0 <= j < |s.sockets| && i != j
      && s.sockets[i].phase.AwaitUnsub? && s.sockets[j].order == s.sockets[i].order
      && Mapped(s.sockets[j].phase)
      ==> s.sockets[j].phase.AwaitSub? && s.sockets[j].phase.ticket > s.sockets[i].phase.ticket
  }

  /** A live socket's channel was subscribed when the last resumed caller resumed. */
  ghost predicate LiveHeard(s: State)
  {
    s.resumed <= |s.cmds|
    && forall i :: 0 <= i < |s.sockets| && s.sockets[i].phase == Live ==>
         Subscribed(s.cmds, s.resumed, s.sockets[i].order)
  }

  ghost predicate Wants(s: State, i: nat, channel: nat)
  {
    i < |s.sockets| && s.sockets[i].order == channel && (s.sockets[i].phase.AwaitSub? || s.sockets[i].phase == Live)
  }

  /** The last command of every channel subscribes exactly when some socket wants it. */
  ghost predicate LastWord(s: State)
  {
    forall channel :: Subscribed(s.cmds, |s.cmds|, channel) <==> exists i :: Wants(s, i, channel)
  }

  ghost predicate Inv(s: State)
  {
    Tickets(s) && Maps(s) && Behind(s) && LiveHeard(s) && LastWord(s)
  }

  // ---- The command log ----

  lemma {:induction false} SubscribedPrefix(cmds: seq<Cmd>, cmd: Cmd, n: nat, channel: nat)
    requires n <= |cmds|
    ensures Subscribed(cmds + [cmd], n, channel) == Subscribed(cmds, n, channel)
  {
    if n > 0 {
      SubscribedPrefix(cmds, cmd, n - 1, channel);
    }
  }

  lemma SubscribedNext(cmds: seq<Cmd>, cmd: Cmd, channel: nat)
    ensures Subscribed(cmds + [cmd], |cmds| + 1, channel)
         == if cmd.channel == channel then cmd.kind == Sub else Subscribed(cmds, |cmds|, channel)
  {
    SubscribedPrefix(cmds, cmd, |cmds|, channel);
  }

  // ---- Steps that leave the channel bookkeeping alone ----

  /** Same commands, same resumed callers, and every socket is as it was or is one the
      bookkeeping does not know before and after. */
  ghost predicate Aside(s: State, t: State)
  {
    && t.cmds == s.cmds && t.resumed == s.resumed && t.subscriptions == s.subscriptions
    && t.resumed <= t.acked <= t.applied <= |t.cmds|
    && |s.sockets| <= |t.sockets|
    && (forall i :: |s.sockets| <= i < |t.sockets| ==> !Mapped(t.sockets[i].phase))
    && (forall i :: 0 <= i < |s.sockets| ==>
          && t.sockets[i].order == s.sockets[i].order
          && (t.sockets[i].phase == s.sockets[i].phase
              || (!Mapped(t.sockets[i].phase) && !Mapped(s.sockets[i].phase))))
  }

  lemma AsideKeeps(s: State, t: State)
    requires Inv(s) && Aside(s, t)
    ensures Inv(t)
  {
    forall u | t.resumed <= u < |t.cmds|
      ensures t.cmds[u].socket < |t.sockets| && WaitsFor(t, u)
    {
      assert WaitsFor(s, u);
    }
    forall i | 0 <= i < |t.sockets|
      ensures HasTicket(t, i)
    {
      if i < |s.sockets| { assert HasTicket(s, i); }
    }
    AsideWants(s, t);
  }

  lemma AsideWants(s: State, t: State)
    requires LastWord(s) && Aside(s, t)
    ensures LastWord(t)
  {
    forall channel
      ensures Subscribed(t.cmds, |t.cmds|, channel) <==> exists i :: Wants(t, i, channel)
    {
      if i: nat :| Wants(s, i, channel) { assert Wants(t, i, channel); }
      if i: nat :| Wants(t, i, channel) { assert i < |s.sockets| && Wants(s, i, channel); }
    }
  }

  // ---- A socket subscribes ----

  lemma SubscribeKeeps(s: State, i: nat)
    requires Inv(s) && CanStep(s, Subscribe(i))
    ensures Inv(Step(s, Subscribe(i)))
  {
    var t := SubscribeStep(s, i);
    Grows(s, t, i, Cmd(s.sockets[i].order, Sub, i));
    SubscribeLastWord(s, i);
    SubscribeBehind(s, i);
  }

  lemma SubscribeBehind(s: State, i: nat)
    requires Tickets(s) && Behind(s) && CanStep(s, Subscribe(i))
    ensures Behind(SubscribeStep(s, i))
  {
    var t := SubscribeStep(s, i);
    forall j, k | 0 <= j < |t.sockets| && 0 <= k < |t.sockets| && j != k
      && t.sockets[j].phase.AwaitUnsub? && t.sockets[k].order == t.sockets[j].order
      && Mapped(t.sockets[k].phase)
      ensures t.sockets[k].phase.AwaitSub? && t.sockets[k].phase.ticket > t.sockets[j].phase.ticket
    {
      assert HasTicket(s, j);
    }
  }

  /** A command appended together with its caller's wait for it. */
  ghost predicate Appends(s: State, t: State, i: nat, cmd: Cmd)
  {
    && i < |s.sockets| == |t.sockets| && cmd.socket == i && cmd.channel == s.sockets[i].order
    && !s.sockets[i].phase.AwaitSub? && !s.sockets[i].phase.AwaitUnsub?
    && t.cmds == s.cmds + [cmd] && t.resumed == s.resumed && t.acked == s.acked && t.applied == s.applied
    && t.sockets == s.sockets[i := t.sockets[i]] && t.sockets[i].order == s.sockets[i].order
    && t.sockets[i].phase == if cmd.kind == Sub then AwaitSub(|s.cmds|) else AwaitUnsub(|s.cmds|)
  }

  lemma Grows(s: State, t: State, i: nat, cmd: Cmd)
    requires Tickets(s) && LiveHeard(s) && Appends(s, t, i, cmd)
    ensures Tickets(t) && LiveHeard(t)
  {
    forall u | t.resumed <= u < |t.cmds|
      ensures t.cmds[u].socket < |t.sockets| && WaitsFor(t, u)
    {
      if u < |s.cmds| { assert WaitsFor(s, u); }
    }
    forall j | 0 <= j < |t.sockets|
      ensures HasTicket(t, j)
    {
      assert HasTicket(s, j);
    }
    forall j | 0 <= j < |t.sockets| && t.sockets[j].phase == Live
      ensures Subscribed(t.cmds, t.resumed, t.sockets[j].order)
    {
      SubscribedPrefix(s.cmds, cmd, s.resumed, t.sockets[j].order);
    }
  }

  lemma SubscribeLastWord(s: State, i: nat)
    requires LastWord(s) && CanStep(s, Subscribe(i))
    ensures LastWord(SubscribeStep(s, i))
  {
    var t := SubscribeStep(s, i);
    forall channel
      ensures Subscribed(t.cmds, |t.cmds|, channel) <==> exists j :: Wants(t, j, channel)
    {
      SubscribedNext(s.cmds, Cmd(s.sockets[i].order, Sub, i), channel);
      assert Wants(t, i, s.sockets[i].order);
      if j: nat :| Wants(s, j, channel) { assert Wants(t, j, channel); }
      if j: nat :| Wants(t, j, channel) && j != i { assert Wants(s, j, channel); }
    }
  }

  // ---- A live socket closes ----

  lemma OnlyOne(subscriptions: map<nat, nat>, channel: nat, i: nat, j: nat)
    requires i in subscriptions && subscriptions[i] == channel && |MappedTo(subscriptions, channel)| <= 1
    requires j in subscriptions && subscriptions[j] == channel
    ensures j == i
  {
    var rest := MappedTo(subscriptions, channel) - {i};
    assert MappedTo(subscriptions, channel) == rest + {i};
    assert j !in rest;
  }

  lemma AnotherOne(subscriptions: map<nat, nat>, channel: nat, i: nat) returns (j: nat)
    requires |MappedTo(subscriptions, channel)| > 1
    ensures j != i && j in subscriptions && subscriptions[j] == channel
  {
    var mapped := MappedTo(subscriptions, channel);
    var rest := mapped - {i};
    assert mapped == if i in mapped then rest + {i} else rest;
    assert |rest| > 0;
    j :| j in rest;
  }

  lemma CloseKeeps(s: State, i: nat)
    requires Inv(s) && CanStep(s, Close(i)) && s.sockets[i].phase == Live
    ensures Inv(Step(s, Close(i)))
  {
    var t := CloseStep(s, i);
    if |MappedTo(s.subscriptions, s.sockets[i].order)| <= 1 {
      Grows(s, t, i, Cmd(s.sockets[i].order, Unsub, i));
      LastCloses(s, i);
      LastWordAfterLast(s, i);
    } else {
      Leaves(s, t, i);
      OtherCloses(s, i);
    }
  }

  lemma LastCloses(s: State, i: nat)
    requires Inv(s) && CanStep(s, Close(i)) && s.sockets[i].phase == Live
    requires |MappedTo(s.subscriptions, s.sockets[i].order)| <= 1
    ensures Behind(CloseStep(s, i)) && Maps(CloseStep(s, i))
  {
    forall j | 0 <= j < |s.sockets| && s.sockets[j].order == s.sockets[i].order && Mapped(s.sockets[j].phase)
      ensures j == i
    {
      OnlyOne(s.subscriptions, s.sockets[i].order, i, j);
    }
  }

  lemma LastWordAfterLast(s: State, i: nat)
    requires Maps(s) && LastWord(s) && CanStep(s, Close(i)) && s.sockets[i].phase == Live
    requires |MappedTo(s.subscriptions, s.sockets[i].order)| <= 1
    ensures LastWord(CloseStep(s, i))
  {
    var t, order := CloseStep(s, i), s.sockets[i].order;
    forall channel
      ensures Subscribed(t.cmds, |t.cmds|, channel) <==> exists j :: Wants(t, j, channel)
    {
      SubscribedNext(s.cmds, Cmd(order, Unsub, i), channel);
      if j: nat :| Wants(s, j, channel) && j != i {
        if channel == order { OnlyOne(s.subscriptions, order, i, j); }
        assert Wants(t, j, channel);
      }
      if j: nat :| Wants(t, j, channel) {
        if channel == order { OnlyOne(s.subscriptions, order, i, j); }
        assert Wants(s, j, channel);
      }
    }
  }

  /** A socket that stops being mapped, with no command pending for it. */
  lemma Leaves(s: State, t: State, i: nat)
    requires Tickets(s) && Maps(s) && Behind(s) && LiveHeard(s)
    requires i < |s.sockets| == |t.sockets| && s.sockets[i].phase == Live && t.sockets == s.sockets[i := t.sockets[i]]
    requires t.sockets[i].phase == Decrementing && t.sockets[i].order == s.sockets[i].order
    requires t.subscriptions == s.subscriptions - {i}
    requires t.cmds == s.cmds && t.resumed == s.resumed && t.acked == s.acked && t.applied == s.applied
    ensures Tickets(t) && Maps(t) && Behind(t) && LiveHeard(t)
  {
    forall u | t.resumed <= u < |t.cmds|
      ensures t.cmds[u].socket < |t.sockets| && WaitsFor(t, u)
    {
      assert WaitsFor(s, u);
    }
    forall j | 0 <= j < |t.sockets|
      ensures HasTicket(t, j)
    {
      assert HasTicket(s, j);
    }
  }

  lemma OtherCloses(s: State, i: nat)
    requires Inv(s) && CanStep(s, Close(i)) && s.sockets[i].phase == Live
    requires |MappedTo(s.subscriptions, s.sockets[i].order)| > 1
    ensures LastWord(CloseStep(s, i))
  {
    var t, order := CloseStep(s, i), s.sockets[i].order;
    var k := AnotherOne(s.subscriptions, order, i);
    assert Wants(t, k, order);
    forall channel
      ensures Subscribed(t.cmds, |t.cmds|, channel) <==> exists j :: Wants(t, j, channel)
    {
      assert Wants(s, i, order);
      if j: nat :| Wants(s, j, channel) && j != i { assert Wants(t, j, channel); }
      if j: nat :| Wants(t, j, channel) { assert Wants(s, j, channel); }
    }
  }

  // ---- A caller resumes ----

  /** No unsubscribe of a live socket's channel is pending. */
  lemma NonePending(s: State, i: nat, t: nat)
    requires Inv(s) && i < |s.sockets| && s.sockets[i].phase == Live
    requires s.resumed <= t < |s.cmds| && s.cmds[t].channel == s.sockets[i].order
    ensures s.cmds[t].kind == Sub
  {
    assert WaitsFor(s, t);
    assert HasTicket(s, s.cmds[t].socket);
  }

  lemma ResumeKeeps(s: State)
    requires Inv(s) && CanStep(s, Resume)
    ensures Inv(Step(s, Resume))
  {
    ResumeTickets(s);
    ResumeMaps(s);
    ResumeBehind(s);
    ResumeLive(s);
    ResumeLastWord(s);
  }

  lemma Resuming(s: State) returns (i: nat)
    requires Tickets(s) && CanStep(s, Resume)
    ensures i == s.cmds[s.resumed].socket && i < |s.sockets|
    ensures s.cmds[s.resumed].channel == s.sockets[i].order
    ensures s.sockets[i].phase == if s.cmds[s.resumed].kind == Sub then AwaitSub(s.resumed) else AwaitUnsub(s.resumed)
  {
    i := s.cmds[s.resumed].socket;
    assert WaitsFor(s, s.resumed) && HasTicket(s, i);
  }

  lemma ResumeTickets(s: State)
    requires Tickets(s) && CanStep(s, Resume)
    ensures Tickets(ResumeStep(s))
  {
    var t := ResumeStep(s);
    var i := Resuming(s);
    forall u | t.resumed <= u < |t.cmds|
      ensures t.cmds[u].socket < |t.sockets| && WaitsFor(t, u)
    {
      assert WaitsFor(s, u);
    }
    forall j | 0 <= j < |t.sockets|
      ensures HasTicket(t, j)
    {
      assert HasTicket(s, j);
    }
  }

  lemma ResumeMaps(s: State)
    requires Tickets(s) && Maps(s) && CanStep(s, Resume)
    ensures Maps(ResumeStep(s))
  {
    var i := Resuming(s);
  }

  lemma ResumeBehind(s: State)
    requires Tickets(s) && Behind(s) && CanStep(s, Resume)
    ensures Behind(ResumeStep(s))
  {
    var t := ResumeStep(s);
    var k := Resuming(s);
    forall i, j | 0 <= i < |t.sockets| && 0 <= j < |t.sockets| && i != j
      && t.sockets[i].phase.AwaitUnsub? && t.sockets[j].order == t.sockets[i].order
      && Mapped(t.sockets[j].phase)
      ensures t.sockets[j].phase.AwaitSub? && t.sockets[j].phase.ticket > t.sockets[i].phase.ticket
    {
      assert HasTicket(s, i) && Mapped(s.sockets[j].phase);
    }
  }

  lemma ResumeLive(s: State)
    requires Inv(s) && CanStep(s, Resume)
    ensures LiveHeard(ResumeStep(s))
  {
    var t := ResumeStep(s);
    var i := Resuming(s);
    forall j | 0 <= j < |t.sockets| && t.sockets[j].phase == Live
      ensures Subscribed(t.cmds, t.resumed, t.sockets[j].order)
    {
      if j != i && s.cmds[s.resumed].channel == s.sockets[j].order {
        NonePending(s, j, s.resumed);
      }
    }
  }

  lemma ResumeLastWord(s: State)
    requires Tickets(s) && LastWord(s) && CanStep(s, Resume)
    ensures LastWord(ResumeStep(s))
  {
    var t := ResumeStep(s);
    var i := Resuming(s);
    forall channel
      ensures Subscribed(t.cmds, |t.cmds|, channel) <==> exists j :: Wants(t, j, channel)
    {
      if j: nat :| Wants(s, j, channel) { assert Wants(t, j, channel); }
      if j: nat :| Wants(t, j, channel) { assert Wants(s, j, channel); }
    }
  }

  // ---- Every step, every run ----

  predicate Bookkeeping(s: State, e: Event)
    requires CanStep(s, e)
  {
    e.Subscribe? || e.Resume? || (e.Close? && s.sockets[e.id].phase == Live)
  }

  lemma OtherStepsAside(s: State, e: Event)
    requires Tickets(s) && CanStep(s, e) && !Bookkeeping(s, e)
    ensures Aside(s, Step(s, e))
  {
    if e.Close? {
      OneAside(s, Step(s, e), e.id);
    } else if SetUp(e) {
      SetUpAside(s, e);
    } else if e.Deliver? {
      DeliverAside(s);
    } else if e.Announce? {
      AnnounceAside(s, e.order);
    }
  }

  lemma DeliverAside(s: State)
    requires Tickets(s) && CanStep(s, Deliver)
    ensures Aside(s, DeliverStep(s))
  {
  }

  lemma AnnounceAside(s: State, d: nat)
    requires Tickets(s) && CanStep(s, Announce(d))
    ensures Aside(s, AnnounceStep(s, d))
  {
  }

  /** One socket changed, and the bookkeeping cannot tell. */
  lemma OneAside(s: State, t: State, i: nat)
    requires i < |s.sockets| == |t.sockets| && t.sockets == s.sockets[i := t.sockets[i]]
    requires t.cmds == s.cmds && t.resumed == s.resumed && t.subscriptions == s.subscriptions
    requires t.resumed <= t.acked <= t.applied <= |t.cmds|
    requires t.sockets[i].order == s.sockets[i].order
    requires t.sockets[i].phase == s.sockets[i].phase || (!Mapped(t.sockets[i].phase) && !Mapped(s.sockets[i].phase))
    ensures Aside(s, t)
  {
  }

  lemma SetUpAside(s: State, e: Event)
    requires Tickets(s) && CanStep(s, e) && SetUp(e)
    ensures Aside(s, Step(s, e))
  {
    OneAside(s, Step(s, e), e.id);
  }

  lemma StepKeeps(s: State, e: Event)
    requires Inv(s) && CanStep(s, e)
    ensures Inv(Step(s, e))
  {
    if e.Subscribe? {
      SubscribeKeeps(s, e.id);
    } else if e.Resume? {
      ResumeKeeps(s);
    } else if Bookkeeping(s, e) {
      CloseKeeps(s, e.id);
    } else {
      OtherStepsAside(s, e);
      AsideKeeps(s, Step(s, e));
    }
  }

  lemma {:induction false} RunKeeps(s: State, es: seq<Event>)
    requires Inv(s) && Runs(s, es)
    ensures Inv(After(s, es))
    decreases |es|
  {
    if es != [] {
      StepKeeps(s, es[0]);
      RunKeeps(Step(s, es[0]), es[1..]);
    }
  }

  lemma InvReached(es: seq<Event>)
    requires Runs(Init(), es)
    ensures Inv(After(Init(), es))
  {
    RunKeeps(Init(), es);
  }

  /** In every reachable state the channel of every live socket is subscribed, at Redis
      and for every caller still to resume, and no unsubscribe of it is pending. */
  lemma LiveIsSubscribed(es: seq<Event>, i: nat, n: nat)
    requires Runs(Init(), es)
    requires var s := After(Init(), es); i < |s.sockets| && s.sockets[i].phase == Live && s.resumed <= n <= |s.cmds|
    ensures var s := After(Init(), es);
            && Subscribed(s.cmds, n, s.sockets[i].order)
            && (forall t :: s.resumed <= t < |s.cmds| && s.cmds[t].channel == s.sockets[i].order ==>
                  s.cmds[t].kind == Sub)
  {
    InvReached(es);
    StaysSubscribed(After(Init(), es), i, n);
  }

  lemma {:induction false} StaysSubscribed(s: State, i: nat, n: nat)
    requires Inv(s) && i < |s.sockets| && s.sockets[i].phase == Live && s.resumed <= n <= |s.cmds|
    ensures Subscribed(s.cmds, n, s.sockets[i].order)
    ensures forall t :: s.resumed <= t < |s.cmds| && s.cmds[t].channel == s.sockets[i].order ==> s.cmds[t].kind == Sub
    decreases n
  {
    forall t | s.resumed <= t < |s.cmds| && s.cmds[t].channel == s.sockets[i].order
      ensures s.cmds[t].kind == Sub
    {
      NonePending(s, i, t);
    }
    if n > s.resumed {
      StaysSubscribed(s, i, n - 1);
    }
  }

  /** Once every command is executed, answered and resumed, Redis has the channel
      subscribed exactly when some socket that is not closing is mapped to it. */
  lemma DrainedAgreement(es: seq<Event>, channel: nat)
    requires Runs(Init(), es)
    requires After(Init(), es).resumed == |After(Init(), es).cmds|
    ensures var s := After(Init(), es);
            && s.applied == |s.cmds|
            && (Subscribed(s.cmds, s.applied, channel)
            <==> exists i :: 0 <= i < |s.sockets| && i in s.subscriptions
                             && s.subscriptions[i] == channel && s.sockets[i].phase == Live)
  {
    InvReached(es);
    var s := After(Init(), es);
    if i: nat :| Wants(s, i, channel) {
      assert HasTicket(s, i);
      assert i in s.subscriptions;
    }
    if i: nat :| 0 <= i < |s.sockets| && i in s.subscriptions
                 && s.subscriptions[i] == channel && s.sockets[i].phase == Live {
      assert Wants(s, i, channel);
    }
  }

  /** The key lemma in every reachable state. */
  lemma OthersBehindUnsubscribe(es: seq<Event>, i: nat, j: nat)
    requires Runs(Init(), es)
    requires var s := After(Init(), es);
             && i < |s.sockets| && s.sockets[i].phase.AwaitUnsub?
             && j in s.subscriptions && j != i && s.subscriptions[j] == s.sockets[i].order
    ensures var s := After(Init(), es);
            && j < |s.sockets| && s.sockets[j].phase.AwaitSub?
            && s.sockets[j].phase.ticket > s.sockets[i].phase.ticket
  {
    InvReached(es);
  }
}
