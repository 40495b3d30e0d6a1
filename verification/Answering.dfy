/**
 Who gets control over a run: every callback that the journal says is called gets it, once and
 right then, and each round gives it to the pre and the post callback, once each.
 */
module Answering {
  import opened Interference
  import opened Journal
  import opened Kernel
  import opened Memory
  import opened PollWord
  import opened State
  import opened Steps
  import opened Sweeping
  import opened Timer
  import opened Turns

  /** How often this callback got control. */
  function Count(calls: seq<Call>, hook: Hook): nat {
    if calls == [] then 0
    else Count(calls[..|calls| - 1], hook) + if calls[|calls| - 1].hook == hook then 1 else 0
  }

  lemma {:induction false} CountAcross(before: seq<Call>, after: seq<Call>, hook: Hook)
    requires before <= after && forall i | |before| <= i < |after| :: after[i].hook != hook
    ensures Count(after, hook) == Count(before, hook)
    decreases |after|
  {
    if |before| == |after| {
      assert before == after;
    } else {
      CountAcross(before, after[..|after| - 1], hook);
    }
  }

  lemma CountOne(calls: seq<Call>, call: Call, hook: Hook)
    ensures Count(calls + [call], hook) == Count(calls, hook) + if call.hook == hook then 1 else 0
  {
    assert (calls + [call])[..|calls|] == calls;
  }

  // ---------- what holds while a batch is worked off ----------

  /** Callbacks of sockets and of timers only. */
  ghost predicate Within(before: seq<Call>, after: seq<Call>) {
    before <= after && forall i | |before| <= i < |after| :: after[i].hook == OnSocket || after[i].hook == OnTimer
  }

  lemma WithinTransitive(a: seq<Call>, b: seq<Call>, c: seq<Call>)
    requires Within(a, b) && Within(b, c)
    ensures Within(a, c)
  {
    forall i | |a| <= i < |c|
      ensures c[i].hook == OnSocket || c[i].hook == OnTimer
    {
      if i < |b| {
        assert c[i] == b[i];
      }
    }
  }

  /** Socket callbacks that are called get control, and the loop's own do not. */
  ghost predicate Steady(a: State, b: State) {
    Within(a.calls, b.calls) && (Answered(a) ==> Answered(b))
  }

  lemma SteadyTransitive(a: State, b: State, c: State)
    requires Steady(a, b) && Steady(b, c)
    ensures Steady(a, c)
  {
    hide Within, Answered;
    WithinTransitive(a.calls, b.calls, c.calls);
  }

  /** Nothing is called. */
  lemma PlainSteady(a: State, b: State)
    requires b.calls == a.calls && a.log <= b.log && forall i | |a.log| <= i < |b.log| :: !IsCallback(b.log[i])
    ensures Steady(a, b)
  {
    DueAcross(a.log, b.log);
  }

  /** What is noted last says that a callback is called, and it gets control. */
  lemma GivesSteady(a: State, noted: State, b: State)
    requires noted.log != [] && noted.calls == a.calls && IsCallback(noted.log[|noted.log| - 1])
    requires a.log <= noted.log[..|noted.log| - 1]
    requires forall i | |a.log| <= i < |noted.log| - 1 :: !IsCallback(noted.log[i])
    requires Gives(noted, OnSocket, b)
    ensures Steady(a, b)
  {
    hide Rely, CallsGrow, Within, Marks;
    var front, e := noted.log[..|noted.log| - 1], noted.log[|noted.log| - 1];
    DueAcross(a.log, front);
    DueOne(front, e);
    assert noted.log == front + [e];
    CallsGiven(a, noted, b);
    assert AfterCall(noted, OnSocket).calls[..|noted.calls|] == noted.calls;
  }

  lemma CallsGiven(a: State, noted: State, b: State)
    requires noted.calls == a.calls && Gives(noted, OnSocket, b)
    ensures Within(a.calls, b.calls)
  {
    hide Rely, Answered, Marks;
  }

  lemma TimerSteady(a: State, b: State)
    requires Gives(a, OnTimer, b)
    ensures Steady(a, b)
  {
    hide Rely, Marks;
    assert AfterCall(a, OnTimer).calls[..|a.calls|] == a.calls;
  }

  // ---------- the dispatch of a socket ----------

  lemma ToldSteady(g: State, s: Socket, h: State)
    requires IsLive(g, s) && Gives(Told(g, s), OnSocket, h)
    ensures Steady(g, h)
  {
    hide Gives, Hangup, Retarget, Steady;
    assert Told(g, s).log[..|g.log| + 1] == g.log + [Closed(g.tags[s].id)];
    GivesSteady(g, Told(g, s), h);
  }

  lemma NotedSteady(g: State, noted: State, e: Event, h: State)
    requires noted.log == g.log + [e] && noted.calls == g.calls && IsCallback(e) && Gives(noted, OnSocket, h)
    ensures Steady(g, h)
  {
    hide Gives, Steady;
    assert noted.log[..|g.log|] == g.log;
    GivesSteady(g, noted, h);
  }

  lemma ReadsSteady(g: State, s: Socket, received: Received, h: State)
    requires IsLive(g, s) && Reads(g, s, received, h)
    ensures Steady(g, h)
  {
    hide Gives, Told, AfterEnd, Steady;
    match received
    case Ignored =>
      PlainSteady(g, g);
    case WouldBlock =>
      PlainSteady(g, g);
    case Data =>
      NotedSteady(g, AtRead(g, s, Data), GotData(g.tags[s].id), h);
    case Failure =>
      ToldSteady(g, s, h);
    case Fin =>
      if g.tunings[s].kind == ShutdownKind {
        ToldSteady(g, s, h);
      } else {
        EndNoted(g, s);
        NotedSteady(g, AfterEnd(g, s), GotEnd(g.tags[s].id), h);
      }
  }

  lemma EndNoted(g: State, s: Socket)
    requires IsLive(g, s)
    ensures AfterEnd(g, s).log == g.log + [GotEnd(g.tags[s].id)] && AfterEnd(g, s).calls == g.calls
  {
    hide KqueueChange;
  }

  lemma WritesSteady(g: State, s: Socket, service: Service)
    requires IsLive(g, s) && Writes(g, s, service)
    ensures Steady(g, service.written)
  {
    hide Gives, Settled, Steady;
    NotedSteady(g, AfterWritable(g, s), GotWritable(g.tags[s].id), service.mid);
    SettledSteady(service.mid, service.back);
    SteadyTransitive(g, service.mid, service.written);
  }

  lemma SettledSteady(g: State, s: Socket)
    requires IsLive(g, s)
    ensures Steady(g, Settled(g, s))
  {
    hide KqueueChange, Steady;
    PlainSteady(g, Settled(g, s));
  }

  lemma ServesSteady(g: State, s: Socket, error: bool, events: Mask, service: Service, h: State)
    requires IsLive(g, s) && Serves(g, s, error, events, service, h)
    ensures Steady(g, h)
  {
    hide Gives, Writes, Reads, Told, Steady;
    if error {
      ToldSteady(g, s, h);
    } else {
      if events.writable {
        WritesSteady(g, s, service);
      } else {
        PlainSteady(g, g);
      }
      if events.readable && service.written.places[service.back].open {
        ReadsSteady(service.written, service.back, Meaning(service.got), h);
        SteadyTransitive(g, service.written, h);
      }
    }
  }

  lemma AcceptsOneSteady(ls: Socket, tag: Tag, a: Accepted)
    requires AcceptsOne(ls, tag, a)
    ensures Steady(a.before, a.after)
  {
    hide Gives, MayCreate, KqueueChange, Steady;
    var taken := AfterAccept(a.before, tag.fd);
    var created := AfterCreate(taken, a.before.places[ls].ctx, a.socket, a.fd, SocketKind, READABLE);
    assert created.log[..|created.log| - 1] == a.before.log + [Created(a.before.nextId, SocketKind, READABLE)];
    GivesSteady(a.before, created, a.after);
  }

  lemma {:induction false} TakesAllSteady(g: State, ls: Socket, tag: Tag, turns: seq<Accepted>, h: State)
    requires TakesAll(g, ls, tag, turns, h)
    ensures Steady(g, h)
    decreases |turns|
  {
    hide AcceptsOne, Steady;
    if turns == [] {
      PlainSteady(g, h);
    } else {
      var last := turns[|turns| - 1];
      TakesAllSteady(g, ls, tag, turns[..|turns| - 1], last.before);
      AcceptsOneSteady(ls, tag, last);
      SteadyTransitive(g, last.before, h);
    }
  }

  lemma DispatchesSteady(g: State, s: Socket, error: bool, events: Mask, turn: Turn, h: State)
    requires IsLive(g, s) && Dispatches(g, s, error, events, turn, h)
    ensures Steady(g, h)
  {
    hide Gives, Serves, TakesAll, Steady;
    if g.tunings[s].kind == SemiKind {
      if g.tunings[s].interest == WRITABLE {
        NotedSteady(g, AfterConnected(g, s), Opened(g.tags[s].id), h);
      } else {
        TakesAllSteady(g, s, g.tags[s], turn.accepted, turn.last);
        PlainSteady(turn.last, h);
        SteadyTransitive(g, turn.last, h);
      }
    } else {
      ServesSteady(g, s, error, events, turn.service, h);
    }
  }

  // ---------- sweeps ----------

  lemma SeesSteady(c: Context, t: Sight)
    requires Sees(c, t)
    ensures Steady(t.before, t.after)
  {
    hide Gives, Steady;
    var s := t.before.lines[c].todo[0];
    var a := AfterVisit(t.before, s);
    var e := Visited(t.before.tags[s].id, t.before.places[s].stamp, t.before.tunings[s].timeout == 1);
    if t.before.tunings[s].timeout == 1 {
      NotedSteady(t.before, a, e, t.mid);
    } else {
      PlainSteady(t.before, a);
    }
    PlainSteady(t.mid, t.after);
    SteadyTransitive(t.before, t.mid, t.after);
  }

  lemma {:induction false} TurningSteady(g: State, c: Context, sights: seq<Sight>, h: State)
    requires Turning(g, c, sights, h)
    ensures Steady(g, h)
    decreases |sights|
  {
    hide Sees, Steady;
    if sights == [] {
      PlainSteady(g, h);
    } else {
      var last := sights[|sights| - 1];
      TurningSteady(g, c, sights[..|sights| - 1], last.before);
      SeesSteady(c, last);
      SteadyTransitive(g, last.before, h);
    }
  }

  lemma PassSteady(p: Pass)
    requires PassOver(p)
    ensures Steady(p.before, p.after)
  {
    hide Inv, SameRun, PassDone, Turning, Steady;
    var begun := AfterPassStart(p.before, p.context);
    PlainSteady(p.before, begun);
    TurningSteady(begun, p.context, p.sights, p.after);
    SteadyTransitive(p.before, begun, p.after);
  }

  lemma {:induction false} PassesSteady(g: State, passes: seq<Pass>, h: State)
    requires Passes(g, passes, h)
    ensures Steady(g, h)
    decreases |passes|
  {
    hide PassOver, Steady;
    if passes == [] {
      PlainSteady(g, h);
    } else {
      var p := passes[|passes| - 1];
      PassesSteady(g, passes[..|passes| - 1], p.before);
      PassSteady(p);
      PlainSteady(p.after, h);
      SteadyTransitive(g, p.before, p.after);
      SteadyTransitive(g, p.after, h);
    }
  }

  // ---------- batches ----------

  lemma StepSteady(s: Step)
    requires StepOver(s)
    ensures Steady(s.before, s.after)
  {
    hide Inv, Gives, Dispatches, Passes, Steady;
    var e := s.before.pending[0];
    match e.target
    case Nothing =>
      PlainSteady(s.before, s.after);
    case ToCallback(cb) =>
      if cb == SweepTimer {
        PassesSteady(s.before, s.passes, s.after);
      } else {
        TimerSteady(s.before, s.after);
      }
    case ToSocket(x) =>
      var events := EventsOf(e.side).And(s.before.tunings[x].interest);
      if events == NONE && !e.error {
        PlainSteady(s.before, s.after);
      } else {
        DispatchesSteady(s.before, x, e.error, events, s.turn, s.after);
      }
  }

  lemma {:induction false} WorksSteady(g: State, steps: seq<Step>, h: State)
    requires Works(g, steps, h)
    ensures Steady(g, h)
    decreases |steps|
  {
    hide Inv, Handles, Steady;
    if steps == [] {
      PlainSteady(g, h);
    } else {
      var last := steps[|steps| - 1];
      WorksSteady(g, steps[..|steps| - 1], last.before);
      StepSteady(last);
      PlainSteady(last.after, h);
      SteadyTransitive(g, last.before, last.after);
      SteadyTransitive(g, last.after, h);
    }
  }

  /** Freeing calls nobody back, and notes nothing but that. */
  lemma {:induction false} FlushSteady(g: State)
    requires Freeable(g)
    ensures AfterFlush(g).calls == g.calls && Steady(g, AfterFlush(g)) && |AfterFlush(g).log| == |g.log| + |g.closed|
    decreases |g.closed|
  {
    hide Steady;
    if g.closed == [] {
      PlainSteady(g, g);
    } else {
      FreeLeaves(g);
      PlainSteady(g, AfterFree(g));
      FlushSteady(AfterFree(g));
      SteadyTransitive(g, AfterFree(g), AfterFlush(g));
    }
  }

  lemma FreeLeaves(g: State)
    requires Freeable(g) && g.closed != []
    ensures g.closed[0] in g.tags && Freeable(AfterFree(g)) && |AfterFree(g).closed| == |g.closed| - 1
  {
    assert g.closed[0] in g.closed;
    var h := AfterFree(g);
    assert forall i | 0 <= i < |h.closed| :: h.closed[i] == g.closed[i + 1] != g.closed[0];
  }

  // ---------- rounds and runs ----------

  /** From `a` to `b` the loop's own callbacks got control, each `n` times, and those of sockets as the journal says. */
  ghost predicate Rounds(a: State, b: State, n: nat) {
    && Count(b.calls, OnPre) == Count(a.calls, OnPre) + n
    && Count(b.calls, OnPost) == Count(a.calls, OnPost) + n
    && (Answered(a) ==> Answered(b))
  }

  lemma SteadyRounds(a: State, b: State)
    requires Steady(a, b)
    ensures Rounds(a, b, 0)
  {
    CountAcross(a.calls, b.calls, OnPre);
    CountAcross(a.calls, b.calls, OnPost);
  }

  /** The pre or the post callback gets control, once, and first of all. */
  lemma OwnCall(a: State, hook: Hook, b: State)
    requires Gives(a, hook, b) && (hook == OnPre || hook == OnPost)
    ensures a.calls + [Call(hook, |a.log|)] <= b.calls && a.log <= b.log
    ensures Count(b.calls, OnPre) == Count(a.calls, OnPre) + if hook == OnPre then 1 else 0
    ensures Count(b.calls, OnPost) == Count(a.calls, OnPost) + if hook == OnPost then 1 else 0
    ensures Answered(a) ==> Answered(b)
    ensures forall i | |a.log| <= i < |b.log| :: !b.log[i].Freed?
  {
    hide ListsRely, LivesRely, KeepsOld, StaysPut, Marks;
    var begun := AfterCall(a, hook);
    CountOne(a.calls, Call(hook, |a.log|), OnPre);
    CountOne(a.calls, Call(hook, |a.log|), OnPost);
    CountAcross(begun.calls, b.calls, OnPre);
    CountAcross(begun.calls, b.calls, OnPost);
    assert begun.calls[..|a.calls|] == a.calls;
  }

  /**
   In a round the pre callback gets control once, before anything else is noted or called; and
   the post callback once, after the last closed socket was freed.
   */
  lemma RoundCalls(r: Round)
    requires RoundOver(r)
    ensures Rounds(r.before, r.after, 1)
    ensures r.before.calls + [Call(OnPre, |r.before.log|)] <= r.after.calls
    ensures var freed := |r.worked.log| + |r.worked.closed|;
            && r.worked.calls + [Call(OnPost, freed)] <= r.after.calls
            && freed <= |r.after.log| && forall i | freed <= i < |r.after.log| :: !r.after.log[i].Freed?
  {
    hide Gives, AtMostTwice, AllOpen, Works, Freeable, AfterFlush, Steady, Count, Answered;
    var waited := Waited(r.quiet, r.batch, r.queues);
    OwnCall(r.before, OnPre, r.quiet);
    PlainSteady(r.quiet, waited);
    WorksSteady(waited, r.steps, r.worked);
    FlushSteady(r.worked);
    SteadyTransitive(r.quiet, waited, r.worked);
    SteadyTransitive(r.quiet, r.worked, AfterFlush(r.worked));
    SteadyRounds(r.quiet, AfterFlush(r.worked));
    OwnCall(AfterFlush(r.worked), OnPost, r.after);
    CallsKept(r.before, r.quiet, AfterFlush(r.worked), r.after);
  }

  lemma CallsKept(a: State, b: State, c: State, d: State)
    requires a.calls + [Call(OnPre, |a.log|)] <= b.calls && Steady(b, c) && c.calls <= d.calls
    ensures a.calls + [Call(OnPre, |a.log|)] <= d.calls
  {
    hide Answered;
  }

  /**
   A run of `n` rounds gives control to the pre and to the post callback `n` times each; and
   every callback of a socket that the journal says is called gets it, once and right then.
   */
  lemma {:induction false} RunCalls(g: State, rounds: seq<Round>, h: State)
    requires Runs(g, rounds, h)
    ensures Rounds(g, h, |rounds|)
    decreases |rounds|
  {
    hide RoundOver, Count, Answered;
    if rounds != [] {
      var n := |rounds| - 1;
      RunCalls(g, rounds[..n], rounds[n].before);
      RoundCalls(rounds[n]);
    }
  }
}
