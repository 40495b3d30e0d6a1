/** The loop itself: wait, dispatch every ready poll, free what was closed, repeat. */
module Run {
  import opened Callbacks
  import opened Dispatch
  import opened EventLoop
  import opened Interference
  import opened PollWord
  import opened State
  import opened Steps
  import opened Sweeping
  import opened Timer
  import opened Turns

  /** Between batches: no sweep is under way and nothing is pending. */
  ghost predicate Between(g: State) {
    g.ahead == [] && g.pending == []
  }

  /** What stays and what only grows while the loop runs. */
  ghost predicate Grows(a: State, b: State) {
    b.mapping == a.mapping && a.others <= b.others && a.log <= b.log && KeepsOld(a, b) && StaysPut(a, b)
  }

  lemma GrowsReflexive(a: State)
    ensures Grows(a, a)
  {
  }

  lemma GrowsTransitive(a: State, b: State, c: State)
    requires Grows(a, b) && Grows(b, c)
    ensures Grows(a, c)
  {
    hide KeepsOld, StaysPut;
    KeepsOldTransitive(a, b, c);
    StaysPutTransitive(a, b, c);
  }

  /** The entry at the current index, as the state has it. */
  lemma CurrentEntry(loop: Loop)
    requires loop.Good() && AllOpen(loop.g.places, loop.g.pending)
    ensures loop.current < loop.numReady <==> loop.g.pending != []
    ensures loop.g.pending != [] ==>
              && loop.current < loop.ready.Length && loop.ready[loop.current] == loop.g.pending[0]
              && (loop.g.pending[0].target.ToSocket? ==>
                    loop.g.pending[0].target.socket in loop.sockets && !loop.g.pending[0].target.socket.IsClosed())
  {
    hide Inv, PollType, PollEvents, Loop.ListsRepr, Loop.ClosedFrom, Loop.ContextsRepr, Loop.FieldsRepr;
    hide Loop.Represents;
    if loop.g.pending != [] && loop.g.pending[0].target.ToSocket? {
      assert EntryOk(loop.g.places, loop.g.pending[0]);
      loop.ClosedMark(loop.g.pending[0].target.socket);
    }
  }

  /** One turn of the loop over ready polls. */
  method DispatchEntry(loop: Loop) returns (ghost turn: Turn, ghost passes: seq<Pass>)
    requires loop.Good() && AllOpen(loop.g.places, loop.g.pending) && loop.g.ahead == []
    requires loop.current < loop.numReady
    modifies loop, loop.ready, loop.sockets, loop.contexts
    ensures loop.Good() && Went(old(loop.g), loop.g)
    ensures old(loop.g.pending) != [] && Handles(old(loop.g), old(loop.g.pending)[0], turn, passes, loop.g)
    ensures fresh(loop.sockets - old(loop.sockets)) && fresh(loop.contexts - old(loop.contexts))
  {
    hide Loop.Good, Inv, Went, PollType, PollEvents, AllOpen, Dispatches, SweepOver, Gives;
    CurrentEntry(loop);
    WentReflexive(loop.g);
    turn, passes := Connecting, [];
    var e := loop.ready[loop.current];
    match e.target
    case Nothing =>
    case ToCallback(cb) =>
      passes := DispatchCallback(loop, cb);
    case ToSocket(s) =>
      Here(loop, s);
      var events := EventsOf(e.side).And(PollEvents(s.word));
      if events != NONE || e.error {
        turn := DispatchPoll(loop, s, e.error, events);
        DispatchesCalm(old(loop.g), s, e.error, events, turn, loop.g);
      }
  }

  /** One turn of the loop over ready polls, and on to the next. */
  method DispatchStep(loop: Loop) returns (ghost step: Step)
    requires loop.Good() && AllOpen(loop.g.places, loop.g.pending) && loop.g.ahead == []
    requires loop.current < loop.numReady
    modifies loop, loop.ready, loop.sockets, loop.contexts
    ensures loop.Good() && AllOpen(loop.g.places, loop.g.pending)
    ensures step.before == old(loop.g) && StepOver(step) && loop.g == MovedOn(step.after)
    ensures Went(step.before, step.after) && |loop.g.pending| < |old(loop.g).pending|
    ensures fresh(loop.sockets - old(loop.sockets)) && fresh(loop.contexts - old(loop.contexts))
    ensures loop.current < loop.numReady <==> loop.g.pending != []
  {
    hide Loop.Good, Inv, Went, AllOpen, Handles;
    ghost var before := loop.g;
    GoodInv(loop);
    ghost var turn, passes := DispatchEntry(loop);
    step := Step(turn, passes, before, loop.g);
    WentShape(before, loop.g);
    loop.NextEntry();
    CurrentEntry(loop);
  }

  lemma WentShape(a: State, b: State)
    requires Went(a, b)
    ensures |b.pending| == |a.pending| && b.ahead == a.ahead && Grows(a, b)
    ensures b.pending != [] ==> Grows(a, MovedOn(b))
  {
  }

  /** The loop over ready polls. */
  method DispatchBatch(loop: Loop) returns (ghost steps: seq<Step>)
    requires loop.Good() && AllOpen(loop.g.places, loop.g.pending) && loop.g.ahead == []
    modifies loop, loop.ready, loop.sockets, loop.contexts
    ensures loop.Good() && Between(loop.g) && Works(old(loop.g), steps, loop.g)
    ensures fresh(loop.sockets - old(loop.sockets)) && fresh(loop.contexts - old(loop.contexts))
    ensures Grows(old(loop.g), loop.g)
  {
    hide Loop.Good, Inv, AllOpen, StepOver, Went, Grows;
    CurrentEntry(loop);
    GrowsReflexive(loop.g);
    steps := [];
    WorksNone(loop.g);
    while loop.current < loop.numReady
      invariant loop.Good() && AllOpen(loop.g.places, loop.g.pending) && loop.g.ahead == []
      invariant loop.current < loop.numReady <==> loop.g.pending != []
      invariant fresh(loop.sockets - old(loop.sockets)) && fresh(loop.contexts - old(loop.contexts))
      invariant Grows(old(loop.g), loop.g)
      invariant Works(old(loop.g), steps, loop.g)
      decreases |loop.g.pending|
    {
      ghost var step := DispatchStep(loop);
      WentShape(step.before, step.after);
      GrowsTransitive(old(loop.g), step.before, loop.g);
      WorksMore(old(loop.g), steps, step);
      steps := steps + [step];
    }
  }

  lemma WorksNone(g: State)
    ensures Works(g, [], g)
  {
  }

  lemma WorksMore(g: State, steps: seq<Step>, step: Step)
    requires Works(g, steps, step.before) && StepOver(step)
    ensures Works(g, steps + [step], MovedOn(step.after))
  {
    hide Handles;
    assert (steps + [step])[..|steps|] == steps;
  }

  /** A callback between batches. */
  method Outside(loop: Loop, ghost hook: Hook)
    requires loop.Good() && Between(loop.g)
    modifies loop, loop.ready, loop.sockets, loop.contexts
    ensures loop.Good() && Between(loop.g) && Gives(old(loop.g), hook, loop.g)
    ensures fresh(loop.sockets - old(loop.sockets)) && fresh(loop.contexts - old(loop.contexts))
    ensures Grows(old(loop.g), loop.g)
  {
    hide Loop.Good, Inv, Gives, Rely;
    var depth: nat := *;
    Callback(loop, hook, depth);
    GivesBoth(old(loop.g), hook, loop.g);
    RelyWent(old(loop.g), loop.g);
    WentShape(old(loop.g), loop.g);
  }

  /** One round: the pre callback, a batch, the close list freed, the post callback. */
  method DoRound(loop: Loop) returns (ghost r: Round)
    requires loop.Good() && Between(loop.g)
    modifies loop, loop.ready, loop.sockets, loop.contexts
    ensures loop.Good() && Between(loop.g) && RoundOver(r) && r.before == old(loop.g) && r.after == loop.g
    ensures fresh(loop.sockets - old(loop.sockets)) && fresh(loop.contexts - old(loop.contexts))
    ensures Grows(old(loop.g), loop.g)
  {
    hide Loop.Good, Inv, AllOpen, AtMostTwice, Gives, Freeable, AfterFlush, Grows;
    ghost var before := loop.g;
    Outside(loop, OnPre);
    ghost var quiet := loop.g;
    loop.Wait();
    ghost var batch, queues := loop.g.pending, loop.g.queues;
    BatchIsSound(loop);
    ghost var steps := DispatchBatch(loop);
    ghost var worked := loop.g;
    FlushKept(loop);
    loop.FreeClosed();
    ghost var flushed := loop.g;
    Outside(loop, OnPost);
    r := Round(before, quiet, batch, queues, steps, worked, loop.g);
    WaitGrows(quiet, batch, queues);
    GrowsTransitive(before, quiet, Waited(quiet, batch, queues));
    GrowsTransitive(before, Waited(quiet, batch, queues), worked);
    GrowsTransitive(before, worked, flushed);
    GrowsTransitive(before, flushed, loop.g);
  }

  lemma WaitGrows(g: State, batch: seq<Entry>, queues: Queues)
    ensures Grows(g, Waited(g, batch, queues))
  {
  }

  lemma BatchIsSound(loop: Loop)
    requires loop.Good()
    ensures AtMostTwice(loop.g.pending)
  {
    hide Loop.Repr, ListsInv, LifeInv, MaskInv, AtMostTwice, DescriptorsOk, FiltersOk, InterestOk, EntryOk;
  }

  lemma FlushKept(loop: Loop)
    requires loop.Good()
    ensures Freeable(loop.g)
    ensures var h := AfterFlush(loop.g);
            h.ahead == loop.g.ahead && h.pending == loop.g.pending && Grows(loop.g, h)
  {
    hide Inv, Loop.Repr, AfterFlush;
    FlushKeeps(loop.g);
  }

  /** The poll counter is zero exactly when no socket is in memory and no other poll counts. */
  lemma CountIsZero(loop: Loop)
    requires loop.Good()
    ensures loop.numPolls == loop.g.count == |loop.sockets| + loop.g.others
    ensures loop.numPolls == 0 <==> loop.sockets == {} && loop.g.others == 0
  {
    hide Inv, Loop.ListsRepr, Loop.ClosedFrom, Loop.ContextsRepr, Loop.BatchRepr, Loop.Represents;
    InvParts(loop.g);
    hide ListsInv, PollInv, IdsOk, HistoryOk, JournalOk;
    assert |loop.g.tags| == |loop.g.tags.Keys|;
  }

  /**
   `asock_loop_run`, for at most `limit` rounds. After every number of rounds the invariant
   holds; the loop ends by itself exactly when no poll is left.
   */
  method RunLoop(loop: Loop, limit: nat) returns (ended: bool, ghost rounds: seq<Round>)
    requires loop.Good() && Between(loop.g)
    modifies loop, loop.ready, loop.sockets, loop.contexts
    ensures loop.Good() && Between(loop.g) && Grows(old(loop.g), loop.g)
    ensures Runs(old(loop.g), rounds, loop.g) && |rounds| <= limit && (!ended ==> |rounds| == limit)
    ensures ended <==> loop.sockets == {} && loop.g.others == 0
    ensures loop.numPolls == |loop.sockets| + loop.g.others
  {
    hide Loop.Good, Inv, RoundOver, Grows, Between;
    rounds := [];
    RunsNone(loop.g);
    GrowsReflexive(loop.g);
    CountIsZero(loop);
    var left := limit;
    while loop.numPolls != 0 && left > 0
      invariant loop.Good() && Between(loop.g) && Grows(old(loop.g), loop.g) && loop.numPolls == loop.g.count
      invariant fresh(loop.sockets - old(loop.sockets)) && fresh(loop.contexts - old(loop.contexts))
      invariant Runs(old(loop.g), rounds, loop.g) && |rounds| + left == limit
      decreases left
    {
      ghost var r := DoRound(loop);
      CountIsZero(loop);
      GrowsTransitive(old(loop.g), r.before, r.after);
      RunsMore(old(loop.g), rounds, r);
      rounds := rounds + [r];
      left := left - 1;
    }
    CountIsZero(loop);
    ended := loop.numPolls == 0;
  }

  lemma RunsNone(g: State)
    ensures Runs(g, [], g)
  {
  }

  lemma RunsMore(g: State, rounds: seq<Round>, r: Round)
    requires Runs(g, rounds, r.before) && RoundOver(r) && r.before.count != 0
    ensures Runs(g, rounds + [r], r.after)
  {
    hide RoundOver;
    assert (rounds + [r])[..|rounds|] == rounds;
  }
}
