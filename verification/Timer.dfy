/** The timeout sweep in memory: it walks lists that callbacks change under it. */
module Timer {
  import opened Callbacks
  import opened EventLoop
  import opened Interference
  import opened Journal
  import opened Memory
  import opened PollWord
  import opened State
  import opened Steps
  import opened Sweeping

  /** What the iterators of a good loop point at. */
  lemma Iterators(loop: Loop, c: Context)
    requires loop.Good() && c in loop.g.lines
    ensures c in loop.contexts && c.cursor == At(loop.g.lines[c].todo, 0)
    ensures loop.cursor == ContextAt(loop.g.ahead, 0)
    ensures Inv(loop.g) && ListsInv(loop.g)
    ensures loop.g.lines[c].todo != [] ==>
              var s := loop.g.lines[c].todo[0];
              s in loop.sockets && IsLive(loop.g, s) && loop.g.places[s].open && !s.IsClosed() &&
              s.timeout == loop.g.tunings[s].timeout
  {
    hide Loop.Good, Inv, PollType, PollEvents;
    GoodInv(loop);
    InvParts(loop.g);
    loop.IteratorAt();
    if loop.g.lines[c].todo != [] {
      var s := loop.g.lines[c].todo[0];
      FirstIsOpen(loop.g, c);
      loop.Live(s);
      loop.ClosedMark(s);
    }
  }

  lemma FirstIsOpen(g: State, c: Context)
    requires ListsInv(g) && c in g.lines && g.lines[c].todo != []
    ensures IsOpen(g.places, g.lines[c].todo[0])
  {
    hide Sorted, PlacesOk, ClosedOk, ContextsOk;
    assert LineOk(g.places, c, g.lines[c]);
    assert g.lines[c].todo[0] in g.lines[c].todo;
  }

  /** After a callback, `s` is either still at the iterator or no longer ahead of it. */
  lemma StillFirstOrGone(loop: Loop, a: State, c: Context, s: Socket)
    requires loop.Good() && Inv(a) && Rely(a, loop.g) && c in a.lines && a.lines[c].todo != []
    requires s == a.lines[c].todo[0]
    ensures c in loop.g.lines && c in loop.contexts && Inv(loop.g)
    ensures |loop.g.lines[c].todo| <= |a.lines[c].todo|
    ensures if c.cursor == s then loop.g.lines[c].todo != [] && loop.g.lines[c].todo[0] == s
            else s !in loop.g.lines[c].todo && |loop.g.lines[c].todo| < |a.lines[c].todo|
  {
    hide Loop.Good, ListsInv, PollInv, LifeInv, MaskInv, ListsRely, LivesRely;
    GoodInv(loop);
    FirstOrGone(a, loop.g, c);
    Iterators(loop, c);
    if c.cursor != s {
      LeftIsShorter(a, loop.g, c);
    }
  }

  /** The socket at the iterator of `g0` has been seen, which led to `a`. */
  ghost predicate Seeing(g0: State, a: State, c: Context, s: Socket, at: Start) {
    && Inv(g0) && Inv(a) && MidPass(g0, c, at) && c in g0.lines && g0.lines[c].todo != []
    && s == g0.lines[c].todo[0] && IsLive(g0, s) && a == AfterVisit(g0, s)
  }

  lemma SeenState(g0: State, a: State, c: Context, s: Socket, at: Start)
    requires Seeing(g0, a, c, s, at)
    ensures a.lines == g0.lines && c in a.lines
  {
    hide Inv, MidPass;
  }

  /** After on_timeout: the socket is stepped past if it is still at the iterator. */
  method StepIfThere(loop: Loop, c: Context, s: Socket, ghost g0: State, ghost a: State, ghost at: Start)
    requires loop.Good() && Seeing(g0, a, c, s, at) && Rely(a, loop.g) && c in loop.contexts
    modifies loop`g, c`cursor, c`done, c`todo
    ensures loop.Good() && MidPass(loop.g, c, at) && SameRun(old(loop.g), loop.g)
    ensures c in loop.g.lines && c in a.lines && |loop.g.lines[c].todo| < |a.lines[c].todo|
    ensures loop.g.ahead == old(loop.g.ahead) && loop.g == StepPast(old(loop.g), c, s)
  {
    hide Loop.Good, Inv, Rely, MidPass, AfterVisit, ListsInv, PollInv, LifeInv, MaskInv, SameRun, AfterStep;
    SeenState(g0, a, c, s, at);
    StillFirstOrGone(loop, a, c, s);
    if s == c.cursor {
      MidPassStayed(g0, loop.g, c, at);
      SteppedRuns(loop.g, c);
      loop.StepOn(c, s);
    } else {
      MidPassLeft(g0, loop.g, c, at);
      SameRunReflexive(loop.g);
    }
  }

  /** on_timeout is called for the socket at the iterator. */
  method TimeOut(loop: Loop, c: Context, s: Socket, ghost g0: State, ghost at: Start) returns (ghost mid: State)
    requires loop.Good() && Seeing(g0, loop.g, c, s, at) && s in loop.sockets
    modifies loop, loop.ready, loop.sockets, loop.contexts
    ensures loop.Good() && MidPass(loop.g, c, at) && SameRun(old(loop.g), loop.g)
    ensures fresh(loop.sockets - old(loop.sockets)) && fresh(loop.contexts - old(loop.contexts))
    ensures c in loop.g.lines && c in old(loop.g).lines && |loop.g.lines[c].todo| < |old(loop.g).lines[c].todo|
    ensures loop.g.ahead == old(loop.g.ahead)
    ensures Gives(old(loop.g), OnSocket, mid) && loop.g == StepPast(mid, c, s)
  {
    hide Loop.Good, Inv, Rely, Control, MidPass, Seeing, SameRun, StepPast;
    var depth: nat := *;
    ghost var a := loop.g;
    SeenState(g0, a, c, s, at);
    var r := CallbackOn(loop, s, depth);
    mid := loop.g;
    RelyRuns(a, mid);
    ContextStays(loop, a, c);
    StepIfThere(loop, c, s, g0, a, at);
    SameRunTransitive(a, mid, loop.g);
  }

  lemma ContextStays(loop: Loop, a: State, c: Context)
    requires loop.Good() && Rely(a, loop.g) && c in a.lines
    ensures c in loop.contexts
  {
    hide Inv, LivesRely, RunRely, OldLinks, LineRely;
    GoodInv(loop);
  }

  /** What is needed to see the socket at the iterator of `c`, and what that leads to. */
  lemma MaySee(loop: Loop, c: Context, s: Socket, at: Start)
    requires loop.Good() && MidPass(loop.g, c, at) && c in loop.g.lines && loop.g.lines[c].todo != []
    requires s == c.cursor
    ensures c in loop.contexts && s in loop.sockets && !s.IsClosed() && IsLive(loop.g, s)
    ensures s == loop.g.lines[c].todo[0] && s.timeout == loop.g.tunings[s].timeout
    ensures Inv(loop.g) && AfterVisit(loop.g, s).lines == loop.g.lines && SameRun(loop.g, AfterVisit(loop.g, s))
    ensures AfterVisit(loop.g, s).ahead == loop.g.ahead
    ensures MidPass(AfterStep(AfterVisit(loop.g, s), c), c, at)
  {
    hide Loop.Good, Inv, MidPass, AfterVisit, ListsInv, PollInv, LifeInv, MaskInv, SameRun;
    Iterators(loop, c);
    MidPassQuiet(loop.g, c, at);
    VisitRuns(loop.g, s);
  }

  /** One turn of the inner loop: see the socket at the iterator, call back if it is due, step on. */
  method SweepOne(loop: Loop, c: Context, ghost at: Start) returns (ghost t: Sight)
    requires loop.Good() && MidPass(loop.g, c, at) && loop.g.lines[c].todo != [] && c.cursor != null
    modifies loop, loop.ready, loop.sockets, loop.contexts
    ensures loop.Good() && MidPass(loop.g, c, at) && SameRun(old(loop.g), loop.g)
    ensures fresh(loop.sockets - old(loop.sockets)) && fresh(loop.contexts - old(loop.contexts))
    ensures |loop.g.lines[c].todo| < |old(loop.g).lines[c].todo| && loop.g.ahead == old(loop.g.ahead)
    ensures Sees(c, t) && t.before == old(loop.g) && t.after == loop.g
  {
    hide Loop.Good, Inv, MidPass, AfterVisit, AfterStep, SameRun, IsLive, Gives, StepPast, Sees;
    MidPassFacts(loop.g, c, at);
    ghost var g0 := loop.g;
    var s := c.cursor;
    MaySee(loop, c, s, at);
    var fires := loop.Visit(s);
    ghost var a := loop.g;
    if fires {
      GoodInv(loop);
      ghost var mid := TimeOut(loop, c, s, g0, at);
      t := Sight(g0, mid, loop.g);
    } else {
      SteppedRuns(loop.g, c);
      loop.StepOn(c, s);
      t := Sight(g0, a, loop.g);
      PastVisited(a, c, s);
    }
    SeesOne(c, s, fires, t);
    SameRunTransitive(g0, a, loop.g);
  }

  lemma PastVisited(g: State, c: Context, s: Socket)
    requires c in g.lines && g.lines[c].todo != [] && g.lines[c].todo[0] == s
    ensures AfterStep(g, c) == StepPast(g, c, s)
  {
  }

  lemma SeesOne(c: Context, s: Socket, fires: bool, t: Sight)
    requires c in t.before.lines && t.before.lines[c].todo != [] && s == t.before.lines[c].todo[0]
    requires IsLive(t.before, s) && (fires <==> t.before.tunings[s].timeout == 1)
    requires if fires then Gives(AfterVisit(t.before, s), OnSocket, t.mid) else t.mid == AfterVisit(t.before, s)
    requires t.after == StepPast(t.mid, c, s)
    ensures Sees(c, t)
  {
    hide Gives, AfterVisit, StepPast;
  }

  lemma SteppedRuns(g: State, c: Context)
    requires c in g.lines && g.lines[c].todo != []
    ensures var h := AfterStep(g, c);
            SameRun(g, h) && h.ahead == g.ahead && c in h.lines && |h.lines[c].todo| == |g.lines[c].todo| - 1
  {
  }

  lemma MidPassFacts(g: State, c: Context, at: Start)
    requires MidPass(g, c, at)
    ensures c in g.lines && g.ahead != [] && g.ahead[0] == c
  {
    hide Passing, Swept;
  }

  lemma VisitRuns(g: State, s: Socket)
    requires IsLive(g, s)
    ensures SameRun(g, AfterVisit(g, s)) && AfterVisit(g, s).ahead == g.ahead
    ensures AfterVisit(g, s).lines == g.lines
  {
  }

  lemma RelyRuns(a: State, b: State)
    requires Rely(a, b)
    ensures SameRun(a, b) && b.ahead == a.ahead
  {
    hide LinesRely, OldLinks, LivesRely;
  }

  /**
   One pass over a context, turn by turn. The sweep events it adds to the journal carry
   strictly decreasing stamps, so it sees no socket twice; all of them were in the list when
   it began, so it sees nothing linked later; and every socket of the context that was linked
   before it began and still is, has been seen.
   */
  method SweepContext(loop: Loop, c: Context) returns (ghost sights: seq<Sight>)
    requires loop.Good() && Idle(loop.g) && loop.g.ahead != [] && c == loop.g.ahead[0]
    modifies loop, loop.ready, loop.sockets, loop.contexts
    ensures loop.Good() && Idle(loop.g) && loop.g.ahead == old(loop.g.ahead) && SameRun(old(loop.g), loop.g)
    ensures fresh(loop.sockets - old(loop.sockets)) && fresh(loop.contexts - old(loop.contexts))
    ensures c in old(loop.g).lines
    ensures PassOver(Pass(c, old(loop.g), sights, loop.g))
  {
    hide Loop.Good, Inv, MidPass, ListsInv, PollInv, LifeInv, MaskInv, Stamps, Idle, PassDone, SameRun, AfterPassStart;
    GoodInv(loop);
    InvParts(loop.g);
    PassKnown(loop.g, c);
    ghost var at := StartOf(loop.g, c);
    PassStarts(loop.g, c);
    loop.PassBegin(c);
    ghost var g1 := loop.g;
    sights := SweepList(loop, c, at);
    SameRunTransitive(old(loop.g), g1, loop.g);
    GoodInv(loop);
    InvParts(loop.g);
    MidPassFacts(loop.g, c, at);
    MidPassDone(loop.g, c, at);
    PassOverIsIdle(loop.g, c);
  }

  /** The inner loop, from the start of the list to its end. */
  method SweepList(loop: Loop, c: Context, ghost at: Start) returns (ghost sights: seq<Sight>)
    requires loop.Good() && MidPass(loop.g, c, at)
    modifies loop, loop.ready, loop.sockets, loop.contexts
    ensures loop.Good() && MidPass(loop.g, c, at) && loop.g.lines[c].todo == []
    ensures loop.g.ahead == old(loop.g.ahead) && SameRun(old(loop.g), loop.g)
    ensures fresh(loop.sockets - old(loop.sockets)) && fresh(loop.contexts - old(loop.contexts))
    ensures Turning(old(loop.g), c, sights, loop.g)
  {
    hide Loop.Good, Inv, MidPass, SameRun, ListsInv, Sees;
    sights := [];
    NoTurns(loop.g, c);
    MidPassFacts(loop.g, c, at);
    Iterators(loop, c);
    SameRunReflexive(loop.g);
    while c.cursor != null
      invariant loop.Good() && MidPass(loop.g, c, at)
      invariant c in loop.g.lines && c.cursor == At(loop.g.lines[c].todo, 0)
      invariant SameRun(old(loop.g), loop.g) && loop.g.ahead == old(loop.g.ahead)
      invariant fresh(loop.sockets - old(loop.sockets)) && fresh(loop.contexts - old(loop.contexts))
      invariant Turning(old(loop.g), c, sights, loop.g)
      decreases |loop.g.lines[c].todo|
    {
      ghost var before := loop.g;
      ghost var t := SweepOne(loop, c, at);
      SameRunTransitive(old(loop.g), before, loop.g);
      OneMoreTurn(old(loop.g), c, sights, t);
      sights := sights + [t];
      MidPassFacts(loop.g, c, at);
      Iterators(loop, c);
    }
  }

  lemma NoTurns(g: State, c: Context)
    ensures Turning(g, c, [], g)
  {
  }

  lemma OneMoreTurn(g: State, c: Context, sights: seq<Sight>, t: Sight)
    requires Turning(g, c, sights, t.before) && Sees(c, t)
    ensures Turning(g, c, sights + [t], t.after)
  {
    hide Sees;
    assert (sights + [t])[..|sights|] == sights;
  }

  lemma PassKnown(g: State, c: Context)
    requires ListsInv(g) && g.ahead != [] && g.ahead[0] == c
    ensures c in g.lines
  {
    hide LinesOk, PlacesOk, ClosedOk;
  }

  lemma PassStarts(g: State, c: Context)
    requires Inv(g) && Idle(g) && c in g.lines && g.ahead != [] && g.ahead[0] == c
    ensures var h := AfterPassStart(g, c);
            && c in h.lines && h.ahead == g.ahead
            && MidPass(h, c, StartOf(g, c)) && SameRun(g, h)
  {
    hide ListsInv, PollInv, LifeInv, MaskInv, Passing, Counted, Stamps, Ids, KeysOk;
    PassStartKeeps(g, c);
    var h := AfterPassStart(g, c);
    InvParts(h);
    PassBegins(h, c);
    SameKeysAll(h);
    CountBegins(h, c, StartOf(g, c));
    NothingSwept(g.log);
  }

  lemma SameKeysAll(g: State)
    requires LifeInv(g)
    ensures KeysOk(g.places, g.tags, g.tunings)
  {
    hide KeysOk, CountOk, IdsOk, HistoryOk, JournalOk;
  }

  lemma NothingSwept(log: seq<Event>)
    ensures Swept(log, |log|) == []
  {
  }

  /** A pass over `context`, from the state it began in, turn by turn, to the one it ended in. */
  datatype Pass = Pass(context: Context, before: State, sights: seq<Sight>, after: State)

  ghost predicate PassOver(p: Pass) {
    && Inv(p.before) && Inv(p.after) && SameRun(p.before, p.after) && p.context in p.before.lines
    && p.before.ahead != [] && p.context == p.before.ahead[0] && p.after.ahead == p.before.ahead
    && Turning(AfterPassStart(p.before, p.context), p.context, p.sights, p.after)
    && p.context in p.after.lines && p.after.lines[p.context].todo == []
    && PassDone(p.after, p.context, StartOf(p.before, p.context))
  }

  /** The passes of a sweep from `g` on: each begins where the one before it ended. */
  ghost predicate Passes(g: State, passes: seq<Pass>, h: State) {
    if passes == [] then h == AfterSweepStart(g)
    else
      var last := passes[|passes| - 1];
      && PassOver(last) && last.after.ahead != [] && h == AfterPassEnd(last.after)
      && Passes(g, passes[..|passes| - 1], last.before)
  }

  /** A whole sweep. */
  ghost predicate SweepOver(g: State, passes: seq<Pass>, h: State) {
    Passes(g, passes, h) && h.ahead == []
  }

  /** It passes over the contexts there were when it began, and no others, in list order. */
  lemma {:induction false} PassesInOrder(g: State, passes: seq<Pass>, h: State)
    requires Passes(g, passes, h) && g.ahead == []
    ensures |passes| + |h.ahead| == |g.passed| && h.ahead == g.passed[|passes|..]
    ensures forall i | 0 <= i < |passes| :: passes[i].context == g.passed[i]
    decreases |passes|
  {
    hide PassDone, Inv, SameRun, StartOf, Turning, AfterPassStart;
    if passes != [] {
      var n := |passes| - 1;
      var front, last := passes[..n], passes[n];
      PassesInOrder(g, front, last.before);
      assert forall i | 0 <= i < n :: passes[i] == front[i];
      assert last.context == g.passed[n..][0] == g.passed[n];
      assert h.ahead == g.passed[n..][1..] == g.passed[n + 1..];
    }
  }

  /** One turn of the outer loop: a pass over the context at the loop's iterator, and on to the next. */
  method SweepNext(loop: Loop) returns (ghost p: Pass)
    requires loop.Good() && Idle(loop.g) && loop.cursor != null && loop.g.ahead != [] && loop.cursor == loop.g.ahead[0]
    modifies loop, loop.ready, loop.sockets, loop.contexts
    ensures loop.Good() && Idle(loop.g) && SameRun(old(loop.g), loop.g)
    ensures fresh(loop.sockets - old(loop.sockets)) && fresh(loop.contexts - old(loop.contexts))
    ensures p.before == old(loop.g) && PassOver(p) && p.after.ahead != [] && loop.g == AfterPassEnd(p.after)
    ensures |loop.g.ahead| < |old(loop.g).ahead| && loop.cursor == ContextAt(loop.g.ahead, 0)
  {
    hide Loop.Good, Inv, Idle, PassOver, SameRun, AfterPassEnd;
    ghost var before := loop.g;
    var c := loop.cursor;
    ghost var sights := SweepContext(loop, c);
    p := Pass(c, before, sights, loop.g);
    PassEnds(p.after);
    loop.IteratorAt();
    loop.PassEnd();
    SameRunTransitive(before, p.after, loop.g);
    loop.IteratorAt();
  }

  /**
   `asock_timer_sweep`: one pass after the other over every context that existed when the
   sweep began; contexts that callbacks create are not passed over.
   */
  method Sweep(loop: Loop) returns (ghost passes: seq<Pass>)
    requires loop.Good() && loop.g.ahead == []
    modifies loop, loop.ready, loop.sockets, loop.contexts
    ensures loop.Good() && SameRun(old(loop.g), loop.g) && SweepOver(old(loop.g), passes, loop.g)
    ensures fresh(loop.sockets - old(loop.sockets)) && fresh(loop.contexts - old(loop.contexts))
  {
    hide Loop.Good, Inv, Idle, PassOver, SameRun, AfterSweepStart, AfterPassEnd;
    SweepStarts(loop.g);
    loop.SweepBegin();
    passes := [];
    loop.IteratorAt();
    PassesNone(old(loop.g));
    while loop.cursor != null
      invariant loop.Good() && Idle(loop.g) && SameRun(old(loop.g), loop.g)
      invariant loop.cursor == ContextAt(loop.g.ahead, 0)
      invariant fresh(loop.sockets - old(loop.sockets)) && fresh(loop.contexts - old(loop.contexts))
      invariant Passes(old(loop.g), passes, loop.g)
      decreases |loop.g.ahead|
    {
      ghost var before := loop.g;
      ghost var p := SweepNext(loop);
      SameRunTransitive(old(loop.g), before, loop.g);
      PassesMore(old(loop.g), passes, p);
      passes := passes + [p];
    }
  }

  lemma PassesNone(g: State)
    ensures Passes(g, [], AfterSweepStart(g))
  {
  }

  lemma PassesMore(g: State, passes: seq<Pass>, p: Pass)
    requires Passes(g, passes, p.before) && PassOver(p) && p.after.ahead != []
    ensures Passes(g, passes + [p], AfterPassEnd(p.after))
  {
    hide PassOver;
    assert (passes + [p])[..|passes|] == passes;
  }

  lemma PassEnds(g: State)
    requires g.ahead != []
    ensures SameRun(g, AfterPassEnd(g)) && AfterPassEnd(g).ahead == g.ahead[1..]
  {
  }

  lemma SweepStarts(g: State)
    requires g.ahead == []
    ensures var h := AfterSweepStart(g); SameRun(g, h) && h.ahead == g.passed
  {
  }
}
