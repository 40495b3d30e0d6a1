/**
 The calls that a callback can make: each keeps the invariant and is one step of the
 relation that callback sites rely on.
 */
module Steps {
  import opened Interference
  import opened Journal
  import opened Kernel
  import opened Masks
  import opened Memory
  import opened PollWord
  import opened Relinking
  import opened Repolling
  import opened Retuning
  import opened Sequences
  import opened State

  // ---------- calls that retune one socket ----------

  lemma RetunedLives(g: State, h: State, s: Socket)
    requires LifeInv(g) && Retuned(g, h, s)
    requires h.tunings[s].kind == SemiKind ==> g.tunings[s].kind == SemiKind
    ensures LivesRely(g, h)
  {
    hide CountOk, HistoryOk, JournalOk;
    LivesReflexive(g);
  }

  lemma RetunedLists(g: State, h: State, s: Socket)
    requires ListsInv(g) && Retuned(g, h, s)
    ensures ListsRely(g, h)
  {
    hide LinesOk, PlacesOk, ClosedOk, ContextsOk;
    LinesReflexive(g.places, g.lines);
    hide LinesRely;
  }

  lemma RetunedRely(g: State, h: State, s: Socket)
    requires Inv(g) && Retuned(g, h, s)
    requires h.tunings[s].kind == SemiKind ==> g.tunings[s].kind == SemiKind
    requires Continues(g.log, h.log) && (g.failed ==> h.failed)
    ensures Rely(g, h)
  {
    hide ListsInv, PollInv, LifeInv, MaskInv, ListsRely, LivesRely;
    RetunedLives(g, h, s);
    RetunedLists(g, h, s);
  }

  lemma NotedStep(g: State, s: Socket, e: Event)
    requires Inv(g) && IsLive(g, s) && e.id == g.tags[s].id
    requires Allowed(g.mapping, g.log, e) && !IsShort(e) && !IsLoops(e)
    requires Fits(g.mapping, Next(TrackOf(g.log, e.id), e), g.places[s].open, g.tunings[s])
    requires g.places[s].open ==> KeepsPoll(e)
    ensures Inv(Noted(g, e)) && Rely(g, Noted(g, e))
  {
    hide ListsInv, PollInv, LifeInv, MaskInv, Rely, Allowed, Fits;
    assert g.tunings[s := g.tunings[s]] == g.tunings;
    NotedKeeps(g, s, e);
    RetunedRely(g, Noted(g, e), s);
  }

  lemma TimeoutStep(g: State, s: Socket, sweeps: nat)
    requires Inv(g) && IsLive(g, s)
    ensures Inv(AfterTimeout(g, s, sweeps)) && Rely(g, AfterTimeout(g, s, sweeps))
    ensures Control(g, AfterTimeout(g, s, sweeps))
  {
    hide ListsInv, PollInv, LifeInv, MaskInv, Rely, Control;
    ControlPlain(g, AfterTimeout(g, s, sweeps));
    TimeoutKeeps(g, s, sweeps);
    RetunedRely(g, AfterTimeout(g, s, sweeps), s);
  }

  lemma ShutdownStep(g: State, s: Socket)
    requires Inv(g) && IsLive(g, s)
    ensures Inv(AfterShutdown(g, s)) && Rely(g, AfterShutdown(g, s)) && Control(g, AfterShutdown(g, s))
  {
    hide ListsInv, PollInv, LifeInv, MaskInv, Rely, Control;
    ControlPlain(g, AfterShutdown(g, s));
    ShutdownKeeps(g, s);
    if g.places[s].open && g.tunings[s].kind != ShutdownKind {
      var t := g.tunings[s];
      var g1 := g.(tunings := g.tunings[s := t.(kind := ShutdownKind)], log := g.log + [Shut(g.tags[s].id)]);
      ChangeIs(g1, s, t.interest.And(READABLE));
      RetunedRely(g, AfterShutdown(g, s), s);
    } else {
      RelyReflexive(g);
    }
  }

  lemma WriteControls(g: State, s: Socket, asked: int, taken: int)
    requires IsLive(g, s)
    ensures Control(g, AfterWrite(g, s, asked, taken))
  {
    hide KqueueChange;
    var h := AfterWrite(g, s, asked, taken);
    if g.places[s].open && g.tunings[s].kind != ShutdownKind {
      assert h.log[|g.log|] == Sent(g.tags[s].id, asked, taken);
    }
    DueAcross(g.log, h.log);
  }

  lemma WriteStep(g: State, s: Socket, asked: int, taken: int)
    requires Inv(g) && IsLive(g, s)
    ensures Inv(AfterWrite(g, s, asked, taken)) && Rely(g, AfterWrite(g, s, asked, taken))
    ensures Control(g, AfterWrite(g, s, asked, taken))
  {
    hide ListsInv, PollInv, LifeInv, MaskInv, Rely, Control;
    WriteControls(g, s, asked, taken);
    WriteKeeps(g, s, asked, taken);
    if g.places[s].open && g.tunings[s].kind != ShutdownKind {
      var g1 := Noted(g, Sent(g.tags[s].id, asked, taken)).(failed := true);
      assert g.tunings[s := g.tunings[s]] == g.tunings;
      ChangeIs(g1, s, BOTH);
      RetunedRely(g, AfterWrite(g, s, asked, taken), s);
    } else {
      RelyReflexive(g);
    }
  }

  // ---------- closing ----------

  lemma CloseKeeps(g: State, s: Socket)
    requires Inv(g) && IsLive(g, s) && g.places[s].open
    ensures Inv(AfterCloseQuietly(g, s))
  {
    hide ListsInv, PollInv, LifeInv, MaskInv, AfterCloseQuietly;
    CloseKeepsLists(g, s);
    CloseKeepsPoll(g, s);
    CloseKeepsLife(g, s);
    CloseKeepsMasks(g, s);
  }

  lemma DropLine(places: map<Socket, Place>, after: map<Socket, Place>, c: Context, line: Line, s: Socket)
    requires LineOk(places, c, line)
    requires forall x | x in places && x != s :: x in after && after[x] == places[x]
    requires !LinkedIn(after, c, s) || s !in places || after[s].stamp != places[s].stamp
    ensures LineRely(places, line, after, line.Drop(s), c)
  {
    hide Sorted;
    WithoutMembers(line.todo, s);
  }

  lemma OtherLine(places: map<Socket, Place>, after: map<Socket, Place>, c: Context, line: Line, s: Socket)
    requires LineOk(places, c, line) && !line.Has(s)
    requires forall x | x in places && x != s :: x in after && after[x] == places[x]
    ensures LineRely(places, line, after, line, c)
  {
    hide Sorted;
  }

  lemma DropLinesRely(places: map<Socket, Place>, after: map<Socket, Place>, lines: map<Context, Line>, s: Socket)
    requires LinesOk(places, lines) && s in places && places[s].ctx in lines
    requires forall x | x in places && x != s :: x in after && after[x] == places[x]
    requires !IsOpen(after, s) || after[s].stamp != places[s].stamp
    ensures var k := places[s].ctx; LinesRely(places, lines, after, lines[k := lines[k].Drop(s)])
  {
    hide LineRely;
    var k := places[s].ctx;
    forall c | c in lines
      ensures LineRely(places, lines[c], after, lines[k := lines[k].Drop(s)][c], c)
    {
      assert LineOk(places, c, lines[c]);
      if c == k {
        DropLine(places, after, c, lines[c], s);
      } else {
        OtherLine(places, after, c, lines[c], s);
      }
    }
  }

  lemma CloseLists(g: State, s: Socket)
    requires ListsInv(g) && IsLive(g, s) && g.places[s].open
    ensures ListsRely(g, AfterCloseQuietly(g, s))
  {
    hide LinesOk, PlacesOk, ClosedOk, ContextsOk, LinesRely, OldLinks, IsSuffix, Hangup, Retarget, Line.Drop;
    var h := AfterCloseQuietly(g, s);
    CloseRely(g, s);
    SuffixOfPrepend(g.closed, s);
    SuffixReflexive(g.passed);
  }

  lemma CloseRely(g: State, s: Socket)
    requires LinesOk(g.places, g.lines) && IsLive(g, s) && g.places[s].open
    ensures var h := AfterCloseQuietly(g, s);
            LinesRely(g.places, g.lines, h.places, h.lines) && OldLinks(g.places, h.places, g.clock)
  {
    hide LinesOk, LinesRely, Hangup, Retarget, Line.Drop;
    DropLinesRely(g.places, AfterCloseQuietly(g, s).places, g.lines, s);
  }

  lemma SuffixReflexive<T>(a: seq<T>)
    ensures IsSuffix(a, a)
  {
  }

  lemma CloseLives(g: State, s: Socket)
    requires LifeInv(g) && IsLive(g, s) && g.places[s].open
    ensures LivesRely(g, AfterCloseQuietly(g, s))
  {
    hide CountOk, HistoryOk, JournalOk, Hangup;
    LivesReflexive(g);
  }

  lemma CloseStep(g: State, s: Socket)
    requires Inv(g) && IsLive(g, s) && g.places[s].open
    ensures Inv(AfterCloseQuietly(g, s)) && Rely(g, AfterCloseQuietly(g, s)) && Control(g, AfterCloseQuietly(g, s))
  {
    hide Inv, ListsRely, LivesRely, RunRely, AfterCloseQuietly, Control;
    CloseKeeps(g, s);
    InvParts(g);
    CloseLists(g, s);
    CloseLives(g, s);
    CloseRuns(g, s);
  }

  lemma CloseRuns(g: State, s: Socket)
    requires IsLive(g, s)
    ensures RunRely(g, AfterCloseQuietly(g, s)) && Control(g, AfterCloseQuietly(g, s))
  {
    hide Line.Drop, Hangup, Control;
    ControlPlain(g, AfterCloseQuietly(g, s));
    assert Leaves(AfterCloseQuietly(g, s).log[|g.log|], g.tags[s].id);
  }

  lemma InvParts(g: State)
    requires Inv(g)
    ensures ListsInv(g) && PollInv(g) && LifeInv(g)
  {
    hide ListsInv, PollInv, LifeInv, MaskInv;
  }

  // ---------- creating ----------

  lemma PushRely(places: map<Socket, Place>, lines: map<Context, Line>, c: Context, t: Socket, clock: nat)
    requires LinesOk(places, lines) && PlacesOk(places, lines, clock) && c in lines && t !in places
    ensures LinesRely(places, lines, places[t := Place(c, true, clock)], lines[c := lines[c].Push(t)])
    ensures OldLinks(places, places[t := Place(c, true, clock)], clock)
  {
    hide Sorted;
    var after := lines[c := lines[c].Push(t)];
    forall k | k in lines
      ensures LineRely(places, lines[k], places[t := Place(c, true, clock)], after[k], k)
    {
      assert LineOk(places, k, lines[k]);
    }
  }

  lemma CreateKeeps(g: State, c: Context, s: Socket, fd: int, kind: Kind, events: Mask)
    requires Inv(g) && MayCreate(g, c, s, fd, kind, events)
    ensures Inv(AfterCreate(g, c, s, fd, kind, events))
  {
    hide AfterCreate, LifeInv, MaskInv, ListsInv, DescriptorsOk, InterestOk, PendingOk;
    assert s !in g.tags && s !in g.tunings by {
      SameKeys(g, s);
    }
    UnownedIsFilterless(g, fd);
    CreateKeepsLists(g, c, s, fd, kind, events);
    CreateKeepsPoll(g, c, s, fd, kind, events);
    CreateKeepsLife(g, c, s, fd, kind, events);
    CreateKeepsMasks(g, c, s, fd, kind, events);
  }

  lemma SameKeys(g: State, s: Socket)
    requires LifeInv(g)
    ensures s in g.places <==> s in g.tags
    ensures s in g.places <==> s in g.tunings
  {
    hide CountOk, IdsOk, HistoryOk, JournalOk;
    assert s in g.places <==> s in g.places.Keys;
    assert s in g.tags <==> s in g.tags.Keys;
    assert s in g.tunings <==> s in g.tunings.Keys;
  }

  /** A new block, a descriptor that no open socket has, and one of the three ways a poll is created. */
  ghost predicate MayCreate(g: State, c: Context, s: Socket, fd: int, kind: Kind, events: Mask) {
    && c in g.lines && s !in g.places
    && (forall x | x in g.places && x in g.tags && g.places[x].open :: g.tags[x].fd != fd)
    && Creatable(kind, events)
  }

  /** What creating a socket leaves in memory. */
  lemma CreateLeaves(g: State, c: Context, s: Socket, fd: int, kind: Kind, events: Mask)
    requires Inv(g) && MayCreate(g, c, s, fd, kind, events)
    ensures var h := AfterCreate(g, c, s, fd, kind, events);
            && s in h.places && h.places == g.places[s := Place(c, true, g.clock)]
            && s in h.tags && h.tags == g.tags[s := Tag(g.nextId, fd, kind == SemiKind && events == READABLE)]
            && s in h.tunings && h.tunings == g.tunings[s := Tuning(kind, events, 0)]
            && h.lines == g.lines[c := g.lines[c].Push(s)] && Nowhere(g.lines, s) && s !in g.closed
            && h.closed == g.closed && h.passed == g.passed && h.ahead == g.ahead && h.pending == g.pending
            && h.filters == KqueueChange(g.filters, fd, NONE, events, s)
            && h.mapping == g.mapping && h.failed == g.failed && h.count == g.count + 1 && h.nextId == g.nextId + 1
            && h.queues == g.queues
  {
    hide LinesOk, PollInv, LifeInv, MaskInv, KqueueChange, Nowhere;
    AbsentNowhere(g.places, g.lines, s);
  }

  lemma CreateLives(g: State, c: Context, s: Socket, fd: int, kind: Kind, events: Mask)
    requires LifeInv(g) && c in g.lines && s !in g.places
    ensures LivesRely(g, AfterCreate(g, c, s, fd, kind, events))
  {
    hide CountOk, HistoryOk, JournalOk, KqueueChange, AllEvolve, PinsStay;
    var h := AfterCreate(g, c, s, fd, kind, events);
    CreateEvolves(g, c, s, fd, kind, events);
    CreatePins(g, c, s, fd, kind, events);
    forall x | x in g.tags
      ensures HasId(h.tags, g.tags[x].id)
    {
      assert h.tags[x].id == g.tags[x].id;
    }
  }

  lemma CreateEvolves(g: State, c: Context, s: Socket, fd: int, kind: Kind, events: Mask)
    requires LifeInv(g) && c in g.lines && s !in g.places
    ensures AllEvolve(g, AfterCreate(g, c, s, fd, kind, events))
  {
    hide CountOk, HistoryOk, JournalOk, KqueueChange, Evolves;
    var h := AfterCreate(g, c, s, fd, kind, events);
    forall x, y | x in g.tags && y in h.tags && g.tags[x].id == h.tags[y].id
      ensures Evolves(g, h, x, y)
    {
      assert y == x && x != s;
      CreateKeepsOthers(g, c, s, fd, kind, events, x);
    }
  }

  lemma CreateKeepsOthers(g: State, c: Context, s: Socket, fd: int, kind: Kind, events: Mask, x: Socket)
    requires c in g.lines && x != s
    ensures var h := AfterCreate(g, c, s, fd, kind, events);
            Evolves(g, h, x, x) && (Pinned(g, x) ==> Pinned(h, x) && h.tags[x] == g.tags[x])
  {
    hide KqueueChange;
  }

  lemma CreatePins(g: State, c: Context, s: Socket, fd: int, kind: Kind, events: Mask)
    requires c in g.lines && s !in g.places
    ensures PinsStay(g, AfterCreate(g, c, s, fd, kind, events))
  {
    hide AfterCreate;
    var h := AfterCreate(g, c, s, fd, kind, events);
    forall x | Pinned(g, x)
      ensures Pinned(h, x) && h.tags[x] == g.tags[x]
    {
      CreateKeepsOthers(g, c, s, fd, kind, events, x);
    }
  }

  lemma CreateLists(g: State, c: Context, s: Socket, fd: int, kind: Kind, events: Mask)
    requires ListsInv(g) && MayCreate(g, c, s, fd, kind, events)
    ensures ListsRely(g, AfterCreate(g, c, s, fd, kind, events))
  {
    hide LinesOk, PlacesOk, LinesRely, OldLinks, IsSuffix, KqueueChange;
    PushRely(g.places, g.lines, c, s, g.clock);
    SuffixReflexive(g.passed);
    SuffixReflexive(g.closed);
  }

  lemma CreateStep(g: State, c: Context, s: Socket, fd: int, kind: Kind, events: Mask)
    requires Inv(g) && MayCreate(g, c, s, fd, kind, events)
    ensures var h := AfterCreate(g, c, s, fd, kind, events);
            && Inv(h) && Rely(g, h)
            && Control(g, if kind == SocketKind then AfterCall(h, OnSocket) else h)
  {
    hide Inv, ListsRely, LivesRely, RunRely, AfterCreate, Control;
    CreateKeeps(g, c, s, fd, kind, events);
    InvParts(g);
    CreateLists(g, c, s, fd, kind, events);
    CreateLives(g, c, s, fd, kind, events);
    CreateRuns(g, c, s, fd, kind, events);
  }

  lemma CreateRuns(g: State, c: Context, s: Socket, fd: int, kind: Kind, events: Mask)
    requires c in g.lines && s !in g.places
    ensures var h := AfterCreate(g, c, s, fd, kind, events);
            RunRely(g, h) && Control(g, if kind == SocketKind then AfterCall(h, OnSocket) else h)
  {
    hide KqueueChange, Control;
    var h := AfterCreate(g, c, s, fd, kind, events);
    if kind == SocketKind {
      assert h.log[..|h.log| - 1] == g.log + [Created(g.nextId, kind, events)];
      AnsweredAfter(g, h);
    } else {
      ControlPlain(g, h);
    }
  }

  // ---------- contexts ----------

  lemma ContextKeeps(g: State, c: Context)
    requires Inv(g) && c !in g.lines
    ensures Inv(AfterContext(g, c))
  {
    hide ListsInv, KeysOk, CountOk, IdsOk, HistoryOk, JournalOk, DescriptorsOk, FiltersOk, InterestOk, PendingOk;
    hide MaskInv;
    ContextKeepsLists(g, c);
    MasksStay(g, AfterContext(g, c));
  }

  lemma ContextStep(g: State, c: Context)
    requires Inv(g) && c !in g.lines
    ensures Inv(AfterContext(g, c)) && Rely(g, AfterContext(g, c)) && Control(g, AfterContext(g, c))
  {
    hide Inv, ListsRely, LivesRely, RunRely, Control;
    ControlPlain(g, AfterContext(g, c));
    ContextKeeps(g, c);
    InvParts(g);
    ContextLists(g, c);
    ContextLives(g, c);
    ContextRuns(g, c);
  }

  lemma ContextLists(g: State, c: Context)
    requires ListsInv(g) && c !in g.lines
    ensures ListsRely(g, AfterContext(g, c))
  {
    hide ListsInv, LinesRely, IsSuffix, OldLinks;
    ContextLines(g, c);
    SuffixOfPrepend(g.passed, c);
    SuffixReflexive(g.closed);
  }

  lemma ContextRuns(g: State, c: Context)
    ensures RunRely(g, AfterContext(g, c))
  {
  }

  lemma ContextLines(g: State, c: Context)
    requires ListsInv(g) && c !in g.lines
    ensures var h := AfterContext(g, c);
            LinesRely(g.places, g.lines, h.places, h.lines) && OldLinks(g.places, h.places, g.clock)
  {
    hide PlacesOk, ClosedOk, ContextsOk, LineRely;
    LinesReflexive(g.places, g.lines);
  }

  lemma ContextLives(g: State, c: Context)
    requires LifeInv(g)
    ensures LivesRely(g, AfterContext(g, c))
  {
    hide CountOk, HistoryOk, JournalOk, HasId;
    LivesReflexive(g);
  }

  // ---------- other polls ----------

  lemma CallbackPollStep(g: State)
    requires Inv(g)
    ensures Inv(AfterCallbackPoll(g)) && Rely(g, AfterCallbackPoll(g)) && Control(g, AfterCallbackPoll(g))
  {
    hide ListsInv, PollInv, KeysOk, IdsOk, HistoryOk, JournalOk, MaskInv, ListsRely, LivesRely, SameRun, Control;
    var h := AfterCallbackPoll(g);
    ControlPlain(g, h);
    MasksStay(g, h);
    CallbackPollParts(g);
    CallbackPollRelies(g);
  }

  lemma CallbackPollParts(g: State)
    requires ListsInv(g) && PollInv(g)
    ensures ListsInv(AfterCallbackPoll(g)) && PollInv(AfterCallbackPoll(g))
  {
    hide LinesOk, PlacesOk, ClosedOk, ContextsOk, DescriptorsOk, FiltersOk, InterestOk, PendingOk;
  }

  lemma CallbackPollRelies(g: State)
    requires Inv(g)
    ensures var h := AfterCallbackPoll(g); ListsRely(g, h) && LivesRely(g, h) && SameRun(g, h)
  {
    hide Inv, LinesRely, OldLinks, IsSuffix, StaysLive, AllEvolve, PinsStay, KeepsOld, Evolves, Pinned;
    RelyReflexive(g);
    AllEvolveOn(g);
  }

  lemma AllEvolveOn(g: State)
    requires AllEvolve(g, g) && PinsStay(g, g) && KeepsOld(g, g)
    ensures var h := AfterCallbackPoll(g); AllEvolve(g, h) && PinsStay(g, h) && KeepsOld(g, h)
  {
    var h := AfterCallbackPoll(g);
    forall x, y | x in g.tags && y in h.tags && g.tags[x].id == h.tags[y].id
      ensures Evolves(g, h, x, y)
    {
      assert Evolves(g, g, x, y);
    }
  }

  // ---------- giving control ----------

  /** That a callback gets control changes nothing else. */
  lemma CallStep(g: State, hook: Hook)
    requires Inv(g)
    ensures Inv(AfterCall(g, hook)) && Rely(g, AfterCall(g, hook))
  {
    hide ListsInv, PollInv, LifeInv, MaskInv, ListsRely, LivesRely, RunRely;
    CallParts(g, hook);
    CallRelies(g, hook);
  }

  lemma CallParts(g: State, hook: Hook)
    requires Inv(g)
    ensures var h := AfterCall(g, hook); ListsInv(h) && PollInv(h) && LifeInv(h) && MaskInv(h)
  {
    hide LinesOk, PlacesOk, ClosedOk, ContextsOk, DescriptorsOk, FiltersOk, InterestOk, PendingOk;
    hide KeysOk, CountOk, IdsOk, HistoryOk, JournalOk, MaskInv;
    MasksStay(g, AfterCall(g, hook));
  }

  lemma CallRelies(g: State, hook: Hook)
    requires Inv(g)
    ensures var h := AfterCall(g, hook); ListsRely(g, h) && LivesRely(g, h) && RunRely(g, h)
  {
    hide Inv, LinesRely, OldLinks, IsSuffix, StaysLive, AllEvolve, PinsStay, KeepsOld, StaysPut, Evolves, Pinned;
    RelyReflexive(g);
    CallEvolves(g, hook);
  }

  lemma CallEvolves(g: State, hook: Hook)
    requires AllEvolve(g, g) && PinsStay(g, g) && KeepsOld(g, g)
    ensures var h := AfterCall(g, hook); AllEvolve(g, h) && PinsStay(g, h) && KeepsOld(g, h) && StaysPut(g, h)
  {
    var h := AfterCall(g, hook);
    StaysPutInPlace(g, h);
    forall x, y | x in g.tags && y in h.tags && g.tags[x].id == h.tags[y].id
      ensures Evolves(g, h, x, y)
    {
      assert Evolves(g, g, x, y);
    }
  }

  // ---------- adopting ----------

  /** What adoption of an open socket needs: it is movable unless it is resized in place. */
  ghost predicate MayAdopt(g: State, c: Context, s: Socket, t: Socket) {
    && IsLive(g, s) && g.places[s].open && !Pinned(g, s) && c in g.lines
    && (t == s || (t !in g.places && Movable(g, s) && !Current(g.pending, t)))
  }

  lemma AdoptKeeps(g: State, c: Context, s: Socket, t: Socket)
    requires Inv(g) && MayAdopt(g, c, s, t)
    ensures Inv(AfterAdopt(g, c, s, t))
  {
    hide AfterAdopt, LifeInv, MaskInv, ListsInv, PollInv, Movable;
    AdoptKeepsLists(g, c, s, t);
    AdoptKeepsPoll(g, c, s, t);
    AdoptKeepsLife(g, c, s, t);
    AdoptKeepsMasks(g, c, s, t);
  }

  /** What adoption leaves in memory. */
  lemma AdoptLeaves(g: State, c: Context, s: Socket, t: Socket)
    requires IsLive(g, s) && c in g.lines && Inv(g) && MayAdopt(g, c, s, t)
    ensures var h, rest := AfterAdopt(g, c, s, t), Removed(g, s).lines;
            var repair := t != s && g.tunings[s].interest != NONE;
            && c in rest && h.lines == rest[c := rest[c].Push(t)] && Nowhere(rest, t)
            && h.closed == g.closed && h.passed == g.passed && h.ahead == g.ahead && t !in g.closed
            && h.pending == (if repair then Retarget(g.pending, s, ToSocket(t)) else g.pending)
            && h.filters == (if repair then KqueueChange(g.filters, g.tags[s].fd, NONE, g.tunings[s].interest, t)
                else g.filters)
            && h.mapping == g.mapping && h.failed == g.failed && h.count == g.count && h.nextId == g.nextId
            && h.queues == g.queues
    ensures AtMostTwice(g.pending)
  {
    hide LinesOk, Movable, LifeInv, MaskInv, AtMostTwice, KqueueChange, Retarget, Nowhere, IdsOk, Without;
    DropLines(g.places, g.lines, s);
    var k := g.places[s].ctx;
    if t != s {
      AbsentNowhere(g.places, g.lines[k := g.lines[k].Drop(s)], t);
    }
  }

  lemma RemoveRely(g: State, s: Socket)
    requires ListsInv(g) && IsLive(g, s) && g.places[s].open
    ensures ListsRely(g, Removed(g, s))
  {
    hide LinesOk, ClosedOk, ContextsOk, LinesRely, IsSuffix;
    DropLinesRely(g.places, Removed(g, s).places, g.lines, s);
    SuffixReflexive(g.passed);
    SuffixReflexive(g.closed);
  }

  lemma RelinkRely(g: State, h: State, c: Context, t: Socket)
    requires ListsInv(g) && c in g.lines && t !in g.places
    requires h.places == g.places[t := Place(c, true, g.clock)] && h.lines == g.lines[c := g.lines[c].Push(t)]
    requires h.closed == g.closed && h.clock == g.clock + 1 && h.passed == g.passed && h.ahead == g.ahead
    ensures ListsRely(g, h)
  {
    hide LinesOk, PlacesOk, ClosedOk, ContextsOk, LinesRely, OldLinks, IsSuffix;
    PushRely(g.places, g.lines, c, t, g.clock);
    SuffixReflexive(g.passed);
    SuffixReflexive(g.closed);
  }

  lemma AdoptLists(g: State, c: Context, s: Socket, t: Socket)
    requires ListsInv(g) && IsLive(g, s) && g.places[s].open && c in g.lines && (t == s || t !in g.places)
    ensures ListsRely(g, AfterAdopt(g, c, s, t))
  {
    hide ListsInv, ListsRely, KqueueChange, Retarget;
    RemoveKeepsLists(g, s);
    RemoveRely(g, s);
    RelinkRely(Removed(g, s), AfterAdopt(g, c, s, t), c, t);
    ListsTransitive(g, Removed(g, s), AfterAdopt(g, c, s, t));
  }

  lemma AdoptLives(g: State, c: Context, s: Socket, t: Socket)
    requires LifeInv(g) && IsLive(g, s) && g.places[s].open && !Pinned(g, s)
    requires c in g.lines && (t == s || t !in g.places)
    ensures LivesRely(g, AfterAdopt(g, c, s, t))
  {
    hide CountOk, HistoryOk, JournalOk, KqueueChange, Retarget, AllEvolve, PinsStay;
    var h := AfterAdopt(g, c, s, t);
    AdoptEvolves(g, c, s, t);
    AdoptPins(g, c, s, t);
    forall x | x in g.tags
      ensures HasId(h.tags, g.tags[x].id)
    {
      var y: Socket := if x == s then t else x;
      assert y in h.tags && h.tags[y].id == g.tags[x].id;
    }
  }

  lemma AdoptEvolves(g: State, c: Context, s: Socket, t: Socket)
    requires LifeInv(g) && IsLive(g, s) && g.places[s].open && c in g.lines && (t == s || t !in g.places)
    ensures AllEvolve(g, AfterAdopt(g, c, s, t))
  {
    hide CountOk, HistoryOk, JournalOk, KqueueChange, Retarget, Evolves;
    var h := AfterAdopt(g, c, s, t);
    forall x, y | x in g.tags && y in h.tags && g.tags[x].id == h.tags[y].id
      ensures Evolves(g, h, x, y)
    {
      assert y == if x == s then t else x;
      AdoptKeepsOthers(g, c, s, t, x);
    }
  }

  lemma AdoptKeepsOthers(g: State, c: Context, s: Socket, t: Socket, x: Socket)
    requires IsLive(g, s) && g.places[s].open && c in g.lines && (t == s || t !in g.places)
    ensures var h := AfterAdopt(g, c, s, t);
            && Evolves(g, h, x, if x == s then t else x)
            && (x != s && Pinned(g, x) ==> Pinned(h, x) && h.tags[x] == g.tags[x])
  {
    hide KqueueChange;
  }

  lemma AdoptPins(g: State, c: Context, s: Socket, t: Socket)
    requires IsLive(g, s) && g.places[s].open && !Pinned(g, s) && c in g.lines && (t == s || t !in g.places)
    ensures PinsStay(g, AfterAdopt(g, c, s, t))
  {
    hide AfterAdopt;
    var h := AfterAdopt(g, c, s, t);
    forall x | Pinned(g, x)
      ensures Pinned(h, x) && h.tags[x] == g.tags[x]
    {
      AdoptKeepsOthers(g, c, s, t, x);
    }
  }

  lemma AdoptStep(g: State, c: Context, s: Socket, t: Socket)
    requires Inv(g) && MayAdopt(g, c, s, t)
    ensures Inv(AfterAdopt(g, c, s, t)) && Rely(g, AfterAdopt(g, c, s, t)) && Control(g, AfterAdopt(g, c, s, t))
  {
    hide Inv, ListsRely, LivesRely, RunRely, AfterAdopt, Control;
    AdoptKeeps(g, c, s, t);
    InvParts(g);
    AdoptLists(g, c, s, t);
    AdoptLives(g, c, s, t);
    AdoptRuns(g, c, s, t);
  }

  lemma AdoptRuns(g: State, c: Context, s: Socket, t: Socket)
    requires IsLive(g, s) && c in g.lines && (t == s || t !in g.places)
    ensures RunRely(g, AfterAdopt(g, c, s, t)) && Control(g, AfterAdopt(g, c, s, t))
  {
    hide KqueueChange, Control;
    ControlPlain(g, AfterAdopt(g, c, s, t));
    assert Leaves(AfterAdopt(g, c, s, t).log[|g.log|], g.tags[s].id);
  }

  // ---------- freeing ----------

  lemma FreeKeeps(g: State)
    requires Inv(g) && g.closed != []
    ensures IsLive(g, g.closed[0]) && !g.places[g.closed[0]].open && Inv(AfterFree(g))
  {
    hide LinesOk, ContextsOk, PollInv, LifeInv, MaskInv;
    SameKeys(g, g.closed[0]);
    FreeParts(g);
  }

  lemma FreeParts(g: State)
    requires ListsInv(g) && PollInv(g) && LifeInv(g) && MaskInv(g)
    requires g.closed != [] && IsLive(g, g.closed[0]) && !g.places[g.closed[0]].open
    ensures Inv(AfterFree(g))
  {
    hide ListsInv, PollInv, LifeInv, MaskInv, AfterFree;
    FreeKeepsLists(g);
    FreeKeepsPoll(g);
    FreeKeepsLife(g);
    FreeKeepsMasks(g);
  }

  lemma InvFreeable(g: State)
    requires Inv(g)
    ensures Freeable(g)
  {
    hide LinesOk, ContextsOk, PlacesOk, PollInv, CountOk, IdsOk, HistoryOk, JournalOk;
  }

  /**
   From `g` to `h` the closed sockets left memory, each with one unit of the poll count and
   one event, and nothing else changed.
   */
  ghost predicate Flushes(g: State, h: State) {
    var freed := set x | x in g.closed;
    && h.closed == [] && h.count == g.count - |g.closed| && |h.log| == |g.log| + |g.closed| && g.log <= h.log
    && h == g.(places := g.places - freed, tags := g.tags - freed, tunings := g.tunings - freed,
               closed := [], count := h.count, log := h.log)
  }

  lemma FlushesOne(g: State, h: State)
    requires g.closed != [] && g.closed[0] in g.tags && Flushes(AfterFree(g), h)
    ensures Flushes(g, h)
  {
    var s, rest := g.closed[0], g.closed[1..];
    var freed := set x | x in g.closed;
    assert g.closed == [s] + rest;
    assert freed == {s} + (set x | x in rest);
    RemoveTwice(g.places, s, set x | x in rest);
    RemoveTwice(g.tags, s, set x | x in rest);
    RemoveTwice(g.tunings, s, set x | x in rest);
  }

  lemma RemoveTwice<V>(m: map<Socket, V>, s: Socket, rest: set<Socket>)
    ensures m - {s} - rest == m - ({s} + rest)
  {
  }

  lemma FlushesNone(g: State)
    requires g.closed == []
    ensures Flushes(g, g)
  {
    assert (set x | x in g.closed) == {};
    assert g.places - {} == g.places && g.tags - {} == g.tags && g.tunings - {} == g.tunings;
  }

  /** Freeing the close list takes exactly the closed sockets out of memory. */
  lemma {:induction false} FlushKeeps(g: State)
    requires Inv(g)
    ensures Freeable(g) && Inv(AfterFlush(g)) && Flushes(g, AfterFlush(g))
    decreases |g.closed|
  {
    hide ListsInv, PollInv, LifeInv, MaskInv, Flushes, AfterFree;
    InvFreeable(g);
    if g.closed == [] {
      FlushesNone(g);
    } else {
      FreeKeeps(g);
      FreeShortens(g);
      FlushKeeps(AfterFree(g));
      FlushesOne(g, AfterFlush(g));
    }
  }

  lemma FreeShortens(g: State)
    requires g.closed != [] && g.closed[0] in g.tags
    ensures AfterFree(g).closed == g.closed[1..]
  {
  }
}
