/**
 The calls that application code may make, and callbacks: a callback makes any finite
 sequence of calls on any sockets and contexts. Closing a socket calls back in turn, so
 all of this is mutually recursive; `depth` bounds the nesting and is arbitrary wherever
 the loop itself calls back.
 */
module Callbacks {
  import opened EventLoop
  import opened Interference
  import opened Journal
  import opened Memory
  import opened PollWord
  import opened Retuning
  import opened State
  import opened Steps

  lemma GoodInv(loop: Loop)
    requires loop.Good()
    ensures Inv(loop.g) && loop.contexts == loop.g.lines.Keys && loop.sockets == loop.g.places.Keys
  {
    hide Inv, Loop.ClosedFrom, Loop.ContextsRepr, Loop.FieldsRepr, Loop.BatchRepr;
  }

  /** A new socket for a descriptor that no open socket has is one step of a callback. */
  method CreateIn(loop: Loop, c: Context, fd: int, kind: Kind, events: Mask) returns (s: Socket)
    requires loop.Good() && c in loop.contexts && loop.Unowned(fd) && Creatable(kind, events)
    modifies loop, loop.sockets, loop.contexts
    ensures loop.Good() && Rely(old(loop.g), loop.g)
    ensures fresh(s) && loop.sockets == old(loop.sockets) + {s} && loop.contexts == old(loop.contexts)
    ensures MayCreate(old(loop.g), c, s, fd, kind, events) && loop.g == AfterCreate(old(loop.g), c, s, fd, kind, events)
    ensures Control(old(loop.g), if kind == SocketKind then AfterCall(loop.g, OnSocket) else loop.g)
  {
    hide Loop.Good, Inv, Rely, Control, AfterCall, AfterCreate, Loop.Unowned, Creatable;
    GoodInv(loop);
    loop.UnownedHere(fd);
    s := loop.Create(c, fd, kind, events);
    CreateStep(old(loop.g), c, s, fd, kind, events);
  }

  /** `s` is a new semi-socket of `c` that waits for `events`. */
  ghost predicate Waits(g: State, c: Context, s: Socket, fd: int, events: Mask, h: State) {
    MayCreate(g, c, s, fd, SemiKind, events) && h == AfterCreate(g, c, s, fd, SemiKind, events)
  }

  /** A listening or connecting descriptor, or -1. */
  method Descriptor(loop: Loop) returns (fd: int)
    ensures fd == -1 || loop.Unowned(fd)
  {
    fd := *;
    if fd < 0 || !loop.Unowned(fd) {
      fd := -1;
    }
  }

  /** `asock_context_listen`: null if no listening descriptor could be had. */
  method Listen(loop: Loop, c: Context) returns (ls: Socket?, fd: int)
    requires loop.Good() && c in loop.contexts
    modifies loop, loop.sockets, loop.contexts
    ensures loop.Good() && Rely(old(loop.g), loop.g) && Control(old(loop.g), loop.g)
    ensures fresh(loop.sockets - old(loop.sockets)) && loop.contexts == old(loop.contexts)
    ensures ls == null <==> fd == -1
    ensures if ls == null then loop.g == old(loop.g)
            else fresh(ls) && ls in loop.sockets && Waits(old(loop.g), c, ls, fd, READABLE, loop.g)
  {
    hide Loop.Good, Inv, Rely, Control, Loop.Unowned, AfterCreate, MayCreate;
    GoodInv(loop);
    RelyReflexive(loop.g);
    ControlReflexive(loop.g);
    ls := null;
    fd := Descriptor(loop);
    if fd != -1 {
      ls := CreateIn(loop, c, fd, SemiKind, READABLE);
    }
  }

  /** `asock_context_connect`: null if no connecting descriptor could be had. */
  method Connect(loop: Loop, c: Context) returns (cs: Socket?, fd: int)
    requires loop.Good() && c in loop.contexts
    modifies loop, loop.sockets, loop.contexts
    ensures loop.Good() && Rely(old(loop.g), loop.g) && Control(old(loop.g), loop.g)
    ensures fresh(loop.sockets - old(loop.sockets)) && loop.contexts == old(loop.contexts)
    ensures cs == null <==> fd == -1
    ensures if cs == null then loop.g == old(loop.g)
            else fresh(cs) && cs in loop.sockets && Waits(old(loop.g), c, cs, fd, WRITABLE, loop.g)
  {
    hide Loop.Good, Inv, Rely, Control, Loop.Unowned, AfterCreate, MayCreate;
    GoodInv(loop);
    RelyReflexive(loop.g);
    ControlReflexive(loop.g);
    cs := null;
    fd := Descriptor(loop);
    if fd != -1 {
      cs := CreateIn(loop, c, fd, SemiKind, WRITABLE);
    }
  }

  /** One call on a socket that calls nothing back. */
  method SimpleCall(loop: Loop, c: Context, s: Socket)
    requires loop.Good() && c in loop.contexts && s in loop.sockets
    modifies loop, loop.ready, loop.sockets, loop.contexts
    ensures loop.Good() && Rely(old(loop.g), loop.g) && Control(old(loop.g), loop.g)
    ensures fresh(loop.sockets - old(loop.sockets)) && loop.contexts == old(loop.contexts)
  {
    hide Loop.Good, Inv, Rely, Control, Loop.MayMove, Loop.Accepting, PollType, PollEvents;
    hide AfterTimeout, AfterCloseQuietly, AfterShutdown, AfterWrite, AfterAdopt, MayAdopt;
    GoodInv(loop);
    loop.Live(s);
    loop.ClosedMark(s);
    RelyReflexive(loop.g);
    ControlReflexive(loop.g);
    var choice: int, n: nat := *, *;
    if choice == 0 {
      var sweeps := loop.Timeout(s, n);
      TimeoutStep(old(loop.g), s, sweeps);
    } else if choice == 1 && !s.IsClosed() && s.listens {
      loop.CloseQuietly(s);
      CloseStep(old(loop.g), s);
    } else if choice == 2 {
      loop.Shutdown(s);
      ShutdownStep(old(loop.g), s);
    } else if choice == 3 {
      var written, taken := loop.Write(s, n);
      WriteStep(old(loop.g), s, n, taken);
    } else if choice == 4 && (s.IsClosed() || (!loop.Accepting(s) && loop.MayMove(s))) {
      var closed := s.IsClosed();
      var t := loop.Adopt(c, s);
      if !closed {
        AdoptStep(old(loop.g), c, s, t);
      }
    }
  }

  // ---------- calls that call back ----------

  /** on_close is called: the socket stays closed and where it is. */
  lemma NotifiedKeeps(g: State, s: Socket)
    requires Inv(g) && IsLive(g, s) && g.places[s].open
    ensures var h := AfterCloseQuietly(g, s);
            IsLive(h, s) && h.tags[s] == g.tags[s] && !h.places[s].open && Inv(h)
    ensures Inv(Told(g, s)) && Rely(g, Told(g, s)) && Control(g, AfterCall(Told(g, s), OnSocket))
  {
    hide ListsInv, PollInv, LifeInv, MaskInv, Rely, Control;
    ToldAnswered(g, s);
    CloseStep(g, s);
    var h := AfterCloseQuietly(g, s);
    var e := Notified(h.tags[s].id);
    FitsAt(g, s);
    FitsAt(h, s);
    ClosedIsDead(g, s);
    NotedStep(h, s, e);
    RelyTransitive(g, h, Noted(h, e));
  }

  /** on_close gets control as the journal says. */
  lemma ToldAnswered(g: State, s: Socket)
    requires IsLive(g, s)
    ensures Control(g, AfterCall(Told(g, s), OnSocket))
  {
    hide Control, Kernel.Hangup, Retarget;
    var noted := Told(g, s);
    assert noted.log[..|noted.log| - 1] == g.log + [Closed(g.tags[s].id)];
    AnsweredAfter(g, noted);
  }

  lemma ClosedIsDead(g: State, s: Socket)
    requires IsLive(g, s)
    ensures TrackOf(AfterCloseQuietly(g, s).log, g.tags[s].id).phase == Dead
  {
    hide TrackOf, Kernel.Hangup, Retarget;
    Append(g.mapping, g.log, Closed(g.tags[s].id));
  }

  /** Closes an open socket up to the point where on_close is called. */
  method Retire(loop: Loop, s: Socket)
    requires loop.Good() && s in loop.sockets && !s.IsClosed()
    modifies loop, loop.ready, loop.sockets, loop.contexts
    ensures loop.Good() && Rely(old(loop.g), loop.g) && Control(old(loop.g), AfterCall(loop.g, OnSocket))
    ensures loop.sockets == old(loop.sockets) && loop.contexts == old(loop.contexts)
    ensures IsLive(loop.g, s) && !loop.g.places[s].open && loop.g.tags[s].id == s.ext == old(s.ext)
    ensures IsLive(old(loop.g), s) && loop.g == Told(old(loop.g), s)
  {
    hide Loop.Good, Inv, Rely, Control, AfterCall, AfterCloseQuietly, PollType, PollEvents;
    GoodInv(loop);
    loop.Live(s);
    loop.ClosedMark(s);
    NotifiedKeeps(loop.g, s);
    loop.CloseQuietly(s);
    loop.Note(s, Notified(loop.g.tags[s].id));
    loop.Live(s);
  }

  /** `asock_socket_close`: on an open socket, all of the above, and then whatever on_close does. */
  method Close(loop: Loop, s: Socket, depth: nat) returns (r: Socket)
    requires loop.Good() && s in loop.sockets
    modifies loop, loop.ready, loop.sockets, loop.contexts
    ensures loop.Good() && Rely(old(loop.g), loop.g) && Control(old(loop.g), loop.g)
    ensures fresh(loop.sockets - old(loop.sockets)) && fresh(loop.contexts - old(loop.contexts))
    ensures r == s && r in loop.sockets && r.IsClosed()
    ensures if old(s.IsClosed()) then loop.g == old(loop.g)
            else IsLive(old(loop.g), s) && Gives(Told(old(loop.g), s), OnSocket, loop.g)
    decreases depth, 3
  {
    hide Loop.Good, Inv, Rely, Control, Gives, AfterCall, Told, IsLive;
    GoodInv(loop);
    RelyReflexive(loop.g);
    ControlReflexive(loop.g);
    if s.IsClosed() {
      return s;
    }
    Retire(loop, s);
    ghost var mid := loop.g;
    GoodInv(loop);
    r := CallbackOn(loop, s, depth);
    GivesBoth(mid, OnSocket, loop.g);
    ClosedStays(loop, mid, s, r);
    GoodInv(loop);
    RelyTransitive(old(loop.g), mid, loop.g);
    ControlTransitive(old(loop.g), AfterCall(mid, OnSocket), loop.g);
  }

  /** A closed socket is still closed, and where it was, after a callback. */
  lemma ClosedStays(loop: Loop, before: State, s: Socket, r: Socket)
    requires loop.Good() && Rely(before, loop.g) && IsLive(before, s) && !before.places[s].open
    requires r in loop.sockets && r.ext == before.tags[s].id
    ensures r == s && s.IsClosed()
  {
    hide Inv, ListsRely, RunRely, AllEvolve, StaysLive, Loop.Repr;
    loop.Live(r);
    assert Pinned(before, s) && Pinned(loop.g, s);
    SameTag(loop.g, s, r);
    loop.ClosedMark(s);
    PinnedClosed(before, loop.g, s);
  }

  lemma SameTag(g: State, s: Socket, r: Socket)
    requires Inv(g) && s in g.tags && r in g.tags && g.tags[s].id == g.tags[r].id
    ensures s == r
  {
    hide ListsInv, PollInv, HistoryOk, JournalOk;
  }

  lemma PinnedClosed(a: State, b: State, s: Socket)
    requires Rely(a, b) && Pinned(a, s) && !a.places[s].open
    ensures IsLive(b, s) && b.tags[s] == a.tags[s] && !b.places[s].open
  {
    hide ListsRely, RunRely, StaysLive;
    assert Pinned(b, s);
    assert Evolves(a, b, s, s);
  }

  /** A callback on a socket returns the socket where it is now. */
  method CallbackOn(loop: Loop, s: Socket, depth: nat) returns (r: Socket)
    requires loop.Good() && s in loop.sockets
    modifies loop, loop.ready, loop.sockets, loop.contexts
    ensures loop.Good() && Gives(old(loop.g), OnSocket, loop.g)
    ensures fresh(loop.sockets - old(loop.sockets)) && fresh(loop.contexts - old(loop.contexts))
    ensures r in loop.sockets && r.ext == old(s.ext)
    decreases depth, 2
  {
    hide Loop.Good, Inv, Rely, Control, AfterCall;
    loop.Live(s);
    var tag := s.ext;
    Callback(loop, OnSocket, depth);
    StillNamed(loop, old(loop.g), tag, s);
    r :| r in loop.sockets && r.ext == tag;
  }

  /** A socket that was in memory before a callback is so after it, under the same tag. */
  lemma StillNamed(loop: Loop, before: State, tag: nat, s: Socket)
    requires loop.Good() && Rely(before, loop.g) && s in before.tags && before.tags[s].id == tag
    ensures exists r :: r in loop.sockets && r.ext == tag
  {
    hide Inv, ListsRely, RunRely, AllEvolve, PinsStay, Loop.ListsRepr, Loop.ClosedFrom, Loop.ContextsRepr;
    hide Loop.BatchRepr;
    assert HasId(loop.g.tags, tag);
    var y :| y in loop.g.tags && loop.g.tags[y].id == tag;
    GoodInv(loop);
    assert y in loop.sockets by {
      InvParts(loop.g);
      SameKeys(loop.g, y);
    }
    assert loop.sockets == loop.g.places.Keys;
    assert y.ext == tag;
  }

  /** Any callback: it gets control, and makes any finite sequence of calls. */
  method Callback(loop: Loop, ghost hook: Hook, depth: nat)
    requires loop.Good()
    modifies loop, loop.ready, loop.sockets, loop.contexts
    ensures loop.Good() && Gives(old(loop.g), hook, loop.g)
    ensures fresh(loop.sockets - old(loop.sockets)) && fresh(loop.contexts - old(loop.contexts))
    decreases depth, 1
  {
    hide Loop.Good, Inv, Rely, Control, AfterCall;
    GoodInv(loop);
    loop.GiveControl(hook);
    ghost var begun := loop.g;
    ControlReflexive(begun);
    var calls: nat := *;
    while calls > 0
      invariant loop.Good() && Rely(old(loop.g), loop.g) && Control(begun, loop.g)
      invariant fresh(loop.sockets - old(loop.sockets)) && fresh(loop.contexts - old(loop.contexts))
    {
      ghost var mid := loop.g;
      GoodInv(loop);
      AnyCall(loop, depth);
      RelyTransitive(old(loop.g), mid, loop.g);
      ControlTransitive(begun, mid, loop.g);
      calls := calls - 1;
    }
  }

  /** Any one call, on any socket and context that the application can name. */
  method AnyCall(loop: Loop, depth: nat)
    requires loop.Good()
    modifies loop, loop.ready, loop.sockets, loop.contexts
    ensures loop.Good() && Rely(old(loop.g), loop.g) && Control(old(loop.g), loop.g)
    ensures fresh(loop.sockets - old(loop.sockets)) && fresh(loop.contexts - old(loop.contexts))
    decreases depth, 0
  {
    hide Loop.Good, Inv, Rely, Control, AfterContext, AfterCallbackPoll;
    GoodInv(loop);
    RelyReflexive(loop.g);
    ControlReflexive(loop.g);
    var choice: int, deeper: nat := *, *;
    if choice == 0 || loop.contexts == {} {
      var c := loop.CreateContext();
      ContextStep(old(loop.g), c);
    } else if choice == 4 {
      var fallthrough: bool := *;
      loop.CreateCallbackPoll(fallthrough);
      CallbackPollStep(old(loop.g));
    } else {
      var c :| c in loop.contexts;
      if choice == 1 {
        var ls, fd := Listen(loop, c);
      } else if choice == 2 {
        var cs, fd := Connect(loop, c);
      } else if loop.sockets != {} {
        var s :| s in loop.sockets;
        if choice == 3 && deeper < depth {
          var r := Close(loop, s, deeper);
        } else {
          SimpleCall(loop, c, s);
        }
      }
    }
  }
}
