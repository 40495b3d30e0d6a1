/** What the loop does with one ready poll, by its type. */
module Dispatch {
  import opened Callbacks
  import opened EventLoop
  import opened Interference
  import opened Journal
  import opened Kernel
  import opened Memory
  import opened PollWord
  import opened Retuning
  import opened State
  import opened Steps
  import opened Timer
  import opened Turns

  /** What holds from before to after a dispatch, outside of a sweep. */
  ghost predicate Went(a: State, b: State) {
    SameRun(a, b) && b.ahead == a.ahead
  }

  lemma WentReflexive(a: State)
    ensures Went(a, a)
  {
  }

  /** What holds across a dispatch that is not that of the sweep timer. */
  ghost predicate Calm(a: State, b: State) {
    Went(a, b) && NoVisits(a.log, b.log)
  }

  lemma CalmReflexive(a: State)
    ensures Calm(a, a)
  {
  }

  lemma CalmTransitive(a: State, b: State, c: State)
    requires Calm(a, b) && Calm(b, c)
    ensures Calm(a, c)
  {
    hide SameRun, NoVisits;
    SameRunTransitive(a, b, c);
    NoVisitsTransitive(a.log, b.log, c.log);
  }

  lemma RelyCalm(a: State, b: State)
    requires Rely(a, b)
    ensures Calm(a, b)
  {
    hide ListsRely, LivesRely, SameRun;
    RelyWent(a, b);
  }

  lemma GivesCalm(a: State, hook: Hook, b: State)
    requires Gives(a, hook, b)
    ensures Calm(a, b)
  {
    hide Rely, Control, Calm;
    RelyCalm(a, b);
  }

  lemma RelyWent(a: State, b: State)
    requires Rely(a, b)
    ensures Went(a, b)
  {
    hide Rely, SameRun;
    RelyRuns(a, b);
  }

  /** A proper socket that was given to a callback is still no semi-socket when it comes back. */
  lemma ComesBack(loop: Loop, a: State, s: Socket, r: Socket)
    requires loop.Good() && Rely(a, loop.g) && IsLive(a, s) && a.tunings[s].kind != SemiKind
    requires r in loop.sockets && r.ext == a.tags[s].id
    ensures IsLive(loop.g, r) && PollType(r.word) == loop.g.tunings[r].kind != SemiKind
    ensures r.IsClosed() <==> !loop.g.places[r].open
    ensures PollEvents(r.word) == loop.g.tunings[r].interest && loop.mapping == loop.g.mapping
    ensures loop.lastWriteFailed == loop.g.failed && Inv(loop.g) && loop.g.tags[r].id == r.ext
  {
    hide Inv, ListsRely, RunRely, StaysLive, PinsStay, PollType, PollEvents, Loop.ListsRepr, Loop.ClosedFrom;
    hide Loop.ContextsRepr;
    loop.Live(r);
    loop.ClosedMark(r);
    assert Evolves(a, loop.g, s, r);
  }

  /** A live socket's fields, as the state has them. */
  lemma Here(loop: Loop, s: Socket)
    requires loop.Good() && s in loop.sockets
    ensures IsLive(loop.g, s) && s.ext == loop.g.tags[s].id
    ensures PollType(s.word) == loop.g.tunings[s].kind && PollEvents(s.word) == loop.g.tunings[s].interest
    ensures s.IsClosed() <==> !loop.g.places[s].open
    ensures Inv(loop.g) && loop.mapping == loop.g.mapping && loop.lastWriteFailed == loop.g.failed
    ensures !s.IsClosed() ==> Tuned(loop.g.mapping, Registered(loop.g.filters, loop.g.tags[s].fd), loop.g.tunings[s])
  {
    hide Inv, PollType, PollEvents, Loop.ListsRepr, Loop.ClosedFrom, Loop.ContextsRepr, Tuned;
    loop.Live(s);
    loop.ClosedMark(s);
    if !s.IsClosed() {
      InvParts(loop.g);
      TunedAt(loop.g, s);
    }
  }

  // ---------- a turn is a run of the loop ----------

  lemma ReadsCalm(g: State, s: Socket, received: Received, h: State)
    requires IsLive(g, s) && Reads(g, s, received, h)
    ensures Calm(g, h)
  {
    hide Gives, SameRun, AtRead;
    CalmReflexive(g);
    if received != Ignored && received != WouldBlock {
      AtReadCalm(g, s, received);
      GivesCalm(AtRead(g, s, received), OnSocket, h);
      CalmTransitive(g, AtRead(g, s, received), h);
    }
  }

  lemma AtReadCalm(g: State, s: Socket, received: Received)
    requires IsLive(g, s)
    ensures Calm(g, AtRead(g, s, received))
  {
    hide KqueueChange, Told;
    ToldCalm(g, s);
  }

  lemma WritesCalm(g: State, s: Socket, service: Service)
    requires IsLive(g, s) && Writes(g, s, service)
    ensures Calm(g, service.written)
  {
    hide Gives, SameRun, AfterWritable, Settled;
    WritableCalm(g, s);
    GivesCalm(AfterWritable(g, s), OnSocket, service.mid);
    CalmTransitive(g, AfterWritable(g, s), service.mid);
    SettledCalm(service.mid, service.back);
    CalmTransitive(g, service.mid, service.written);
  }

  lemma SettledCalm(g: State, s: Socket)
    requires IsLive(g, s)
    ensures Calm(g, Settled(g, s))
  {
    hide KqueueChange;
  }

  lemma ServesCalm(g: State, s: Socket, error: bool, events: Mask, service: Service, h: State)
    requires IsLive(g, s) && Serves(g, s, error, events, service, h)
    ensures Calm(g, h)
  {
    hide Gives, Calm, Writes, Reads, Told;
    CalmReflexive(g);
    if error {
      ToldCalm(g, s);
      GivesCalm(Told(g, s), OnSocket, h);
      CalmTransitive(g, Told(g, s), h);
    } else {
      if events.writable {
        WritesCalm(g, s, service);
      }
      if events.readable && service.written.places[service.back].open {
        ReadsCalm(service.written, service.back, Meaning(service.got), h);
        CalmTransitive(g, service.written, h);
      }
    }
  }

  lemma ToldCalm(g: State, s: Socket)
    requires IsLive(g, s)
    ensures Calm(g, Told(g, s))
  {
    hide Hangup;
    assert Leaves(Told(g, s).log[|g.log|], g.tags[s].id);
  }

  lemma {:induction false} TakesAllCalm(g: State, ls: Socket, tag: Tag, turns: seq<Accepted>, h: State)
    requires TakesAll(g, ls, tag, turns, h)
    ensures Calm(g, h)
    decreases |turns|
  {
    hide AcceptsOne, Calm;
    CalmReflexive(g);
    if turns != [] {
      var last := turns[|turns| - 1];
      TakesAllCalm(g, ls, tag, turns[..|turns| - 1], last.before);
      AcceptsOneCalm(ls, tag, last);
      CalmTransitive(g, last.before, h);
    }
  }

  lemma AcceptsOneCalm(ls: Socket, tag: Tag, a: Accepted)
    requires AcceptsOne(ls, tag, a)
    ensures Calm(a.before, a.after)
  {
    hide Gives, Calm, AfterCreate;
    var c, taken := a.before.places[ls].ctx, AfterAccept(a.before, tag.fd);
    var created := AfterCreate(taken, c, a.socket, a.fd, SocketKind, READABLE);
    QueuesCalm(a.before, taken.queues);
    CreatedCalm(taken, c, a.socket, a.fd);
    GivesCalm(created, OnSocket, a.after);
    CalmTransitive(a.before, taken, created);
    CalmTransitive(a.before, created, a.after);
  }

  lemma QueuesCalm(g: State, q: Queues)
    ensures Calm(g, g.(queues := q))
  {
  }

  lemma AcceptsCalm(g: State, ls: Socket, turns: seq<Accepted>, last: State, h: State)
    requires IsLive(g, ls) && Accepts(g, ls, turns, last, h)
    ensures Calm(g, h)
  {
    hide TakesAll, Calm;
    TakesAllCalm(g, ls, g.tags[ls], turns, last);
    QueuesCalm(last, h.queues);
    CalmTransitive(g, last, h);
  }

  lemma CreatedCalm(g: State, c: Context, s: Socket, fd: int)
    requires c in g.lines && s !in g.places
    ensures Calm(g, AfterCreate(g, c, s, fd, SocketKind, READABLE))
  {
    hide KqueueChange;
  }

  lemma WritableCalm(g: State, s: Socket)
    requires IsLive(g, s)
    ensures Calm(g, AfterWritable(g, s))
  {
  }

  lemma ConnectedCalm(g: State, s: Socket)
    requires IsLive(g, s)
    ensures Calm(g, AfterConnected(g, s))
  {
  }

  lemma DispatchesCalm(g: State, s: Socket, error: bool, events: Mask, turn: Turn, h: State)
    requires IsLive(g, s) && Dispatches(g, s, error, events, turn, h)
    ensures Calm(g, h)
  {
    hide Gives, Calm, Serves, Accepts, AfterConnected;
    if g.tunings[s].kind == SemiKind {
      if g.tunings[s].interest == WRITABLE {
        ConnectedCalm(g, s);
        GivesCalm(AfterConnected(g, s), OnSocket, h);
        CalmTransitive(g, AfterConnected(g, s), h);
      } else {
        AcceptsCalm(g, s, turn.accepted, turn.last, h);
      }
    } else {
      ServesCalm(g, s, error, events, turn.service, h);
    }
  }

  // ---------- noting callbacks ----------

  lemma DataKeeps(g: State, s: Socket)
    requires Inv(g) && IsLive(g, s) && g.places[s].open && g.tunings[s].kind != SemiKind
    ensures Inv(Noted(g, GotData(g.tags[s].id)))
  {
    hide ListsInv, PollInv, LifeInv, MaskInv;
    InvParts(g);
    TunedAt(g, s);
    FitsAt(g, s);
    NotedKeeps(g, s, GotData(g.tags[s].id));
  }

  // ---------- sockets ----------

  /** A socket in memory that is neither listening nor connecting. */
  ghost predicate Proper(g: State, s: Socket) {
    IsLive(g, s) && g.tunings[s].kind != SemiKind
  }

  /** A proper socket that is open, and polls for at least `events`. */
  ghost predicate Ready(g: State, s: Socket, events: Mask) {
    Proper(g, s) && g.places[s].open && events.IsSubset(g.tunings[s].interest)
  }

  /** No socket was told that it is writable since `s` was. */
  ghost predicate JustTold(g: State, s: Socket) {
    IsLive(g, s) && LastTold(g.log, g.tags[s].id)
  }

  ghost predicate SameId(a: State, s: Socket, b: State, r: Socket)
    requires IsLive(a, s) && IsLive(b, r)
  {
    a.tags[s].id == b.tags[r].id
  }

  /** A callback on a proper socket, which is still one when it comes back. */
  method ProperCallback(loop: Loop, s: Socket) returns (r: Socket)
    requires loop.Good() && s in loop.sockets && Proper(loop.g, s)
    modifies loop, loop.ready, loop.sockets, loop.contexts
    ensures loop.Good() && Gives(old(loop.g), OnSocket, loop.g)
    ensures fresh(loop.sockets - old(loop.sockets)) && fresh(loop.contexts - old(loop.contexts))
    ensures r in loop.sockets && Proper(loop.g, r) && SameId(old(loop.g), s, loop.g, r)
  {
    hide Loop.Good, Inv, Rely, Control, PollType, PollEvents;
    ghost var a := loop.g;
    Here(loop, s);
    var depth: nat := *;
    r := CallbackOn(loop, s, depth);
    ComesBack(loop, a, s, r);
  }

  /** After on_writable: stop polling for writable if no write failed or the socket was shut down. */
  method SettleWritable(loop: Loop, s: Socket)
    requires loop.Good() && s in loop.sockets && Proper(loop.g, s) && JustTold(loop.g, s)
    modifies loop`kq, loop`g, s`word
    ensures loop.Good() && loop.g == Settled(old(loop.g), s)
  {
    hide Loop.Good, Inv, PollType, PollEvents, AfterDrain, Tuned;
    Here(loop, s);
    if !s.IsClosed() {
      if !loop.lastWriteFailed || PollType(s.word) == ShutdownKind {
        loop.Drain(s);
      }
    }
  }

  lemma SettledStays(g: State, s: Socket)
    requires Proper(g, s)
    ensures IsLive(g, s) && IsLive(Settled(g, s), s) && Proper(Settled(g, s), s)
  {
    hide KqueueChange;
  }

  /** on_writable is called on a socket that polls for writable. */
  method DispatchWritable(loop: Loop, s: Socket) returns (r: Socket, ghost service: Service)
    requires loop.Good() && s in loop.sockets && Ready(loop.g, s, WRITABLE)
    modifies loop, loop.ready, loop.sockets, loop.contexts
    ensures loop.Good() && r == service.back && loop.g == service.written && Writes(old(loop.g), s, service)
    ensures fresh(loop.sockets - old(loop.sockets)) && fresh(loop.contexts - old(loop.contexts))
    ensures r in loop.sockets && Proper(loop.g, r)
  {
    hide Loop.Good, Inv, Gives, PollType, PollEvents, AfterWritable, Settled, IsLive, Proper, Ready, SameId;
    hide Writes, JustTold;
    MayTellWritable(loop, s);
    loop.BeginWritable(s);
    ghost var told := loop.g;
    r := ProperCallback(loop, s);
    ghost var mid := loop.g;
    SettledStays(mid, r);
    GivesBoth(told, OnSocket, mid);
    ToldAcross(told, s, mid, r);
    SettleWritable(loop, r);
    service := Service(mid, r, loop.g, NOTHING_GOT);
    ItWrites(old(loop.g), s, service);
  }

  lemma ToldAcross(a: State, s: Socket, b: State, r: Socket)
    requires JustTold(a, s) && IsLive(b, r) && SameId(a, s, b, r) && Rely(a, b)
    ensures JustTold(b, r)
  {
    hide ListsRely, LivesRely;
    LastToldAcross(a.log, b.log, a.tags[s].id);
  }

  lemma ItWrites(g: State, s: Socket, service: Service)
    requires IsLive(g, s) && IsLive(service.mid, service.back) && Gives(AfterWritable(g, s), OnSocket, service.mid)
    requires IsLive(AfterWritable(g, s), s) && SameId(AfterWritable(g, s), s, service.mid, service.back)
    requires service.written == Settled(service.mid, service.back)
    ensures Writes(g, s, service)
  {
    hide Gives, Settled;
  }

  /** What is needed to call on_writable, and what that leads to. */
  lemma MayTellWritable(loop: Loop, s: Socket)
    requires loop.Good() && s in loop.sockets && Ready(loop.g, s, WRITABLE)
    ensures !s.IsClosed() && PollType(s.word) != SemiKind && PollEvents(s.word).writable && IsLive(loop.g, s)
    ensures Proper(AfterWritable(loop.g, s), s) && IsLive(AfterWritable(loop.g, s), s)
    ensures JustTold(AfterWritable(loop.g, s), s)
  {
    hide Loop.Good, Inv, PollType, PollEvents;
    Here(loop, s);
    Append(loop.g.mapping, loop.g.log, GotWritable(loop.g.tags[s].id));
  }

  /** Closing an open socket during dispatch. */
  method CloseInDispatch(loop: Loop, s: Socket)
    requires loop.Good() && s in loop.sockets && Ready(loop.g, s, NONE)
    modifies loop, loop.ready, loop.sockets, loop.contexts
    ensures loop.Good() && IsLive(old(loop.g), s) && Gives(Told(old(loop.g), s), OnSocket, loop.g)
    ensures fresh(loop.sockets - old(loop.sockets)) && fresh(loop.contexts - old(loop.contexts))
    ensures s in loop.sockets && s.IsClosed()
  {
    hide Loop.Good, Inv, Rely, Control, Gives, Told, PollType, PollEvents;
    Here(loop, s);
    var depth: nat := *;
    var r := Close(loop, s, depth);
  }

  lemma EndStays(g: State, s: Socket)
    requires IsLive(g, s) && g.tunings[s].kind == SocketKind
    ensures AtRead(g, s, Fin) == AfterEnd(g, s) && Proper(AfterEnd(g, s), s)
  {
    hide KqueueChange;
  }

  /** FIN was received: the answer to our own FIN closes the socket, the peer's first one ends reading. */
  method DispatchFin(loop: Loop, s: Socket)
    requires loop.Good() && s in loop.sockets && Ready(loop.g, s, NONE)
    modifies loop, loop.ready, loop.sockets, loop.contexts
    ensures loop.Good() && Gives(AtRead(old(loop.g), s, Fin), OnSocket, loop.g)
    ensures fresh(loop.sockets - old(loop.sockets)) && fresh(loop.contexts - old(loop.contexts))
  {
    hide Loop.Good, Inv, Gives, PollType, PollEvents, Tuned, AfterEnd, Told;
    Here(loop, s);
    if PollType(s.word) == ShutdownKind {
      CloseInDispatch(loop, s);
    } else {
      loop.NoCallbackKind(s);
      EndStays(loop.g, s);
      loop.EndReading(s);
      var r := ProperCallback(loop, s);
    }
  }

  /** What `ignore_data` and `recv` say. */
  method Receive() returns (got: Got)
    ensures -1 <= got.length
  {
    var ignored: bool, length: int, blocked: bool := *, *, *;
    got := Got(ignored, if length < -1 then -1 else length, blocked);
  }

  /** on_data is called. */
  method DispatchData(loop: Loop, s: Socket)
    requires loop.Good() && s in loop.sockets && Ready(loop.g, s, NONE)
    modifies loop, loop.ready, loop.sockets, loop.contexts
    ensures loop.Good() && Gives(AtRead(old(loop.g), s, Data), OnSocket, loop.g)
    ensures fresh(loop.sockets - old(loop.sockets)) && fresh(loop.contexts - old(loop.contexts))
  {
    hide Loop.Good, Inv, Gives, PollType, PollEvents, Tuned;
    GoodInv(loop);
    DataKeeps(loop.g, s);
    loop.Note(s, GotData(loop.g.tags[s].id));
    var r := ProperCallback(loop, s);
  }

  /** An open socket became readable. */
  method DispatchReadable(loop: Loop, s: Socket) returns (ghost got: Got)
    requires loop.Good() && s in loop.sockets && Ready(loop.g, s, NONE)
    modifies loop, loop.ready, loop.sockets, loop.contexts
    ensures loop.Good() && Reads(old(loop.g), s, Meaning(got), loop.g)
    ensures fresh(loop.sockets - old(loop.sockets)) && fresh(loop.contexts - old(loop.contexts))
    ensures -1 <= got.length
  {
    hide Loop.Good, Inv, Gives, Rely, Control, AtRead, Told, AfterEnd;
    var received := Receive();
    got := received;
    if !received.ignored {
      if received.length > 0 {
        DispatchData(loop, s);
      } else if received.length == 0 {
        DispatchFin(loop, s);
      } else if !received.blocked {
        FailureIsTold(loop.g, s);
        CloseInDispatch(loop, s);
      }
    }
  }

  lemma FailureIsTold(g: State, s: Socket)
    requires Ready(g, s, NONE)
    ensures AtRead(g, s, Failure) == Told(g, s)
  {
  }

  /** A proper socket, shut down or not, is ready for `events`. */
  method DispatchSocket(loop: Loop, s: Socket, error: bool, events: Mask) returns (ghost service: Service)
    requires loop.Good() && s in loop.sockets && Ready(loop.g, s, events)
    modifies loop, loop.ready, loop.sockets, loop.contexts
    ensures loop.Good() && Serves(old(loop.g), s, error, events, service, loop.g)
    ensures fresh(loop.sockets - old(loop.sockets)) && fresh(loop.contexts - old(loop.contexts))
  {
    hide Loop.Good, Inv, Gives, PollType, PollEvents, Told, Writes, Reads;
    service := Service(loop.g, s, loop.g, NOTHING_GOT);
    if error {
      CloseInDispatch(loop, s);
    } else {
      var r := s;
      if events.writable {
        r, service := DispatchWritable(loop, s);
      }
      Here(loop, r);
      if events.readable && !r.IsClosed() {
        ghost var got := DispatchReadable(loop, r);
        WritesAlone(old(loop.g), s, service, got);
        service := service.(got := got);
      }
    }
  }

  /** What was read does not matter for what was written. */
  lemma WritesAlone(g: State, s: Socket, service: Service, got: Got)
    requires IsLive(g, s)
    ensures Writes(g, s, service.(got := got)) <==> Writes(g, s, service)
  {
    hide Gives, Settled, AfterWritable;
  }

  // ---------- semi-sockets ----------

  ghost predicate IsConnecting(g: State, s: Socket) {
    IsLive(g, s) && g.places[s].open && g.tunings[s].kind == SemiKind && g.tunings[s].interest == WRITABLE
  }

  /** A connecting socket became writable, or failed: either way it is opened. */
  method DispatchConnect(loop: Loop, s: Socket)
    requires loop.Good() && s in loop.sockets && IsConnecting(loop.g, s)
    modifies loop, loop.ready, loop.sockets, loop.contexts
    ensures loop.Good() && Gives(AfterConnected(old(loop.g), s), OnSocket, loop.g)
    ensures fresh(loop.sockets - old(loop.sockets)) && fresh(loop.contexts - old(loop.contexts))
  {
    hide Loop.Good, Inv, Gives, PollType, PollEvents, AfterConnected, IsConnecting, IsLive, Proper, SameId;
    MayConnect(loop, s);
    loop.Connected(s);
    var r := ProperCallback(loop, s);
  }

  lemma MayConnect(loop: Loop, s: Socket)
    requires loop.Good() && s in loop.sockets && IsConnecting(loop.g, s)
    ensures !s.IsClosed() && PollType(s.word) == SemiKind && PollEvents(s.word) == WRITABLE
    ensures IsLive(loop.g, s) && Proper(AfterConnected(loop.g, s), s)
  {
    hide Loop.Good, Inv, PollType, PollEvents, Tuned;
    Here(loop, s);
  }

  /** A socket in memory, with its tag: open, and its entry is being dispatched, or closed by now. */
  ghost predicate Known(g: State, s: Socket, tag: Tag, open: bool) {
    IsLive(g, s) && g.tags[s] == tag && g.places[s].open == open && (open ==> Current(g.pending, s))
  }

  /** `accept` has just taken a connection that waited at the open listener `ls`. */
  ghost predicate Took(before: State, ls: Socket, tag: Tag, g: State) {
    && Inv(before) && Known(before, ls, tag, true) && tag.listens && before.queues.Waiting(tag.fd) > 0
    && g == AfterAccept(before, tag.fd)
  }

  lemma TookLists(before: State, ls: Socket, tag: Tag, g: State)
    requires Took(before, ls, tag, g)
    ensures Known(before, ls, tag, true) && Known(g, ls, tag, true) && tag.listens
  {
    hide Inv;
  }

  /**
   One accepted descriptor: exactly one counted socket, registered readable and linked into
   the listener's context, before its on_open runs. The listener's memory stays live.
   */
  method AcceptOne(loop: Loop, ls: Socket, fd: int, ghost before: State, ghost tag: Tag) returns (ghost a: Accepted)
    requires loop.Good() && ls in loop.sockets && Took(before, ls, tag, loop.g) && loop.Unowned(fd)
    modifies loop, loop.ready, loop.sockets, loop.contexts
    ensures loop.Good() && AcceptsOne(ls, tag, a) && a.before == before && a.after == loop.g
    ensures fresh(a.socket) && a.fd == fd
    ensures fresh(loop.sockets - old(loop.sockets)) && fresh(loop.contexts - old(loop.contexts))
    ensures ls in loop.sockets && Known(loop.g, ls, tag, !ls.IsClosed())
  {
    hide Loop.Good, Inv, Gives, Rely, Control, AfterCreate, AfterCall, MayCreate, Loop.Unowned;
    hide IsLive, Pinned, Known, Took, AcceptsOne;
    TookLists(before, ls, tag, loop.g);
    ListenerHere(loop, ls, tag);
    ghost var taken := loop.g;
    var t := CreateIn(loop, ls.context, fd, SocketKind, READABLE);
    ghost var created := loop.g;
    GoodInv(loop);
    var depth: nat := *;
    var r := CallbackOn(loop, t, depth);
    GivesBoth(created, OnSocket, loop.g);
    ListenerStays(loop, taken, created, ls, tag);
    a := Accepted(fd, t, before, loop.g);
    ItAccepts(ls, tag, taken, a);
  }

  lemma ItAccepts(ls: Socket, tag: Tag, taken: State, a: Accepted)
    requires Took(a.before, ls, tag, taken) && IsLive(taken, ls)
    requires MayCreate(taken, taken.places[ls].ctx, a.socket, a.fd, SocketKind, READABLE)
    requires Gives(AfterCreate(taken, taken.places[ls].ctx, a.socket, a.fd, SocketKind, READABLE), OnSocket, a.after)
    ensures AcceptsOne(ls, tag, a)
  {
    hide Gives, AfterCreate, Inv;
  }

  lemma ListenerHere(loop: Loop, ls: Socket, tag: Tag)
    requires loop.Good() && ls in loop.sockets && Known(loop.g, ls, tag, true)
    ensures IsLive(loop.g, ls) && ls.context == loop.g.places[ls].ctx && ls.context in loop.contexts
    ensures Inv(loop.g) && ls.fd == tag.fd && ls.listens == tag.listens
  {
    hide Loop.Good, PollType, PollEvents, Inv;
    GoodInv(loop);
    loop.Live(ls);
  }

  lemma ListenerStays(loop: Loop, a: State, b: State, ls: Socket, tag: Tag)
    requires loop.Good() && Inv(a) && Inv(b) && Rely(a, b) && Rely(b, loop.g)
    requires Known(a, ls, tag, true) && tag.listens
    ensures ls in loop.sockets && Known(loop.g, ls, tag, !ls.IsClosed())
  {
    hide Loop.Good, Inv, Rely, PollType, PollEvents, Tuned;
    GoodInv(loop);
    RelyTransitive(a, b, loop.g);
    PinStays(a, loop.g, ls);
    Here(loop, ls);
  }

  lemma PinStays(a: State, b: State, x: Socket)
    requires Rely(a, b) && Pinned(a, x)
    ensures Pinned(b, x) && b.tags[x] == a.tags[x]
  {
    hide ListsRely, RunRely, StaysLive, AllEvolve;
  }

  lemma TakesMore(g: State, ls: Socket, tag: Tag, turns: seq<Accepted>, a: Accepted)
    requires TakesAll(g, ls, tag, turns, a.before) && AcceptsOne(ls, tag, a)
    ensures TakesAll(g, ls, tag, turns + [a], a.after)
  {
    hide AcceptsOne;
    assert (turns + [a])[..|turns|] == turns;
  }

  lemma TakesNone(g: State, ls: Socket, tag: Tag)
    ensures TakesAll(g, ls, tag, [], g)
  {
  }

  /** `accept` is called on an open listener: a connection is taken from its queue, or it fails. */
  method TryAccept(loop: Loop, ls: Socket, ghost tag: Tag) returns (fd: int)
    requires loop.Good() && ls in loop.sockets && Known(loop.g, ls, tag, true)
    modifies loop`queues, loop`g
    ensures loop.Good() && ls in loop.sockets
    ensures if fd == -1 then Finishes(old(loop.g), ls, tag, loop.g)
            else loop.Unowned(fd) && Took(old(loop.g), ls, tag, loop.g)
  {
    hide Loop.Good, Inv, Loop.Unowned;
    ListenerHere(loop, ls, tag);
    fd := loop.Accept(ls);
  }

  /** One turn of the accept loop, and the call of `accept` after it if the listener is still open. */
  method AcceptNext(loop: Loop, ls: Socket, fd: int, ghost before: State, ghost tag: Tag)
    returns (next: int, ghost a: Accepted)
    requires loop.Good() && ls in loop.sockets && Took(before, ls, tag, loop.g) && loop.Unowned(fd)
    modifies loop, loop.ready, loop.sockets, loop.contexts
    ensures loop.Good() && ls in loop.sockets && AcceptsOne(ls, tag, a) && a.before == before
    ensures fresh(loop.sockets - old(loop.sockets)) && fresh(loop.contexts - old(loop.contexts))
    ensures if next == -1 then Finishes(a.after, ls, tag, loop.g)
            else loop.Unowned(next) && Took(a.after, ls, tag, loop.g)
  {
    hide Loop.Good, Inv, Gives, Rely, Control, Loop.Unowned, AcceptsOne, Took, Finishes, AfterRefusal, Known;
    a := AcceptOne(loop, ls, fd, before, tag);
    if ls.IsClosed() {
      next := -1;
      EndsClosed(a.after, ls, tag);
    } else {
      next := TryAccept(loop, ls, tag);
    }
  }

  lemma EndsClosed(g: State, ls: Socket, tag: Tag)
    requires Known(g, ls, tag, false)
    ensures Finishes(g, ls, tag, g)
  {
  }

  /**
   The accept loop. It ends when `accept` fails, or after the turn in which on_open closed the
   listener; the listener's memory is live throughout.
   */
  method DispatchListen(loop: Loop, ls: Socket) returns (ghost turns: seq<Accepted>, ghost last: State)
    requires loop.Good() && ls in loop.sockets && IsLive(loop.g, ls) && Known(loop.g, ls, loop.g.tags[ls], true)
    modifies loop, loop.ready, loop.sockets, loop.contexts
    ensures loop.Good() && Accepts(old(loop.g), ls, turns, last, loop.g)
    ensures fresh(loop.sockets - old(loop.sockets)) && fresh(loop.contexts - old(loop.contexts))
  {
    hide Loop.Good, Inv, Gives, Rely, Control, Loop.Unowned, Known, AcceptsOne, Took, Finishes, TakesAll;
    ghost var tag := loop.g.tags[ls];
    turns, last := [], loop.g;
    TakesNone(last, ls, tag);
    var fd := TryAccept(loop, ls, tag);
    while fd != -1
      invariant loop.Good() && ls in loop.sockets && TakesAll(old(loop.g), ls, tag, turns, last)
      invariant fresh(loop.sockets - old(loop.sockets)) && fresh(loop.contexts - old(loop.contexts))
      invariant if fd == -1 then Finishes(last, ls, tag, loop.g)
                else loop.Unowned(fd) && Took(last, ls, tag, loop.g)
      decreases last.queues.Waiting(tag.fd)
    {
      ghost var a: Accepted;
      fd, a := AcceptNext(loop, ls, fd, last, tag);
      AcceptWaits(ls, tag, a);
      TakesMore(old(loop.g), ls, tag, turns, a);
      turns, last := turns + [a], a.after;
    }
  }

  /** A turn takes one connection from the queue, and on_open takes none. */
  lemma AcceptWaits(ls: Socket, tag: Tag, a: Accepted)
    requires AcceptsOne(ls, tag, a)
    ensures a.after.queues.Waiting(tag.fd) == a.before.queues.Waiting(tag.fd) - 1
    ensures a.after.queues.errors == a.before.queues.errors
  {
    hide Rely, MayCreate, Answered, CallsGrow, Marks;
  }

  // ---------- any poll ----------

  method DispatchCallback(loop: Loop, callback: CallbackPoll) returns (ghost passes: seq<Pass>)
    requires loop.Good() && loop.g.ahead == []
    modifies loop, loop.ready, loop.sockets, loop.contexts
    ensures loop.Good() && Went(old(loop.g), loop.g)
    ensures if callback == SweepTimer then SweepOver(old(loop.g), passes, loop.g)
            else Gives(old(loop.g), OnTimer, loop.g)
    ensures fresh(loop.sockets - old(loop.sockets)) && fresh(loop.contexts - old(loop.contexts))
  {
    hide Loop.Good, Inv, Gives, Rely, Passes;
    passes := [];
    match callback
    case SweepTimer =>
      passes := Sweep(loop);
    case UserCallback =>
      var depth: nat := *;
      Callbacks.Callback(loop, OnTimer, depth);
      GivesBoth(old(loop.g), OnTimer, loop.g);
      RelyWent(old(loop.g), loop.g);
  }

  /** `asock_poll_ready_dispatch` for a poll that is a socket. */
  method DispatchPoll(loop: Loop, s: Socket, error: bool, events: Mask) returns (ghost turn: Turn)
    requires loop.Good() && s in loop.sockets && !s.IsClosed() && events.IsSubset(PollEvents(s.word))
    requires Current(loop.g.pending, s)
    modifies loop, loop.ready, loop.sockets, loop.contexts
    ensures IsLive(old(loop.g), s) && loop.Good() && Dispatches(old(loop.g), s, error, events, turn, loop.g)
    ensures fresh(loop.sockets - old(loop.sockets)) && fresh(loop.contexts - old(loop.contexts))
  {
    hide Loop.Good, Inv, PollType, PollEvents, Serves, Accepts, AfterConnected, Gives, Tuned;
    Here(loop, s);
    loop.NoCallbackKind(s);
    match PollType(s.word)
    case CallbackKind =>
      assert false;
    case SemiKind =>
      if PollEvents(s.word) == WRITABLE {
        turn := Connecting;
        DispatchConnect(loop, s);
      } else {
        ghost var turns, last := DispatchListen(loop, s);
        turn := Accepting(turns, last);
      }
    case _ =>
      ghost var service := DispatchSocket(loop, s, error, events);
      turn := Serving(service);
  }
}
