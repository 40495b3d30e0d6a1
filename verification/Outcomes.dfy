/**
 What the loop makes of an entry of the batch, in terms of what the kernel and the application
 say: which events are noted first, which callback gets control then, and what is left.
 */
module Outcomes {
  import opened Dispatch
  import opened Guarantees
  import opened Interference
  import opened Journal
  import opened Kernel
  import opened Memory
  import opened PollWord
  import opened State
  import opened Steps
  import opened Timer
  import opened Turns

  /** First of all `events` are noted, and then the callback that the last of them names gets control. */
  ghost predicate Begins(g: State, events: seq<Event>, h: State) {
    g.log + events <= h.log && g.calls + [Call(OnSocket, |g.log| + |events|)] <= h.calls
  }

  lemma GivesBegins(g: State, events: seq<Event>, noted: State, h: State)
    requires Gives(noted, OnSocket, h) && noted.log == g.log + events && noted.calls == g.calls
    ensures Begins(g, events, h)
  {
    hide ListsRely, LivesRely, Answered, Marks;
  }

  /** The socket is closed at once, on_close is called, and it waits to be freed. */
  ghost predicate ClosesAtOnce(g: State, s: Socket, h: State)
    requires IsLive(g, s)
  {
    && Begins(g, [Closed(g.tags[s].id), Notified(g.tags[s].id)], h)
    && s in h.closed && IsLive(h, s) && h.tags[s] == g.tags[s] && !h.places[s].open
  }

  lemma ToldCloses(g: State, s: Socket, h: State)
    requires Inv(g) && IsLive(g, s) && g.places[s].open && Gives(Told(g, s), OnSocket, h)
    ensures ClosesAtOnce(g, s, h)
  {
    hide Inv, Rely, Control, Begins;
    ToldLog(g, s);
    GivesBegins(g, [Closed(g.tags[s].id), Notified(g.tags[s].id)], Told(g, s), h);
    StaysClosed(Told(g, s), s, h);
  }

  lemma ToldLog(g: State, s: Socket)
    requires Inv(g) && IsLive(g, s) && g.places[s].open
    ensures var x := Told(g, s);
            && x.log == g.log + [Closed(g.tags[s].id), Notified(g.tags[s].id)] && x.calls == g.calls
            && s in x.closed && IsLive(x, s) && x.tags == g.tags && !x.places[s].open
  {
    hide Inv, Hangup, Retarget;
  }

  lemma StaysClosed(g: State, s: Socket, h: State)
    requires Rely(g, h) && IsLive(g, s) && !g.places[s].open && s in g.closed
    ensures s in h.closed && IsLive(h, s) && h.tags[s] == g.tags[s] && !h.places[s].open
  {
    hide RunRely, LinesRely, OldLinks, StaysLive;
    assert Pinned(g, s) && Pinned(h, s);
    assert Evolves(g, h, s, s);
    assert s in h.closed[|h.closed| - |g.closed|..];
  }

  // ---------- errors ----------

  /** An error or a hang-up closes a proper socket, on whichever filter it comes, and whatever the socket polls for. */
  lemma ErrorCloses(g: State, s: Socket, side: Side, turn: Turn, passes: seq<Pass>, h: State)
    requires Inv(g) && IsLive(g, s) && g.places[s].open && g.tunings[s].kind != SemiKind
    requires Handles(g, Entry(ToSocket(s), side, true), turn, passes, h)
    ensures ClosesAtOnce(g, s, h)
  {
    hide Inv, Gives, Writes, Reads, SweepOver, Accepts, ClosesAtOnce, Told;
    ToldCloses(g, s, h);
  }

  // ---------- reading ----------

  /**
   A readable entry of a proper socket that polls for readable, by what `ignore_data` says,
   what `recv` returns, and whether its error is that it would block. Data is handed to
   on_data; the peer's first FIN to on_end; a FIN that answers our own, and an error, close the
   socket; and otherwise nothing happens.
   */
  lemma ReadableOutcome(g: State, s: Socket, turn: Turn, passes: seq<Pass>, h: State)
    requires Inv(g) && IsLive(g, s) && g.places[s].open && g.tunings[s].kind != SemiKind
    requires g.tunings[s].interest.readable && Handles(g, Entry(ToSocket(s), ReadSide, false), turn, passes, h)
    ensures turn.Serving?
    ensures var id, got, down := g.tags[s].id, turn.service.got, g.tunings[s].kind == ShutdownKind;
            && (ClosesAtOnce(g, s, h) <==>
                  !got.ignored && ((got.length < 0 && !got.blocked) || (got.length == 0 && down)))
            && (Begins(g, [GotData(id)], h) <==> !got.ignored && got.length > 0)
            && (Begins(g, [GotEnd(id)], h) <==> !got.ignored && got.length == 0 && !down)
            && (h == g <==> got.ignored || (got.length < 0 && got.blocked))
  {
    hide Inv, Gives, Writes, SweepOver, Accepts, ClosesAtOnce, Begins, AtRead;
    ReadsOutcome(g, s, turn.service.got, h);
  }

  /** The four outcomes exclude each other. */
  lemma OutcomesDiffer(g: State, s: Socket, h: State)
    requires IsLive(g, s)
    ensures var id := g.tags[s].id;
            && !(ClosesAtOnce(g, s, h) && Begins(g, [GotData(id)], h))
            && !(ClosesAtOnce(g, s, h) && Begins(g, [GotEnd(id)], h))
            && !(Begins(g, [GotData(id)], h) && Begins(g, [GotEnd(id)], h))
            && (h == g ==> !ClosesAtOnce(g, s, h) && !Begins(g, [GotData(id)], h) && !Begins(g, [GotEnd(id)], h))
  {
    var id := g.tags[s].id;
    if ClosesAtOnce(g, s, h) {
      assert h.log[|g.log|] == Closed(id);
    }
    if Begins(g, [GotData(id)], h) {
      assert h.log[|g.log|] == GotData(id);
    }
    if Begins(g, [GotEnd(id)], h) {
      assert h.log[|g.log|] == GotEnd(id);
    }
  }

  lemma ReadsOutcome(g: State, s: Socket, got: Got, h: State)
    requires Inv(g) && IsLive(g, s) && g.places[s].open && g.tunings[s].kind != SemiKind
    requires Reads(g, s, Meaning(got), h)
    ensures var id, down := g.tags[s].id, g.tunings[s].kind == ShutdownKind;
            && (ClosesAtOnce(g, s, h) <==>
                  !got.ignored && ((got.length < 0 && !got.blocked) || (got.length == 0 && down)))
            && (Begins(g, [GotData(id)], h) <==> !got.ignored && got.length > 0)
            && (Begins(g, [GotEnd(id)], h) <==> !got.ignored && got.length == 0 && !down)
            && (h == g <==> got.ignored || (got.length < 0 && got.blocked))
  {
    hide Inv, Gives, ClosesAtOnce, Begins, Told, AfterEnd;
    var id := g.tags[s].id;
    OutcomesDiffer(g, s, h);
    match Meaning(got)
    case Ignored =>
    case WouldBlock =>
    case Data =>
      GivesBegins(g, [GotData(id)], Noted(g, GotData(id)), h);
    case Failure =>
      ToldCloses(g, s, h);
    case Fin =>
      if g.tunings[s].kind == ShutdownKind {
        ToldCloses(g, s, h);
      } else {
        EndLog(g, s);
        GivesBegins(g, [GotEnd(id)], AfterEnd(g, s), h);
      }
  }

  lemma EndLog(g: State, s: Socket)
    requires IsLive(g, s)
    ensures AfterEnd(g, s).log == g.log + [GotEnd(g.tags[s].id)] && AfterEnd(g, s).calls == g.calls
  {
    hide KqueueChange;
  }

  // ---------- writing ----------

  /**
   A writable entry of a proper socket that polls for writable: on_writable is called, and in
   the end the socket, where it is then, stops polling for writable if and only if it is open
   and no write fell short meanwhile, on any socket, or it is shut down.
   */
  lemma WritableOutcome(g: State, s: Socket, turn: Turn, passes: seq<Pass>, h: State)
    requires Inv(g) && IsLive(g, s) && g.places[s].open && g.tunings[s].kind != SemiKind
    requires g.tunings[s].interest.writable && Handles(g, Entry(ToSocket(s), WriteSide, false), turn, passes, h)
    ensures turn.Serving? && Begins(g, [GotWritable(g.tags[s].id)], h)
    ensures var r, id := turn.service.back, g.tags[s].id;
            && IsLive(h, r) && h.tags[r].id == id
            && (h.log[|h.log| - 1] == Drained(id) <==>
                  h.places[r].open && (!Fell(h.log, |g.log|) || h.tunings[r].kind == ShutdownKind))
            && forall i | |g.log| <= i < |h.log| - 1 :: !h.log[i].Drained?
  {
    hide Inv, Gives, Reads, SweepOver, Accepts, Begins, Settled;
    var x, service := AfterWritable(g, s), turn.service;
    GivesBegins(g, [GotWritable(g.tags[s].id)], x, service.mid);
    MarkExact(g, s, service.mid);
    SettledOutcome(g, s, service.mid, service.back);
  }

  /** While on_writable ran, the mark was set exactly if a write fell short. */
  lemma MarkExact(g: State, s: Socket, mid: State)
    requires IsLive(g, s) && Gives(AfterWritable(g, s), OnSocket, mid)
    ensures |g.log| < |mid.log| && g.log <= mid.log && !mid.log[|mid.log| - 1].Drained?
    ensures mid.failed <==> Fell(mid.log, |g.log|)
    ensures forall i | |g.log| <= i < |mid.log| :: !mid.log[i].Drained?
  {
    hide ListsRely, LivesRely, Answered, CallsGrow;
    var x := AfterWritable(g, s);
    assert forall i | |g.log| <= i < |x.log| :: x.log[i] == mid.log[i];
    FellThen(x.log, mid.log, |g.log|);
  }

  lemma SettledOutcome(g: State, s: Socket, mid: State, r: Socket)
    requires IsLive(g, s) && IsLive(mid, r) && mid.tags[r].id == g.tags[s].id
    requires |g.log| < |mid.log| && !mid.log[|mid.log| - 1].Drained? && (mid.failed <==> Fell(mid.log, |g.log|))
    requires forall i | |g.log| <= i < |mid.log| :: !mid.log[i].Drained?
    requires Begins(g, [GotWritable(g.tags[s].id)], mid)
    ensures var h, id := Settled(mid, r), g.tags[s].id;
            && Begins(g, [GotWritable(id)], h) && IsLive(h, r) && h.tags[r].id == id
            && (h.log[|h.log| - 1] == Drained(id) <==>
                  h.places[r].open && (!Fell(h.log, |g.log|) || h.tunings[r].kind == ShutdownKind))
            && forall i | |g.log| <= i < |h.log| - 1 :: !h.log[i].Drained?
  {
    hide KqueueChange;
    var h := Settled(mid, r);
    FellThen(mid.log, h.log, |g.log|);
  }

  // ---------- connecting ----------

  /** An entry of a connecting socket, for an error or for writable: it is opened, as a proper socket. */
  lemma ConnectOutcome(g: State, s: Socket, side: Side, error: bool, turn: Turn, passes: seq<Pass>, h: State)
    requires Inv(g) && IsLive(g, s) && g.places[s].open && LooksConnecting(g, s) && (error || side == WriteSide)
    requires Handles(g, Entry(ToSocket(s), side, error), turn, passes, h)
    ensures Begins(g, [Opened(g.tags[s].id)], h)
    ensures forall y | IsLive(h, y) && h.tags[y].id == g.tags[s].id :: h.tunings[y].kind != SemiKind
  {
    hide Inv, Gives, Serves, SweepOver, Accepts, Begins;
    GivesBegins(g, [Opened(g.tags[s].id)], AfterConnected(g, s), h);
    ProperStays(AfterConnected(g, s), s, h);
  }

  lemma ProperStays(g: State, s: Socket, h: State)
    requires Gives(g, OnSocket, h) && IsLive(g, s) && g.tunings[s].kind != SemiKind
    ensures forall y | IsLive(h, y) && h.tags[y].id == g.tags[s].id :: h.tunings[y].kind != SemiKind
  {
    hide ListsRely, RunRely, StaysLive, PinsStay, Control;
    forall y | IsLive(h, y) && h.tags[y].id == g.tags[s].id
      ensures h.tunings[y].kind != SemiKind
    {
      assert Evolves(g, h, s, y);
    }
  }

  // ---------- accepting ----------

  /**
   The turn begins with a new socket, and its on_open; and unless it was closed or adopted, it
   is open in the end, for the accepted descriptor, and in the listener's context.
   */
  ghost predicate Greets(ls: Socket, a: Accepted) {
    var id := a.before.nextId;
    && Begins(a.before, [Created(id, SocketKind, READABLE), Opened(id)], a.after)
    && ls in a.before.places
    && (Left(a.after.log, |a.before.log|, id) ||
        (LinkedIn(a.after.places, a.before.places[ls].ctx, a.socket) &&
         a.socket in a.after.tags && a.after.tags[a.socket] == Tag(id, a.fd, false)))
  }

  /**
   Every connection that left the queue is one turn, from an open listener; each turn goes on
   from the one before; and then the listener is closed, or its queue is empty, or `accept`
   failed although it was not.
   */
  ghost predicate AllAccepted(g: State, ls: Socket, fd: int, turns: seq<Accepted>, h: State) {
    && h.queues.Waiting(fd) == g.queues.Waiting(fd) - |turns|
    && (IsOpen(h.places, ls) ==> h.queues.Waiting(fd) == 0 || h.queues.errors > g.queues.errors)
    && (forall i | 0 <= i < |turns| :: Greets(ls, turns[i]) && IsOpen(turns[i].before.places, ls))
    && (forall i | 0 <= i < |turns| - 1 :: turns[i].after == turns[i + 1].before)
    && (turns != [] ==> turns[0].before == g)
  }

  /**
   An entry of a listener, for an error or for readable: all connections that wait are
   accepted, each makes one socket, and its on_open is called.
   */
  lemma AcceptOutcome(g: State, ls: Socket, side: Side, error: bool, turn: Turn, passes: seq<Pass>, h: State)
    requires Inv(g) && IsLive(g, ls) && g.places[ls].open && g.tunings[ls].kind == SemiKind && g.tags[ls].listens
    requires g.tunings[ls].interest == READABLE && (error || side == ReadSide)
    requires Handles(g, Entry(ToSocket(ls), side, error), turn, passes, h)
    ensures turn.Accepting? && AllAccepted(g, ls, g.tags[ls].fd, turn.accepted, h)
  {
    hide Inv, AcceptsOne, Gives, Serves, SweepOver, Greets;
    TurnsTake(g, ls, g.tags[ls], turn.accepted, turn.last);
  }

  lemma {:induction false} TurnsTake(g: State, ls: Socket, tag: Tag, turns: seq<Accepted>, h: State)
    requires TakesAll(g, ls, tag, turns, h)
    ensures h.queues.Waiting(tag.fd) == g.queues.Waiting(tag.fd) - |turns| && h.queues.errors == g.queues.errors
    ensures forall i | 0 <= i < |turns| :: Greets(ls, turns[i]) && IsOpen(turns[i].before.places, ls)
    ensures forall i | 0 <= i < |turns| - 1 :: turns[i].after == turns[i + 1].before
    ensures if turns == [] then h == g else turns[0].before == g && turns[|turns| - 1].after == h
    decreases |turns|
  {
    hide AcceptsOne, Greets;
    if turns != [] {
      var n := |turns| - 1;
      var front := turns[..n];
      TurnsTake(g, ls, tag, front, turns[n].before);
      TurnTakes(ls, tag, turns[n]);
      AcceptWaits(ls, tag, turns[n]);
      assert forall i | 0 <= i < n :: turns[i] == front[i];
    }
  }

  lemma TurnTakes(ls: Socket, tag: Tag, a: Accepted)
    requires AcceptsOne(ls, tag, a)
    ensures Greets(ls, a) && IsOpen(a.before.places, ls)
  {
    hide Gives, MayCreate, AfterCreate, Begins, LinkedIn, Left;
    var id, taken, c := a.before.nextId, AfterAccept(a.before, tag.fd), a.before.places[ls].ctx;
    var created := AfterCreate(taken, c, a.socket, a.fd, SocketKind, READABLE);
    CreatedLeaves(taken, c, a.socket, a.fd);
    GivesBegins(a.before, [Created(id, SocketKind, READABLE), Opened(id)], created, a.after);
    NewcomerStays(taken, c, a.socket, a.fd, a.after);
  }

  lemma CreatedLeaves(g: State, c: Context, s: Socket, fd: int)
    requires c in g.lines
    ensures var h, id := AfterCreate(g, c, s, fd, SocketKind, READABLE), g.nextId;
            && h.log == g.log + [Created(id, SocketKind, READABLE), Opened(id)] && h.calls == g.calls
            && LinkedIn(h.places, c, s) && s in h.tags && h.tags[s] == Tag(id, fd, false)
  {
    hide KqueueChange;
  }

  /** The new socket is where it was created, unless it was closed or adopted. */
  lemma NewcomerStays(g: State, c: Context, s: Socket, fd: int, h: State)
    requires c in g.lines && Gives(AfterCreate(g, c, s, fd, SocketKind, READABLE), OnSocket, h)
    ensures Left(h.log, |g.log|, g.nextId) ||
            (LinkedIn(h.places, c, s) && s in h.tags && h.tags[s] == Tag(g.nextId, fd, false))
  {
    hide ListsRely, LivesRely, KeepsOld, Control, AfterCreate, Left;
    var created := AfterCreate(g, c, s, fd, SocketKind, READABLE);
    CreatedLeaves(g, c, s, fd);
    LeftSince(h.log, h.log, |g.log|, |created.log|, g.nextId);
  }

  // ---------- callback polls ----------

  /** An entry of a timer or of another callback poll: its callback gets control, before anything else. */
  lemma TimerOutcome(g: State, side: Side, error: bool, turn: Turn, passes: seq<Pass>, h: State)
    requires Handles(g, Entry(ToCallback(UserCallback), side, error), turn, passes, h)
    ensures g.calls + [Call(OnTimer, |g.log|)] <= h.calls
  {
    hide Rely, Answered, Marks;
  }
}
