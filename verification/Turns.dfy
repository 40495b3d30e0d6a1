/**
 What the dispatch of one ready poll may do, as a relation between states. A callback is
 called in a state that is stated here, and then does anything that callbacks may do.
 */
module Turns {
  import opened Interference
  import opened Journal
  import opened Kernel
  import opened Memory
  import opened PollWord
  import opened State
  import opened Steps
  import opened Sweeping
  import opened Timer

  /** What `ignore_data` says of a readable event, what `recv` returns, and whether its error is that it had to wait. */
  datatype Got = Got(ignored: bool, length: int, blocked: bool)

  /** For when nothing is read. */
  const NOTHING_GOT := Got(true, 0, false)

  /** What that comes to. */
  datatype Received = Ignored | Data | Fin | WouldBlock | Failure

  function Meaning(got: Got): Received {
    if got.ignored then Ignored
    else if got.length > 0 then Data
    else if got.length == 0 then Fin
    else if got.blocked then WouldBlock
    else Failure
  }

  /** One turn of an accept loop. */
  datatype Accepted = Accepted(fd: int, socket: Socket, before: State, after: State)

  /**
   The dispatch of a proper socket: on_writable returned `back` in state `mid`, which became
   `written`; then `back` was read from, if it was to be.
   */
  datatype Service = Service(mid: State, back: Socket, written: State, got: Got)

  datatype Turn = Connecting | Accepting(accepted: seq<Accepted>, last: State) | Serving(service: Service)

  // ---------- reading ----------

  /** The state in which a readable event calls back or, if it does not, the last one. */
  function AtRead(g: State, s: Socket, received: Received): State
    requires IsLive(g, s)
  {
    match received
    case Ignored => g
    case WouldBlock => g
    case Data => Noted(g, GotData(g.tags[s].id))
    case Failure => Told(g, s)
    case Fin =>
      if g.tunings[s].kind == ShutdownKind then Told(g, s)
      else AfterEnd(g, s)
  }

  ghost predicate Reads(g: State, s: Socket, received: Received, h: State)
    requires IsLive(g, s)
  {
    if received == Ignored || received == WouldBlock then h == g else Gives(AtRead(g, s, received), OnSocket, h)
  }

  // ---------- writing ----------

  /** After on_writable: an open socket polls on for writable only if a write failed and it was not shut down. */
  function Settled(g: State, s: Socket): State
    requires IsLive(g, s)
  {
    if g.places[s].open && (!g.failed || g.tunings[s].kind == ShutdownKind) then AfterDrain(g, s) else g
  }

  ghost predicate Writes(g: State, s: Socket, service: Service)
    requires IsLive(g, s)
  {
    && IsLive(service.mid, service.back) && service.mid.tags[service.back].id == g.tags[s].id
    && Gives(AfterWritable(g, s), OnSocket, service.mid)
    && service.written == Settled(service.mid, service.back)
  }

  // ---------- a proper socket ----------

  ghost predicate Serves(g: State, s: Socket, error: bool, events: Mask, service: Service, h: State)
    requires IsLive(g, s)
  {
    if error then Gives(Told(g, s), OnSocket, h)
    else
      && (if events.writable then Writes(g, s, service) else service.written == g && service.back == s)
      && IsLive(service.written, service.back)
      && (if events.readable && service.written.places[service.back].open
          then Reads(service.written, service.back, Meaning(service.got), h)
          else h == service.written)
  }

  // ---------- a listening socket ----------

  /**
   The listener was open, and a connection was taken from its queue; a socket for it was
   created, counted, registered and linked into the listener's context, and then on_open was
   called.
   */
  ghost predicate AcceptsOne(ls: Socket, tag: Tag, a: Accepted) {
    && IsLive(a.before, ls) && a.before.places[ls].open && a.before.tags[ls] == tag && tag.listens
    && a.before.queues.Waiting(tag.fd) > 0
    && var g, c := AfterAccept(a.before, tag.fd), a.before.places[ls].ctx;
       && MayCreate(g, c, a.socket, a.fd, SocketKind, READABLE)
       && Gives(AfterCreate(g, c, a.socket, a.fd, SocketKind, READABLE), OnSocket, a.after)
  }

  /** Turn after turn, each from where the one before ended. */
  ghost predicate TakesAll(g: State, ls: Socket, tag: Tag, turns: seq<Accepted>, h: State) {
    if turns == [] then h == g
    else
      var last := turns[|turns| - 1];
      AcceptsOne(ls, tag, last) && last.after == h && TakesAll(g, ls, tag, turns[..|turns| - 1], last.before)
  }

  /** The accept loop ends in `last`: the listener is closed, or `accept` fails. */
  ghost predicate Finishes(last: State, ls: Socket, tag: Tag, h: State) {
    h == if IsOpen(last.places, ls) then AfterRefusal(last, tag.fd, tag.listens) else last
  }

  /** The turns led to `last`, and there the loop ended. */
  ghost predicate Accepts(g: State, ls: Socket, turns: seq<Accepted>, last: State, h: State)
    requires IsLive(g, ls)
  {
    TakesAll(g, ls, g.tags[ls], turns, last) && Finishes(last, ls, g.tags[ls], h)
  }

  // ---------- any poll that is a socket ----------

  ghost predicate Dispatches(g: State, s: Socket, error: bool, events: Mask, turn: Turn, h: State)
    requires IsLive(g, s)
  {
    if g.tunings[s].kind == SemiKind then
      if g.tunings[s].interest == WRITABLE then Gives(AfterConnected(g, s), OnSocket, h)
      else turn.Accepting? && Accepts(g, s, turn.accepted, turn.last, h)
    else turn.Serving? && Serves(g, s, error, events, turn.service, h)
  }

  // ---------- any entry of the batch ----------

  function EventsOf(side: Side): Mask {
    if side == WriteSide then WRITABLE else READABLE
  }

  /**
   The handling of one entry. A poll is only dispatched on what it polls for, or on an
   error, and never once it is closed.
   */
  ghost predicate Handles(g: State, e: Entry, turn: Turn, passes: seq<Pass>, h: State) {
    match e.target
    case Nothing => h == g
    case ToCallback(UserCallback) => Gives(g, OnTimer, h)
    case ToCallback(SweepTimer) => SweepOver(g, passes, h)
    case ToSocket(s) =>
      IsLive(g, s) && g.places[s].open &&
      var events := EventsOf(e.side).And(g.tunings[s].interest);
      if events == NONE && !e.error then h == g else Dispatches(g, s, e.error, events, turn, h)
  }

  // ---------- batches, rounds and runs ----------

  /** The handling of one entry, up to where the loop moves on to the next. */
  datatype Step = Step(turn: Turn, passes: seq<Pass>, before: State, after: State)

  ghost predicate StepOver(s: Step) {
    && Inv(s.before) && s.before.ahead == [] && s.before.pending != [] && |s.after.pending| == |s.before.pending|
    && Handles(s.before, s.before.pending[0], s.turn, s.passes, s.after)
  }

  function MovedOn(g: State): State
    requires g.pending != []
  {
    g.(pending := g.pending[1..])
  }

  /** Entry after entry, from `g` on. */
  ghost predicate Works(g: State, steps: seq<Step>, h: State) {
    if steps == [] then h == g
    else
      var last := steps[|steps| - 1];
      StepOver(last) && h == MovedOn(last.after) && Works(g, steps[..|steps| - 1], last.before)
  }

  /**
   One round: the pre callback left `quiet`, the wait found `batch` and left `queues` to be
   accepted, and dispatching it all left `worked`.
   */
  datatype Round = Round(before: State, quiet: State, batch: seq<Entry>, queues: Queues, steps: seq<Step>,
                         worked: State, after: State)

  function Waited(quiet: State, batch: seq<Entry>, queues: Queues): State {
    quiet.(pending := batch, queues := queues)
  }

  ghost predicate RoundOver(r: Round) {
    && Gives(r.before, OnPre, r.quiet) && AtMostTwice(r.batch) && AllOpen(r.quiet.places, r.batch)
    && Works(Waited(r.quiet, r.batch, r.queues), r.steps, r.worked) && r.worked.pending == []
    && Freeable(r.worked) && Gives(AfterFlush(r.worked), OnPost, r.after)
  }

  /** Round after round, each begun with polls left to wait for. */
  ghost predicate Runs(g: State, rounds: seq<Round>, h: State) {
    if rounds == [] then h == g
    else
      var last := rounds[|rounds| - 1];
      RoundOver(last) && last.before.count != 0 && h == last.after && Runs(g, rounds[..|rounds| - 1], last.before)
  }

  /** A batch is dispatched entry by entry: as many steps as there are entries. */
  lemma {:induction false} EachEntryOnce(g: State, steps: seq<Step>, h: State)
    requires Works(g, steps, h)
    ensures |g.pending| == |steps| + |h.pending|
    decreases |steps|
  {
    if steps != [] {
      EachEntryOnce(g, steps[..|steps| - 1], steps[|steps| - 1].before);
    }
  }
}
