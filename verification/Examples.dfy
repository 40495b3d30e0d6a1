/**
 Runs, from a new loop on, that end where the library does not do what it is meant to: each
 state is what one operation makes of the state before it.
 */
module Examples {
  import opened Dispatch
  import opened Guarantees
  import opened Interference
  import opened Journal
  import opened Kernel
  import opened Memory
  import opened PollWord
  import opened Repolling
  import opened Retuning
  import opened State
  import opened Steps
  import opened Sweeping
  import opened Timer
  import opened Turns

  const DESCRIPTOR := 7

  // ---------- a connection with unsent data ----------

  /** A new loop with one context, and a connection that is being made. */
  function Connecting(mapping: Mapping, c: Context, s: Socket): State {
    AfterCreate(AfterContext(Blank(mapping, false), c), c, s, DESCRIPTOR, SemiKind, WRITABLE)
  }

  /** The connection is made, and a write of 5 bytes on it takes 2. */
  function Written(mapping: Mapping, c: Context, s: Socket): State {
    AfterWrite(AfterConnected(Connecting(mapping, c, s), s), s, 5, 2)
  }

  lemma ConnectingKeeps(mapping: Mapping, c: Context, s: Socket)
    ensures var g := Connecting(mapping, c, s);
            && Inv(g) && IsLive(g, s) && g.places[s] == Place(c, true, 0) && g.tags[s] == Tag(0, DESCRIPTOR, false)
            && g.tunings[s] == Tuning(SemiKind, WRITABLE, 0) && Registered(g.filters, DESCRIPTOR) == WRITABLE
            && g.mapping == mapping && g.pending == [] && c in g.lines
  {
    hide Inv, KqueueChange, Rely;
    var g0 := Blank(mapping, false);
    var g1 := AfterContext(g0, c);
    BlankKeeps(mapping, false);
    ContextStep(g0, c);
    CreateStep(g1, c, s, DESCRIPTOR, SemiKind, WRITABLE);
    ChangeFromAgreement(g1.filters, DESCRIPTOR, NONE, WRITABLE, s);
  }

  lemma WrittenKeeps(mapping: Mapping, c: Context, s: Socket)
    ensures var g := Written(mapping, c, s);
            && Inv(g) && IsLive(g, s) && g.places[s] == Place(c, true, 0) && g.tags[s] == Tag(0, DESCRIPTOR, false)
            && g.tunings[s] == Tuning(SocketKind, BOTH, 0) && Registered(g.filters, DESCRIPTOR) == BOTH
            && g.mapping == mapping && g.pending == [] && c in g.lines
  {
    hide Inv, KqueueChange, Rely, Connecting;
    ConnectingKeeps(mapping, c, s);
    var g := Connecting(mapping, c, s);
    ConnectedKeeps(g, s);
    WriteStep(AfterConnected(g, s), s, 5, 2);
    var g1 := Noted(AfterConnected(g, s), Sent(0, 5, 2)).(failed := true);
    ChangeIsChanged(g1, s, BOTH);
  }

  /** One batch reports the socket on both of its filters. */
  function Reported(mapping: Mapping, c: Context, s: Socket): State {
    Written(mapping, c, s).(pending := [Entry(ToSocket(s), ReadSide, false), Entry(ToSocket(s), WriteSide, false)])
  }

  lemma ReportedKeeps(mapping: Mapping, c: Context, s: Socket)
    ensures var g := Reported(mapping, c, s);
            && Inv(g) && IsLive(g, s) && g.places[s] == Place(c, true, 0) && g.tags[s] == Tag(0, DESCRIPTOR, false)
            && g.tunings[s] == Tuning(SocketKind, BOTH, 0) && Registered(g.filters, DESCRIPTOR) == BOTH
            && g.mapping == mapping && |g.pending| == 2 && g.pending[1] == Entry(ToSocket(s), WriteSide, false)
            && c in g.lines
  {
    hide Inv, Written;
    WrittenKeeps(mapping, c, s);
    BatchKeeps(Written(mapping, c, s), Reported(mapping, c, s).pending);
  }

  /**
   A client that just connected polls for writable only, in both mappings: it is not heard of
   when data comes in.
   */
  lemma ClientIsNotHeard(mapping: Mapping, c: Context, s: Socket)
    ensures var g := AfterConnected(Connecting(mapping, c, s), s);
            Inv(g) && IsLive(g, s) && g.places[s].open && g.tunings[s].kind == SocketKind && !HearsReadable(g, s)
  {
    hide Inv, KqueueChange, Connecting;
    ConnectingKeeps(mapping, c, s);
    ConnectedKeeps(Connecting(mapping, c, s), s);
  }

  // ---------- adoption of a socket that polls for nothing ----------

  /** One batch has a timer's callback and, after it, the news that the connected client is writable. */
  function Waiting(mapping: Mapping, c: Context, s: Socket): State {
    AfterCallbackPoll(AfterConnected(Connecting(mapping, c, s), s)).(
    pending := [Entry(ToCallback(UserCallback), ReadSide, false), Entry(ToSocket(s), WriteSide, false)])
  }

  /** The timer's callback shuts the client down. Nothing is left to poll for. */
  function Idle(mapping: Mapping, c: Context, s: Socket): State {
    AfterShutdown(AfterCall(Waiting(mapping, c, s), OnTimer), s)
  }

  lemma WaitingKeeps(mapping: Mapping, c: Context, s: Socket)
    ensures var g := Waiting(mapping, c, s);
            && Inv(g) && IsLive(g, s) && g.places[s].open && c in g.lines && !g.tags[s].listens
            && g.tunings[s] == Tuning(SocketKind, WRITABLE, 0)
            && |g.pending| == 2 && g.pending[0].target == ToCallback(UserCallback)
            && g.pending[1] == Entry(ToSocket(s), WriteSide, false)
  {
    hide Inv, KqueueChange, Rely, Connecting;
    ConnectingKeeps(mapping, c, s);
    var g := AfterConnected(Connecting(mapping, c, s), s);
    ConnectedKeeps(Connecting(mapping, c, s), s);
    CallbackPollStep(g);
    BatchKeeps(AfterCallbackPoll(g), Waiting(mapping, c, s).pending);
  }

  lemma IdleKeeps(mapping: Mapping, c: Context, s: Socket, turn: Turn, passes: seq<Pass>)
    ensures var g := Idle(mapping, c, s);
            && Inv(g) && IsLive(g, s) && g.places[s].open && c in g.lines && !g.tags[s].listens
            && g.tunings[s] == Tuning(ShutdownKind, NONE, 0)
            && |g.pending| == 2 && g.pending[1] == Entry(ToSocket(s), WriteSide, false)
    ensures Handles(Waiting(mapping, c, s), Waiting(mapping, c, s).pending[0], turn, passes, Idle(mapping, c, s))
  {
    hide Inv, KqueueChange, Rely, Waiting;
    WaitingKeeps(mapping, c, s);
    var g := Waiting(mapping, c, s);
    CallStep(g, OnTimer);
    ShutdownStep(AfterCall(g, OnTimer), s);
    RelyTransitive(g, AfterCall(g, OnTimer), Idle(mapping, c, s));
  }

  /**
   If that callback then lets another context adopt the client, and its block moves, the
   pending entry names memory that is gone, in both mappings. `Movable` rules this out.
   */
  lemma IdleMoveLeavesStaleEntry(mapping: Mapping, c: Context, s: Socket, t: Socket)
    requires s != t
    ensures var g := Idle(mapping, c, s);
            && Inv(g) && IsLive(g, s) && g.places[s].open && c in g.lines && !Movable(g, s)
            && var h := AfterAdopt(g, c, s, t);
               s !in h.places && |h.pending| == 2 && h.pending[1].target == ToSocket(s)
  {
    hide Inv, Idle, KqueueChange, Handles;
    IdleKeeps(mapping, c, s, Turn.Connecting, []);
    assert Idle(mapping, c, s).pending[1].target == ToSocket(s);
  }

  // ---------- adoption of a listener in its own accept loop ----------

  /** A listener is reported readable, and on_open is called for the first connection that it accepts. */
  function Greeting(mapping: Mapping, c: Context, ls: Socket, s: Socket): State {
    AfterCall(AfterCreate(AfterAccept(Reached(mapping, c, ls), DESCRIPTOR), c, s, DESCRIPTOR + 1, SocketKind, READABLE),
              OnSocket)
  }

  /** A connection waits, and the loop comes to the listener's entry. */
  function Reached(mapping: Mapping, c: Context, ls: Socket): State {
    Waited(Listening(mapping, c, ls), [Entry(ToSocket(ls), ReadSide, false)], Queues(map[DESCRIPTOR := 1], 0))
  }

  function Listening(mapping: Mapping, c: Context, ls: Socket): State {
    AfterCreate(AfterContext(Blank(mapping, false), c), c, ls, DESCRIPTOR, SemiKind, READABLE)
  }

  lemma ListeningKeeps(mapping: Mapping, c: Context, ls: Socket)
    ensures var g := Listening(mapping, c, ls);
            && Inv(g) && g.places == map[ls := Place(c, true, 0)] && g.tags == map[ls := Tag(0, DESCRIPTOR, true)]
            && g.tunings == map[ls := Tuning(SemiKind, READABLE, 0)] && g.pending == [] && c in g.lines
  {
    hide Inv, KqueueChange, Rely;
    BlankKeeps(mapping, false);
    ContextStep(Blank(mapping, false), c);
    CreateStep(AfterContext(Blank(mapping, false), c), c, ls, DESCRIPTOR, SemiKind, READABLE);
  }

  lemma ReachedKeeps(mapping: Mapping, c: Context, ls: Socket)
    ensures var g := Reached(mapping, c, ls);
            && g.queues.Waiting(DESCRIPTOR) == 1 && Inv(AfterAccept(g, DESCRIPTOR))
            && g.places == map[ls := Place(c, true, 0)] && g.tags == map[ls := Tag(0, DESCRIPTOR, true)]
            && g.tunings == map[ls := Tuning(SemiKind, READABLE, 0)] && c in g.lines && Current(g.pending, ls)
  {
    hide Inv, Listening;
    ListeningKeeps(mapping, c, ls);
    var g := Listening(mapping, c, ls);
    var batch := [Entry(ToSocket(ls), ReadSide, false)];
    BatchKeeps(g, batch);
    QueuesKeep(g.(pending := batch), AfterAccept(Reached(mapping, c, ls), DESCRIPTOR).queues);
  }

  /**
   If that on_open lets a context adopt the listener, and its block moves, the accept loop has
   no listener to go on with. `MayAdopt` rules this out.
   */
  lemma MovedListenerIsGone(mapping: Mapping, c: Context, ls: Socket, s: Socket, t: Socket, tag: Tag,
                            next: Accepted)
    requires ls != s && t != ls && t != s
    ensures var g := Greeting(mapping, c, ls, s);
            && Inv(g) && IsLive(g, ls) && g.places[ls].open && c in g.lines && !MayAdopt(g, c, ls, t)
            && var h := AfterAdopt(g, c, ls, t);
               ls !in h.places && (next.before == h ==> !AcceptsOne(ls, tag, next))
  {
    hide Inv, KqueueChange, Rely, Control, Gives, Reached, Retarget, Movable, Answered;
    ReachedKeeps(mapping, c, ls);
    var g := AfterAccept(Reached(mapping, c, ls), DESCRIPTOR);
    CreateStep(g, c, s, DESCRIPTOR + 1, SocketKind, READABLE);
    CallStep(AfterCreate(g, c, s, DESCRIPTOR + 1, SocketKind, READABLE), OnSocket);
  }

  // ---------- crossed bits: the second short write ----------

  /** on_writable writes nothing, and the socket is settled. */
  function Emptied(c: Context, s: Socket): State {
    AfterDrain(AfterCall(AfterWritable(Written(AsWritten, c, s), s), OnSocket), s)
  }

  /** Then another write of 5 bytes takes 2. */
  function WrittenAgain(c: Context, s: Socket): State {
    AfterWrite(Emptied(c, s), s, 5, 2)
  }

  lemma EmptiedKeeps(c: Context, s: Socket)
    ensures var g := Emptied(c, s);
            && Inv(g) && IsLive(g, s) && g.places[s].open && g.tags[s] == Tag(0, DESCRIPTOR, false)
            && g.tunings[s] == Tuning(SocketKind, WRITABLE, 0) && Registered(g.filters, DESCRIPTOR) == READABLE
            && g.mapping == AsWritten
    ensures var g := Written(AsWritten, c, s);
            && IsLive(g, s)
            && Writes(g, s, Service(AfterCall(AfterWritable(g, s), OnSocket), s, Emptied(c, s), NOTHING_GOT))
  {
    hide Inv, KqueueChange, Rely, Written;
    WrittenKeeps(AsWritten, c, s);
    var g := Written(AsWritten, c, s);
    WritableKeeps(g, s);
    CallStep(AfterWritable(g, s), OnSocket);
    var told := AfterCall(AfterWritable(g, s), OnSocket);
    ControlReflexive(told);
    JustWritable(g, s);
    DrainKeeps(told, s);
    ChangeIsChanged(Noted(told, Drained(0)), s, READABLE);
  }

  lemma JustWritable(g: State, s: Socket)
    requires IsLive(g, s)
    ensures LastTold(AfterWritable(g, s).log, g.tags[s].id)
  {
    Append(g.mapping, g.log, GotWritable(g.tags[s].id));
  }

  /** A report for an event that the poll word does not ask for changes nothing. */
  lemma FilteredOut(g: State, e: Entry, turn: Turn, passes: seq<Pass>, h: State)
    requires Handles(g, e, turn, passes, h) && e.target.ToSocket? && !e.error && IsLive(g, e.target.socket)
    requires EventsOf(e.side).And(g.tunings[e.target.socket].interest) == NONE
    ensures h == g
  {
    hide Dispatches, Rely, SweepOver;
  }

  /**
   After a short write, a writable dispatch and a second short write there is no writable
   filter, though data is owed; and between the two writes reports of new data are filtered
   out.
   */
  lemma SecondShortWriteIsLost(c: Context, s: Socket, e: Entry, turn: Turn, passes: seq<Pass>, h: State)
    requires e == Entry(ToSocket(s), ReadSide, false) && Handles(Emptied(c, s), e, turn, passes, h)
    ensures var g := WrittenAgain(c, s);
            && Inv(g) && IsLive(g, s) && g.places[s].open && TrackOf(g.log, 0).owes
            && g.tunings[s].interest == BOTH && !Watched(g, s) && !HearsWritable(g, s)
    ensures h == Emptied(c, s)
  {
    hide Inv, KqueueChange, Rely, Emptied, Handles, TrackOf;
    EmptiedKeeps(c, s);
    var g := Emptied(c, s);
    WriteStep(g, s, 5, 2);
    ShortWriteRegistersExactly(g, s, 5, 2);
    FilteredOut(g, e, turn, passes, h);
    SentOwes(g, s);
  }

  lemma SentOwes(g: State, s: Socket)
    requires IsLive(g, s) && g.places[s].open && g.tunings[s].kind != ShutdownKind
    ensures TrackOf(AfterWrite(g, s, 5, 2).log, g.tags[s].id).owes
  {
    hide KqueueChange;
    Append(g.mapping, g.log, Sent(g.tags[s].id, 5, 2));
  }

  // ---------- crossed bits: on_writable after shutdown ----------

  /** The first entry brings data, and on_data shuts the socket down; the loop moves on to the second. */
  function ShutWhileReported(c: Context, s: Socket): State {
    MovedOn(AfterShutdown(AfterCall(AtRead(Reported(AsWritten, c, s), s, Data), OnSocket), s))
  }

  lemma ShutKeeps(c: Context, s: Socket)
    ensures var g := ShutWhileReported(c, s);
            && Inv(g) && IsLive(g, s) && g.places[s].open && g.tags[s] == Tag(0, DESCRIPTOR, false)
            && g.tunings[s] == Tuning(ShutdownKind, WRITABLE, 0) && Registered(g.filters, DESCRIPTOR) == READABLE
            && g.pending == [Entry(ToSocket(s), WriteSide, false)]
    ensures var g := Reported(AsWritten, c, s);
            IsLive(g, s) && Reads(g, s, Data, AfterShutdown(AfterCall(AtRead(g, s, Data), OnSocket), s))
  {
    hide Inv, KqueueChange, Rely, Reported;
    ReportedKeeps(AsWritten, c, s);
    var g := Reported(AsWritten, c, s);
    DataKeeps(g, s);
    CallStep(AtRead(g, s, Data), OnSocket);
    var a := AfterCall(AtRead(g, s, Data), OnSocket);
    ShutdownStep(a, s);
    RelyTransitive(AtRead(g, s, Data), a, AfterShutdown(a, s));
    var b := AfterShutdown(a, s);
    var a1 := a.(tunings := a.tunings[s := a.tunings[s].(kind := ShutdownKind)], log := a.log + [Shut(0)]);
    ChangeIsChanged(a1, s, READABLE);
    assert b.pending == g.pending && g.pending[1..] == [Entry(ToSocket(s), WriteSide, false)];
    NextEntryKeeps(b);
  }

  /** The pending entry is dispatched, and on_writable is called on the socket that was shut down. */
  lemma WritableAfterShutdown(c: Context, s: Socket, turn: Turn, passes: seq<Pass>, h: State)
    requires Handles(ShutWhileReported(c, s), Entry(ToSocket(s), WriteSide, false), turn, passes, h)
    ensures var log := ShutWhileReported(c, s).log;
            |log| < |h.log| && h.log[|log|] == GotWritable(0)
  {
    hide Inv, Rely, Control, ShutWhileReported, Settled;
    ShutKeeps(c, s);
    var g, service := ShutWhileReported(c, s), turn.service;
    RelyLog(AfterWritable(g, s), service.mid);
    SettledLog(service.mid, service.back);
    assert service.mid.log[|g.log|] == AfterWritable(g, s).log[|g.log|];
  }
}
