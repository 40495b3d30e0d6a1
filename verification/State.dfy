/**
 The abstract state of a loop, its invariant, and what each operation of the library makes
 of it. The classes in the other modules represent this state in memory.
 */
module State {
  import opened Journal
  import opened Kernel
  import opened Memory
  import opened PollWord
  import opened Sequences

  /** Where a socket is: its context and, by `stamp`, the act of linking that put it there. */
  datatype Place = Place(ctx: Context, open: bool, stamp: nat)

  /** What stays with a socket for life, even when it moves in memory; `listens` if it is a listener. */
  datatype Tag = Tag(id: nat, fd: int, listens: bool)

  /** The part of a socket that its poll word and its timeout field hold. */
  datatype Tuning = Tuning(kind: Kind, interest: Mask, timeout: nat)

  /** A context's list `done + todo`; a sweep's iterator stands at the head of `todo`. */
  datatype Line = Line(done: seq<Socket>, todo: seq<Socket>) {
    predicate Has(older s: Socket) { s in done || s in todo }

    function Drop(s: Socket): Line { Line(Without(done, s), Without(todo, s)) }

    function Push(s: Socket): Line { Line([s] + done, todo) }

    function Step(): Line
      requires todo != []
    {
      Line(done + [todo[0]], todo[1..])
    }
  }

  datatype CallbackPoll = SweepTimer | UserCallback

  datatype Target = Nothing | ToSocket(socket: Socket) | ToCallback(callback: CallbackPoll)

  /** An entry of the ready array. */
  datatype Entry = Entry(target: Target, side: Side, error: bool)

  /** Who gets control: the callback that the last event of the journal names, or one of the loop's own. */
  datatype Hook = OnSocket | OnPre | OnPost | OnTimer

  /** A callback got control when the journal had this length. */
  datatype Call = Call(hook: Hook, at: nat)

  /**
   What the kernel holds for `accept`: the connections waiting at each descriptor, and how
   often it failed although one was waiting.
   */
  datatype Queues = Queues(waiting: map<int, nat>, errors: nat) {
    function Waiting(fd: int): nat { if fd in waiting then waiting[fd] else 0 }

    function Taken(fd: int): Queues
      requires Waiting(fd) > 0
    {
      this.(waiting := waiting[fd := Waiting(fd) - 1])
    }

    function Failed(): Queues { this.(errors := errors + 1) }
  }

  datatype State = State(
    mapping: Mapping,
    // The sockets in memory, open or waiting on the close list.
    places: map<Socket, Place>,
    tags: map<Socket, Tag>,
    tunings: map<Socket, Tuning>,
    lines: map<Context, Line>,
    // Contexts in list order, before and from the sweep's context iterator on.
    passed: seq<Context>,
    ahead: seq<Context>,
    closed: seq<Socket>,
    filters: map<Filter, Socket>,
    // Ready entries from the one being dispatched on.
    pending: seq<Entry>,
    failed: bool,
    count: int,
    others: nat,
    nextId: nat,
    clock: nat,
    log: seq<Event>,
    queues: Queues,
    calls: seq<Call>)

  // ---------- invariant ----------

  predicate IsOpen(places: map<Socket, Place>, older s: Socket) {
    s in places && places[s].open
  }

  /** `s` is open and linked into `c`. */
  predicate LinkedIn(places: map<Socket, Place>, c: Context, older s: Socket) {
    IsOpen(places, s) && places[s].ctx == c
  }

  /** Linked later means nearer the head. */
  ghost predicate Sorted(places: map<Socket, Place>, list: seq<Socket>) {
    forall i, j | 0 <= i < j < |list| ::
      list[i] in places && list[j] in places && places[list[i]].stamp > places[list[j]].stamp
  }

  ghost predicate LineOk(places: map<Socket, Place>, c: Context, line: Line) {
    && (forall x | x in line.done :: LinkedIn(places, c, x))
    && (forall x | x in line.todo :: LinkedIn(places, c, x))
    && Sorted(places, line.done) && Sorted(places, line.todo)
    && (forall x, y | x in line.done && y in line.todo :: places[x].stamp > places[y].stamp)
  }

  ghost predicate LinesOk(places: map<Socket, Place>, lines: map<Context, Line>) {
    forall c | c in lines :: LineOk(places, c, lines[c])
  }

  ghost predicate PlacesOk(places: map<Socket, Place>, lines: map<Context, Line>, clock: nat) {
    forall x | x in places ::
      && places[x].ctx in lines
      && places[x].stamp < clock
      && (places[x].open ==> lines[places[x].ctx].Has(x))
  }

  /** The close list holds exactly the closed sockets, each once. */
  ghost predicate ClosedOk(places: map<Socket, Place>, closed: seq<Socket>) {
    && Distinct(closed)
    && (forall x | x in closed :: x in places && !places[x].open)
    && (forall x | x in places && !places[x].open :: x in closed)
  }

  ghost predicate ContextsOk(lines: map<Context, Line>, passed: seq<Context>, ahead: seq<Context>) {
    && Distinct(passed + ahead)
    && (forall c | c in lines :: c in passed || c in ahead)
    && (forall c | c in passed :: c in lines)
    && (forall c | c in ahead :: c in lines)
    && (forall c | c in lines && lines[c].todo != [] :: ahead != [] && ahead[0] == c)
  }

  ghost predicate KeysOk(places: map<Socket, Place>, tags: map<Socket, Tag>, tunings: map<Socket, Tuning>) {
    places.Keys == tags.Keys == tunings.Keys
  }

  /** No two open sockets share a descriptor. */
  ghost predicate DescriptorsOk(places: map<Socket, Place>, tags: map<Socket, Tag>) {
    forall x, y | IsOpen(places, x) && IsOpen(places, y) && x in tags && y in tags && tags[x].fd == tags[y].fd :: x == y
  }

  /** Every filter's user data is the open socket that owns the descriptor. */
  ghost predicate FiltersOk(places: map<Socket, Place>, tags: map<Socket, Tag>, filters: map<Filter, Socket>) {
    forall f | f in filters :: IsOpen(places, filters[f]) && filters[f] in tags && tags[filters[f]].fd == f.fd
  }

  predicate Tuned(mapping: Mapping, registered: Mask, t: Tuning) {
    && t.kind != CallbackKind
    && (mapping == AsIntended || t.kind == SemiKind ==> registered == t.interest)
    && (t.kind == SemiKind ==> t.interest != NONE)
    && (mapping == AsIntended && t.kind == ShutdownKind ==> !t.interest.writable)
  }

  /** The cached interest of an open socket is what is registered for its descriptor. */
  ghost predicate InterestOk(mapping: Mapping, places: map<Socket, Place>, tags: map<Socket, Tag>,
                             tunings: map<Socket, Tuning>, filters: map<Filter, Socket>) {
    forall x | IsOpen(places, x) && x in tags && x in tunings ::
      Tuned(mapping, Registered(filters, tags[x].fd), tunings[x])
  }

  /** No poll is twice in the batch for the same filter. */
  ghost predicate AtMostTwice(pending: seq<Entry>) {
    forall i, j | 0 <= i < j < |pending| && pending[i].target.ToSocket? && pending[i].target == pending[j].target ::
      pending[i].side != pending[j].side
  }

  predicate EntryOk(places: map<Socket, Place>, e: Entry) {
    e.target.ToSocket? ==> IsOpen(places, e.target.socket)
  }

  /** Whatever is still to be dispatched is open. The entry being dispatched may go stale. */
  ghost predicate PendingOk(places: map<Socket, Place>, pending: seq<Entry>) {
    AtMostTwice(pending) && forall i | 1 <= i < |pending| :: EntryOk(places, pending[i])
  }

  /** Polls are counted from creation to release. */
  ghost predicate CountOk(tags: map<Socket, Tag>, count: int, others: nat) {
    count == |tags| + others
  }

  ghost predicate IdsOk(tags: map<Socket, Tag>, nextId: nat) {
    && (forall x | x in tags :: tags[x].id < nextId)
    && (forall x, y | x in tags && y in tags && tags[x].id == tags[y].id :: x == y)
  }

  predicate PhaseFits(p: Phase, open: bool, kind: Kind) {
    if !open then p == Dead || p == Buried
    else match kind
         case SemiKind => p == Semi
         case SocketKind => p == Live
         case ShutdownKind => p == Down
         case CallbackKind => false
  }

  /** A socket is in memory as the journal says it should be. */
  predicate Fits(mapping: Mapping, t: Track, open: bool, tuning: Tuning) {
    && PhaseFits(t.phase, open, tuning.kind)
    && t.countdown == tuning.timeout
    && (mapping == AsIntended && open && t.owes ==> tuning.interest.writable)
  }

  ghost predicate HistoryOk(mapping: Mapping, log: seq<Event>, failed: bool, nextId: nat) {
    && Lawful(mapping, log)
    && (Failing(log) ==> failed)
    && (forall id | id >= nextId :: TrackOf(log, id).phase == Unborn)
  }

  ghost predicate JournalOk(mapping: Mapping, log: seq<Event>, places: map<Socket, Place>,
                            tags: map<Socket, Tag>, tunings: map<Socket, Tuning>) {
    forall x | x in places && x in tags && x in tunings ::
      Fits(mapping, TrackOf(log, tags[x].id), places[x].open, tunings[x])
  }

  /** What the intrusive lists keep. */
  ghost predicate ListsInv(g: State) {
    && LinesOk(g.places, g.lines) && PlacesOk(g.places, g.lines, g.clock)
    && ClosedOk(g.places, g.closed) && ContextsOk(g.lines, g.passed, g.ahead)
  }

  /** What the poll layer keeps. */
  ghost predicate PollInv(g: State) {
    && DescriptorsOk(g.places, g.tags) && FiltersOk(g.places, g.tags, g.filters)
    && InterestOk(g.mapping, g.places, g.tags, g.tunings, g.filters)
    && PendingOk(g.places, g.pending)
  }

  /** What ties the sockets in memory to the history of the run. */
  ghost predicate LifeInv(g: State) {
    && KeysOk(g.places, g.tags, g.tunings) && CountOk(g.tags, g.count, g.others) && IdsOk(g.tags, g.nextId)
    && HistoryOk(g.mapping, g.log, g.failed, g.nextId)
    && JournalOk(g.mapping, g.log, g.places, g.tags, g.tunings)
  }

  /** Interest and filters of an open socket are what its history makes of them. */
  ghost predicate MasksOk(mapping: Mapping, log: seq<Event>, places: map<Socket, Place>, tags: map<Socket, Tag>,
                          tunings: map<Socket, Tuning>, filters: map<Filter, Socket>) {
    forall x | IsOpen(places, x) && x in tags && x in tunings ::
      PollOf(mapping, log, tags[x].id) == Poll(tunings[x].interest, Registered(filters, tags[x].fd))
  }

  ghost predicate MaskInv(g: State) {
    MasksOk(g.mapping, g.log, g.places, g.tags, g.tunings, g.filters)
  }

  ghost predicate Inv(g: State) {
    ListsInv(g) && PollInv(g) && LifeInv(g) && MaskInv(g)
  }

  /** The entry being dispatched, which may be stale, names `s`. */
  predicate Current(pending: seq<Entry>, older s: Socket) {
    pending != [] && pending[0].target == ToSocket(s)
  }

  /** `s` is in memory. */
  predicate IsLive(g: State, older s: Socket) {
    s in g.places && s in g.tags && s in g.tunings && g.places[s].ctx in g.lines
  }

  /** A loop with no contexts, no sockets and no polls that count. */
  function Blank(mapping: Mapping, failed: bool): State {
    State(mapping, map[], map[], map[], map[], [], [], [], map[], [], failed, 0, 0, 0, 0, [], Queues(map[], 0), [])
  }

  lemma BlankKeeps(mapping: Mapping, failed: bool)
    ensures Inv(Blank(mapping, failed))
  {
  }

  // ---------- operations ----------

  function Noted(g: State, e: Event): State {
    g.(log := g.log + [e])
  }

  /** Every entry for `s` now has the target `t`. */
  function Retarget(entries: seq<Entry>, s: Socket, t: Target): seq<Entry> {
    seq(|entries|, i requires 0 <= i < |entries| =>
      if entries[i].target == ToSocket(s) then entries[i].(target := t) else entries[i])
  }

  function AfterChange(g: State, s: Socket, events: Mask): State
    requires IsLive(g, s)
  {
    var t := g.tunings[s];
    if t.interest == events then g
    else g.(tunings := g.tunings[s := t.(interest := Stored(g.mapping, events))],
            filters := KqueueChange(g.filters, g.tags[s].fd, t.interest, events, s))
  }

  function AfterTimeout(g: State, s: Socket, sweeps: nat): State
    requires IsLive(g, s)
  {
    g.(tunings := g.tunings[s := g.tunings[s].(timeout := sweeps)], log := g.log + [Armed(g.tags[s].id, sweeps)])
  }

  function AfterShutdown(g: State, s: Socket): State
    requires IsLive(g, s)
  {
    var t := g.tunings[s];
    if !g.places[s].open || t.kind == ShutdownKind then g
    else AfterChange(g.(tunings := g.tunings[s := t.(kind := ShutdownKind)], log := g.log + [Shut(g.tags[s].id)]),
                     s, t.interest.And(READABLE))
  }

  function AfterWrite(g: State, s: Socket, asked: int, taken: int): State
    requires IsLive(g, s)
  {
    if !g.places[s].open || g.tunings[s].kind == ShutdownKind then g
    else
      var h := Noted(g, Sent(g.tags[s].id, asked, taken));
      if taken == asked then h else AfterChange(h.(failed := true), s, BOTH)
  }

  function AfterCloseQuietly(g: State, s: Socket): State
    requires IsLive(g, s)
  {
    var p := g.places[s];
    g.(places := g.places[s := p.(open := false)],
       lines := g.lines[p.ctx := g.lines[p.ctx].Drop(s)],
       closed := [s] + g.closed,
       filters := Hangup(g.filters, g.tags[s].fd),
       pending := Retarget(g.pending, s, Nothing),
       log := g.log + [Closed(g.tags[s].id)])
  }

  /** `s` is closed and on_close is about to be called. */
  function Told(g: State, s: Socket): State
    requires IsLive(g, s)
  {
    Noted(AfterCloseQuietly(g, s), Notified(g.tags[s].id))
  }

  /** A socket's poll is created with interest `events`, started, and linked into `c`. */
  function AfterCreate(g: State, c: Context, s: Socket, fd: int, kind: Kind, events: Mask): State
    requires c in g.lines
  {
    g.(places := g.places[s := Place(c, true, g.clock)],
       tags := g.tags[s := Tag(g.nextId, fd, kind == SemiKind && events == READABLE)],
       tunings := g.tunings[s := Tuning(kind, events, 0)],
       lines := g.lines[c := g.lines[c].Push(s)],
       filters := KqueueChange(g.filters, fd, NONE, events, s),
       count := g.count + 1,
       nextId := g.nextId + 1,
       clock := g.clock + 1,
       log := g.log + [Created(g.nextId, kind, events)] + if kind == SocketKind then [Opened(g.nextId)] else [])
  }

  /** `s` is adopted by `c`; its memory is now at `t`, which may still be `s`. */
  function AfterAdopt(g: State, c: Context, s: Socket, t: Socket): State
    requires IsLive(g, s) && c in g.lines
  {
    var rest := g.lines[g.places[s].ctx := g.lines[g.places[s].ctx].Drop(s)];
    var tag, tuning := g.tags[s], g.tunings[s];
    var repair := t != s && tuning.interest != NONE;
    g.(places := (g.places - {s})[t := Place(c, true, g.clock)],
       tags := (g.tags - {s})[t := tag],
       tunings := (g.tunings - {s})[t := tuning.(timeout := 0)],
       lines := rest[c := rest[c].Push(t)],
       filters := if repair then KqueueChange(g.filters, tag.fd, NONE, tuning.interest, t) else g.filters,
       pending := if repair then Retarget(g.pending, s, ToSocket(t)) else g.pending,
       clock := g.clock + 1,
       log := g.log + [Relinked(tag.id, t != s)])
  }

  /** A callback gets control. */
  function AfterCall(g: State, hook: Hook): State {
    g.(calls := g.calls + [Call(hook, |g.log|)])
  }

  /** `accept` takes a connection that waits at `fd`. */
  function AfterAccept(g: State, fd: int): State
    requires g.queues.Waiting(fd) > 0
  {
    g.(queues := g.queues.Taken(fd))
  }

  /** `accept` fails: no connection is waiting, or there is an error. */
  function AfterRefusal(g: State, fd: int, listens: bool): State {
    if listens && g.queues.Waiting(fd) > 0 then g.(queues := g.queues.Failed()) else g
  }

  /** A timer or another callback poll that counts is created. */
  function AfterCallbackPoll(g: State): State {
    g.(count := g.count + 1, others := g.others + 1)
  }

  function AfterContext(g: State, c: Context): State {
    g.(lines := g.lines[c := Line([], [])], passed := [c] + g.passed)
  }

  /** A connecting socket becomes writable and is now a proper socket. */
  function AfterConnected(g: State, s: Socket): State
    requires IsLive(g, s)
  {
    g.(tunings := g.tunings[s := g.tunings[s].(kind := SocketKind)], log := g.log + [Opened(g.tags[s].id)])
  }

  function AfterWritable(g: State, s: Socket): State
    requires IsLive(g, s)
  {
    g.(failed := false, log := g.log + [GotWritable(g.tags[s].id)])
  }

  /** The peer's first FIN: the socket stops polling for readable, and on_end is called. */
  function AfterEnd(g: State, s: Socket): State
    requires IsLive(g, s)
  {
    AfterChange(Noted(g, GotEnd(g.tags[s].id)), s, g.tunings[s].interest.And(WRITABLE))
  }

  function AfterDrain(g: State, s: Socket): State
    requires IsLive(g, s)
  {
    AfterChange(Noted(g, Drained(g.tags[s].id)), s, g.tunings[s].interest.And(READABLE))
  }

  function AfterFree(g: State): State
    requires g.closed != [] && g.closed[0] in g.tags
  {
    var s := g.closed[0];
    g.(places := g.places - {s},
       tags := g.tags - {s},
       tunings := g.tunings - {s},
       closed := g.closed[1..],
       count := g.count - 1,
       log := g.log + [Freed(g.tags[s].id)])
  }

  /** The close list can be freed: its sockets are in memory, closed, and listed once. */
  ghost predicate Freeable(g: State) {
    Distinct(g.closed) && forall x | x in g.closed :: x in g.tags && !IsOpen(g.places, x)
  }

  /** The whole close list is freed, from its head on. */
  ghost function AfterFlush(g: State): State
    requires Freeable(g)
    decreases |g.closed|
  {
    if g.closed == [] then g else AfterFlush(AfterFree(g))
  }

  function AfterSweepStart(g: State): State {
    g.(passed := [], ahead := g.passed + g.ahead)
  }

  function AfterPassStart(g: State, c: Context): State
    requires c in g.lines
  {
    g.(lines := g.lines[c := Line([], g.lines[c].done + g.lines[c].todo)])
  }

  function AfterVisit(g: State, s: Socket): State
    requires IsLive(g, s)
  {
    var t := g.tunings[s];
    g.(tunings := g.tunings[s := t.(timeout := if t.timeout > 0 then t.timeout - 1 else 0)],
       log := g.log + [Visited(g.tags[s].id, g.places[s].stamp, t.timeout == 1)])
  }

  function AfterStep(g: State, c: Context): State
    requires c in g.lines && g.lines[c].todo != []
  {
    g.(lines := g.lines[c := g.lines[c].Step()])
  }

  function AfterPassEnd(g: State): State
    requires g.ahead != []
  {
    g.(passed := g.passed + [g.ahead[0]], ahead := g.ahead[1..])
  }
}
