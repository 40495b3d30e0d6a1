/**
 Runs of a loop whose callbacks are the handlers of the example HTTP server. The handlers are
 the only ones that send, so the streams of all clients are what the journal says they are.
 */
module HttpRuns {
  import opened Dispatch
  import opened Guarantees
  import opened Http
  import opened Interference
  import opened Journal
  import opened Kernel
  import opened Memory
  import opened PollWord
  import opened Retuning
  import opened State
  import opened Steps
  import opened Ticking
  import opened Turns
  import opened Wakeups

  // ---------- the server's callbacks ----------

  /** on_close gets control, and does nothing. */
  function Dropped(g: State, s: Socket): State
    requires IsLive(g, s)
  {
    AfterCall(Told(g, s), OnSocket)
  }

  /** on_end gets control. */
  function Ended(g: State, s: Socket): State
    requires IsLive(g, s)
  {
    AfterCall(AfterEnd(g, s), OnSocket)
  }

  /** on_data gets control: the whole response is written, and the idle timeout set. */
  ghost predicate DataServed(g: State, s: Socket, response: seq<bv8>, taken: int, h: State)
    requires IsLive(g, s)
  {
    Answers(AfterCall(AtRead(g, s, Data), OnSocket), s, |response|, taken, h)
  }

  /** What the server makes of a readable event: on_end shuts the socket down and closes it. */
  ghost predicate ReadServed(g: State, s: Socket, received: Received, response: seq<bv8>, taken: int, h: State)
    requires IsLive(g, s)
  {
    match received
    case Ignored => h == g
    case WouldBlock => h == g
    case Failure => h == Dropped(g, s)
    case Data => DataServed(g, s, response, taken, h)
    case Fin =>
      if g.tunings[s].kind == ShutdownKind then h == Dropped(g, s)
      else
        && IsLive(Ended(g, s), s) && IsLive(AfterShutdown(Ended(g, s), s), s)
        && h == Dropped(AfterShutdown(Ended(g, s), s), s)
  }

  /** on_writable gets control. */
  function Resumed(g: State, s: Socket): State
    requires IsLive(g, s)
  {
    AfterCall(AfterWritable(g, s), OnSocket)
  }

  /** The rest of the response is written. */
  function Continued(g: State, s: Socket, response: seq<bv8>, taken: int): State
    requires IsLive(g, s)
  {
    AfterWrite(g, s, |response| - Offset(g.log, g.tags[s].id), taken)
  }

  /** What the server makes of a writable event. */
  ghost predicate WriteServed(g: State, s: Socket, response: seq<bv8>, taken: int, h: State)
    requires IsLive(g, s)
  {
    var told := Resumed(g, s);
    && IsLive(told, s) && Offset(told.log, g.tags[s].id) <= |response|
    && -1 <= taken <= |response| - Offset(told.log, g.tags[s].id)
    && var mid := Continued(told, s, response, taken);
       IsLive(mid, s) && h == Settled(mid, s)
  }

  /** One event on an open client's socket: an entry of the batch reports one side, or an error. */
  ghost predicate Served(g: State, s: Socket, error: bool, side: Side, got: Got, response: seq<bv8>,
                         taken: int, h: State) {
    && Ready(g, s, if error then NONE else EventsOf(side))
    && if error then h == Dropped(g, s)
       else if side == WriteSide then WriteServed(g, s, response, taken, h)
       else ReadServed(g, s, Meaning(got), response, taken, h)
  }

  // ---------- they are callbacks of the loop ----------

  lemma ReadServedReads(g: State, s: Socket, received: Received, response: seq<bv8>, taken: int, h: State)
    requires Inv(g) && Ready(g, s, NONE) && ReadServed(g, s, received, response, taken, h)
    ensures Reads(g, s, received, h)
  {
    hide Inv, Gives, Told, AfterEnd, AfterShutdown, AfterWrite, AfterTimeout, Dropped, Ended, DataServed;
    match received
    case Ignored =>
    case WouldBlock =>
    case Failure =>
      DroppedGives(g, s);
    case Data =>
      DataGives(g, s, response, taken, h);
    case Fin =>
      ProperKinds(g, s);
      if g.tunings[s].kind == ShutdownKind {
        DroppedGives(g, s);
      } else {
        EndGives(g, s);
      }
  }

  lemma DroppedGives(g: State, s: Socket)
    requires Inv(g) && IsLive(g, s) && g.places[s].open
    ensures Gives(Told(g, s), OnSocket, Dropped(g, s)) && Rely(g, Dropped(g, s)) && Control(g, Dropped(g, s))
  {
    hide Inv, Rely, Control, Told, AfterCall;
    Callbacks.NotifiedKeeps(g, s);
    CallStep(Told(g, s), OnSocket);
    ControlReflexive(Dropped(g, s));
    RelyTransitive(g, Told(g, s), Dropped(g, s));
  }

  lemma DataGives(g: State, s: Socket, response: seq<bv8>, taken: int, h: State)
    requires Inv(g) && Ready(g, s, NONE) && DataServed(g, s, response, taken, h)
    ensures Gives(AtRead(g, s, Data), OnSocket, h)
  {
    hide Inv, Rely, Control, AfterCall, AfterWrite, AfterTimeout;
    DataKeeps(g, s);
    var a := AtRead(g, s, Data);
    CallStep(a, OnSocket);
    AnswersRelies(AfterCall(a, OnSocket), s, |response|, taken, h);
    RelyTransitive(a, AfterCall(a, OnSocket), h);
  }

  lemma EndGives(g: State, s: Socket)
    requires Inv(g) && Ready(g, s, NONE) && g.tunings[s].kind == SocketKind
    requires IsLive(Ended(g, s), s) && IsLive(AfterShutdown(Ended(g, s), s), s)
    ensures Gives(AfterEnd(g, s), OnSocket, Dropped(AfterShutdown(Ended(g, s), s), s))
  {
    hide Inv, Rely, Control, Told, AfterCall, AfterEnd, AfterShutdown, Dropped;
    EndKeeps(g, s);
    EndedOpen(g, s);
    var a, b := AfterEnd(g, s), Ended(g, s);
    CallStep(a, OnSocket);
    var c := AfterShutdown(b, s);
    ShutdownStep(b, s);
    ShutdownOpen(b, s);
    DroppedGives(c, s);
    RelyTransitive(b, c, Dropped(c, s));
    RelyTransitive(a, b, Dropped(c, s));
    ControlTransitive(b, c, Dropped(c, s));
  }

  lemma ProperKinds(g: State, s: Socket)
    requires Inv(g) && Ready(g, s, NONE)
    ensures g.tunings[s].kind == SocketKind || g.tunings[s].kind == ShutdownKind
  {
    hide ListsInv, PollInv, LifeInv, MaskInv;
    TunedAt(g, s);
  }

  lemma EndedOpen(g: State, s: Socket)
    requires IsLive(g, s) && g.places[s].open
    ensures var h := Ended(g, s);
            && IsLive(h, s) && h.places[s].open && h.tags == g.tags
            && h.log == g.log + [GotEnd(g.tags[s].id)]
  {
    hide KqueueChange;
  }

  lemma ShutdownOpen(g: State, s: Socket)
    requires IsLive(g, s) && g.places[s].open
    ensures var h := AfterShutdown(g, s);
            && IsLive(h, s) && h.places[s].open && h.tags == g.tags
            && h.log == if g.tunings[s].kind == ShutdownKind then g.log else g.log + [Shut(g.tags[s].id)]
  {
    hide KqueueChange;
  }

  lemma AnswersRelies(g: State, s: Socket, length: nat, taken: int, h: State)
    requires Inv(g) && Answers(g, s, length, taken, h)
    ensures Inv(h) && Rely(g, h) && Control(g, h)
  {
    hide Inv, Rely, Control, AfterWrite, AfterTimeout;
    var mid := AfterWrite(g, s, length, taken);
    WriteStep(g, s, length, taken);
    TimeoutStep(mid, s, 8);
    RelyTransitive(g, mid, h);
    ControlTransitive(g, mid, h);
  }

  /** An event served by the server is the handling of its entry by the loop. */
  lemma ServedIsHandling(g: State, s: Socket, error: bool, side: Side, got: Got, response: seq<bv8>,
                         taken: int, h: State) returns (service: Service)
    requires Inv(g) && Served(g, s, error, side, got, response, taken, h)
    ensures Handles(g, Entry(ToSocket(s), side, error), Serving(service), [], h)
  {
    hide Inv, Gives, Told, ReadServed, WriteServed, Reads, Writes, Dropped;
    service := Service(g, s, g, got);
    if error {
      DroppedGives(g, s);
    } else if side == WriteSide {
      service := WriteServedWrites(g, s, response, taken, h);
    } else {
      ReadServedReads(g, s, Meaning(got), response, taken, h);
    }
  }

  lemma WriteServedWrites(g: State, s: Socket, response: seq<bv8>, taken: int, h: State) returns (service: Service)
    requires Inv(g) && Ready(g, s, WRITABLE) && WriteServed(g, s, response, taken, h)
    ensures Writes(g, s, service) && service.written == h && IsLive(h, service.back)
  {
    hide Inv, Rely, Control, AfterCall, AfterWritable, AfterWrite, Settled, Offset;
    MayServe(g, s);
    var told := Resumed(g, s);
    var asked := |response| - Offset(told.log, told.tags[s].id);
    var mid := Continued(told, s, response, taken);
    service := Service(mid, s, h, NOTHING_GOT);
    WriteStep(told, s, asked, taken);
    StillLive(told, s, asked, taken);
    RelyTransitive(AfterWritable(g, s), told, mid);
    ItServes(mid, s);
  }

  lemma MayServe(g: State, s: Socket)
    requires Inv(g) && Ready(g, s, WRITABLE)
    ensures Inv(AfterWritable(g, s)) && Rely(AfterWritable(g, s), Resumed(g, s)) && Inv(Resumed(g, s))
    ensures IsLive(Resumed(g, s), s) && Resumed(g, s).tags == g.tags
    ensures Called(Resumed(g, s), s, GotWritable(g.tags[s].id)) && Before(Resumed(g, s).log) == g.log
  {
    hide Inv, Rely;
    WritableKeeps(g, s);
    CallStep(AfterWritable(g, s), OnSocket);
  }

  lemma ItServes(g: State, s: Socket)
    requires IsLive(g, s)
    ensures IsLive(Settled(g, s), s)
  {
    hide KqueueChange;
  }

  // ---------- every stream is handled ----------

  /** No client's handler is waiting to write, and only handlers have written. */
  ghost predicate AllHandled(log: seq<Event>, length: nat) {
    forall id :: Handled(log, id, length) && !Awaits(log, id)
  }

  /** Events other than sending, and being about to. */
  predicate Idles(e: Event) {
    !e.Sent? && !e.GotData? && !e.GotWritable?
  }

  lemma IdleStays(log: seq<Event>, e: Event, response: seq<bv8>)
    requires AllHandled(log, |response|) && Idles(e)
    ensures AllHandled(log + [e], |response|)
  {
    hide Handled, Awaits;
    forall id
      ensures Handled(log + [e], id, |response|) && !Awaits(log + [e], id)
    {
      StreamGrows(log, e, id, response);
    }
  }

  /** `after` continues `before` by nothing but such events. */
  ghost predicate Idly(before: seq<Event>, after: seq<Event>) {
    before <= after && forall i | |before| <= i < |after| :: Idles(after[i])
  }

  lemma {:induction false} IdlyGrown(before: seq<Event>, after: seq<Event>, response: seq<bv8>)
    requires AllHandled(before, |response|) && Idly(before, after)
    ensures AllHandled(after, |response|)
    decreases |after|
  {
    hide AllHandled;
    if |before| == |after| {
      assert before == after;
    } else {
      var n := |after| - 1;
      IdlyGrown(before, after[..n], response);
      IdleStays(after[..n], after[n], response);
      assert after == after[..n] + [after[n]];
    }
  }

  /** For other identities, events of this one do not matter. */
  lemma OthersHandled(log: seq<Event>, e: Event, other: nat, response: seq<bv8>)
    requires Handled(log, other, |response|) && !Awaits(log, other) && e.id != other
    ensures Handled(log + [e], other, |response|) && !Awaits(log + [e], other)
  {
    StreamGrows(log, e, other, response);
  }

  /** The handler that `e` notes the call of writes all that is left, once. */
  lemma RestHandled(g: State, s: Socket, e: Event, response: seq<bv8>, taken: int, h: State)
    requires Inv(g) && Called(g, s, e) && (e.GotData? || e.GotWritable?) && AllHandled(Before(g.log), |response|)
    requires Offset(g.log, e.id) <= |response| && -1 <= taken <= |response| - Offset(g.log, e.id)
    requires h == AfterWrite(g, s, |response| - Offset(g.log, e.id), taken)
    ensures AllHandled(h.log, |response|)
  {
    hide Inv, AfterWrite, Handled, Awaits, Offset, TakenBytes, TrackOf;
    var asked := |response| - Offset(g.log, e.id);
    StillLive(g, s, asked, taken);
    HandlerCalled(g.log, e, e.id, response);
    var took: seq<bv8> :=
      if g.tunings[s].kind == ShutdownKind then [] else response[Offset(g.log, e.id)..][..Taken(taken)];
    RestWritten(g, s, e, response, taken, took, h);
    assert g.log == Before(g.log) + [e];
    forall other
      ensures Handled(h.log, other, |response|) && !Awaits(h.log, other)
    {
      if other != e.id {
        OthersHandled(Before(g.log), e, other, response);
        if g.tunings[s].kind != ShutdownKind {
          OthersHandled(g.log, Sent(e.id, asked, taken), other, response);
        }
      }
    }
  }

  lemma DroppedIdles(g: State, s: Socket, response: seq<bv8>)
    requires IsLive(g, s) && AllHandled(g.log, |response|)
    ensures AllHandled(Dropped(g, s).log, |response|)
  {
    hide AllHandled, Hangup;
    var id := g.tags[s].id;
    IdleStays(g.log, Closed(id), response);
    IdleStays(g.log + [Closed(id)], Notified(id), response);
  }

  lemma SettledIdles(g: State, s: Socket, response: seq<bv8>)
    requires IsLive(g, s) && AllHandled(g.log, |response|)
    ensures AllHandled(Settled(g, s).log, |response|)
  {
    hide AllHandled, KqueueChange;
    IdleStays(g.log, Drained(g.tags[s].id), response);
  }

  lemma DataHandled(g: State, s: Socket, response: seq<bv8>, taken: int, h: State)
    requires Inv(g) && Ready(g, s, NONE) && AllHandled(g.log, |response|)
    requires DataServed(g, s, response, taken, h)
    ensures AllHandled(h.log, |response|)
  {
    hide Inv, Rely, AllHandled, AfterWrite, Offset;
    DataKeeps(g, s);
    CallStep(AtRead(g, s, Data), OnSocket);
    var a := AfterCall(AtRead(g, s, Data), OnSocket);
    assert Before(a.log) == g.log;
    RequestFromStart(a.log, g.tags[s].id);
    RestHandled(a, s, GotData(g.tags[s].id), response, taken, AfterWrite(a, s, |response|, taken));
    IdleStays(AfterWrite(a, s, |response|, taken).log, Armed(g.tags[s].id, 8), response);
    StillLive(a, s, |response|, taken);
  }

  lemma RequestFromStart(log: seq<Event>, id: nat)
    requires log != [] && log[|log| - 1] == GotData(id)
    ensures Offset(log, id) == 0
  {
  }

  /** One event on any client leaves the streams of all clients handled. */
  lemma ServedIsHandled(g: State, s: Socket, error: bool, side: Side, got: Got, response: seq<bv8>,
                        taken: int, h: State)
    requires Inv(g) && Served(g, s, error, side, got, response, taken, h) && AllHandled(g.log, |response|)
    ensures AllHandled(h.log, |response|)
  {
    hide Inv, AllHandled, Dropped, Resumed, AfterWrite, Settled, DataServed, Ended, AfterShutdown, Offset, Called;
    if error {
      DroppedIdles(g, s, response);
    } else if side == WriteSide {
      MayServe(g, s);
      var mid := Continued(Resumed(g, s), s, response, taken);
      RestHandled(Resumed(g, s), s, GotWritable(g.tags[s].id), response, taken, mid);
      SettledIdles(mid, s, response);
    } else {
      match Meaning(got)
      case Ignored =>
      case WouldBlock =>
      case Failure =>
        DroppedIdles(g, s, response);
      case Data =>
        DataHandled(g, s, response, taken, h);
      case Fin =>
        if g.tunings[s].kind == ShutdownKind {
          DroppedIdles(g, s, response);
        } else {
          EndHandled(g, s, response);
        }
    }
  }

  lemma EndHandled(g: State, s: Socket, response: seq<bv8>)
    requires IsLive(g, s) && g.places[s].open && AllHandled(g.log, |response|)
    ensures var ended := Ended(g, s);
            && IsLive(ended, s) && IsLive(AfterShutdown(ended, s), s)
            && AllHandled(Dropped(AfterShutdown(ended, s), s).log, |response|)
  {
    hide AllHandled, Ended, AfterShutdown, Dropped;
    var id, ended := g.tags[s].id, Ended(g, s);
    EndedOpen(g, s);
    IdleStays(g.log, GotEnd(id), response);
    ShutdownOpen(ended, s);
    IdleStays(ended.log, Shut(id), response);
    DroppedIdles(AfterShutdown(ended, s), s, response);
  }

  // ---------- runs ----------

  /** The step dispatches a proper socket. */
  predicate IsService(s: Step) {
    && s.before.pending != [] && s.before.pending[0].target.ToSocket?
    && var e, x := s.before.pending[0], s.before.pending[0].target.socket;
       IsLive(s.before, x) && s.before.tunings[x].kind != SemiKind &&
       (e.error || EventsOf(e.side).And(s.before.tunings[x].interest) != NONE)
  }

  /**
   A step of the server: proper sockets are served by its handlers, and otherwise nothing is
   sent, and no handler called that sends.
   */
  ghost predicate ServerStep(s: Step, response: seq<bv8>) {
    if IsService(s) then
      var e := s.before.pending[0];
      exists got, taken ::
        Served(s.before, e.target.socket, e.error, e.side, got, response, taken, s.after)
    else Idly(s.before.log, s.after.log)
  }

  ghost predicate ServerSteps(steps: seq<Step>, response: seq<bv8>) {
    forall i | 0 <= i < |steps| :: ServerStep(steps[i], response)
  }

  /** A round of the server: its pre and post callbacks do nothing that matters here. */
  ghost predicate ServerRound(r: Round, response: seq<bv8>) {
    Idly(r.before.log, r.quiet.log) && ServerSteps(r.steps, response) &&
    Freeable(r.worked) && Idly(AfterFlush(r.worked).log, r.after.log)
  }

  ghost predicate ServerRounds(rounds: seq<Round>, response: seq<bv8>) {
    forall i | 0 <= i < |rounds| :: ServerRound(rounds[i], response)
  }

  lemma StepHandled(s: Step, response: seq<bv8>)
    requires Inv(s.before) && ServerStep(s, response) && AllHandled(s.before.log, |response|)
    ensures AllHandled(s.after.log, |response|)
  {
    hide Inv, Served, AllHandled, Idly;
    if IsService(s) {
      var e := s.before.pending[0];
      var got, taken :| Served(s.before, e.target.socket, e.error, e.side, got, response, taken, s.after);
      ServedIsHandled(s.before, e.target.socket, e.error, e.side, got, response, taken, s.after);
    } else {
      IdlyGrown(s.before.log, s.after.log, response);
    }
  }

  /** At every entry that the loop comes to. */
  lemma {:induction false} WorksHandled(g: State, steps: seq<Step>, h: State, response: seq<bv8>)
    requires Works(g, steps, h) && ServerSteps(steps, response) && AllHandled(g.log, |response|)
    ensures AllHandled(h.log, |response|)
    decreases |steps|
  {
    hide Inv, Handles, ServerStep, AllHandled;
    if steps != [] {
      var n := |steps| - 1;
      assert forall i | 0 <= i < n :: steps[..n][i] == steps[i];
      WorksHandled(g, steps[..n], steps[n].before, response);
      StepHandled(steps[n], response);
    }
  }

  lemma {:induction false} FlushHandled(g: State, response: seq<bv8>)
    requires Freeable(g) && AllHandled(g.log, |response|)
    ensures AllHandled(AfterFlush(g).log, |response|)
    decreases |g.closed|
  {
    hide AllHandled;
    if g.closed != [] {
      IdleStays(g.log, Freed(g.tags[g.closed[0]].id), response);
      FreeQuiet(g);
      FlushHandled(AfterFree(g), response);
    }
  }

  lemma RoundHandled(r: Round, response: seq<bv8>)
    requires RoundOver(r) && ServerRound(r, response) && AllHandled(r.before.log, |response|)
    ensures AllHandled(r.after.log, |response|)
  {
    hide Gives, AtMostTwice, Works, Freeable, AfterFlush, AllHandled, Idly, ServerSteps;
    IdlyGrown(r.before.log, r.quiet.log, response);
    WorksHandled(Waited(r.quiet, r.batch, r.queues), r.steps, r.worked, response);
    FlushHandled(r.worked, response);
    IdlyGrown(AfterFlush(r.worked).log, r.after.log, response);
  }

  /** At the end of every round. */
  lemma {:induction false} RunsHandled(g: State, rounds: seq<Round>, h: State, response: seq<bv8>)
    requires Runs(g, rounds, h) && ServerRounds(rounds, response) && AllHandled(g.log, |response|)
    ensures AllHandled(h.log, |response|)
    decreases |rounds|
  {
    hide RoundOver, ServerRound, AllHandled;
    if rounds != [] {
      var n := |rounds| - 1;
      assert forall i | 0 <= i < n :: rounds[..n][i] == rounds[i];
      RunsHandled(g, rounds[..n], rounds[n].before, response);
      RoundHandled(rounds[n], response);
    }
  }

  lemma NothingYet(length: nat)
    ensures AllHandled([], length)
  {
  }

  /**
   A run of the server, after a set-up that sends nothing, up to any entry of any batch. For
   every client: what the kernel took since the last request is the first `Offset` bytes of
   the response; and if that is not all of it, and the client is open and not shut down, then
   the loop will hear when it is writable, always with uncrossed bits, and otherwise exactly
   in these cases.
   */
  lemma ServerStreams(start: State, rounds: seq<Round>, g: State, quiet: State, batch: seq<Entry>, queues: Queues,
                      steps: seq<Step>, h: State, response: seq<bv8>, s: Socket)
    requires Idly([], start.log) && Runs(start, rounds, g) && ServerRounds(rounds, response)
    requires Idly(g.log, quiet.log)
    requires Works(Waited(quiet, batch, queues), steps, h) && ServerSteps(steps, response)
    requires Inv(h) && IsLive(h, s)
    ensures var id := h.tags[s].id;
            && Offset(h.log, id) <= |response|
            && TakenBytes(h.log, id, response) == response[..Offset(h.log, id)]
            && (h.places[s].open && h.tunings[s].kind == SocketKind && Requested(h.log, id) &&
                Offset(h.log, id) < |response| ==>
                  (HearsWritable(h, s) <==> h.mapping == AsIntended || (Short(h.log, id) && !Deaf(h.log, id))))
  {
    hide ListsInv, PollInv, LifeInv, MaskInv, Handled, Awaits, HearsWritable, Requested, Offset, TakenBytes;
    hide Short, Deaf, Idly, Runs, ServerRounds, Works, ServerSteps;
    var id := h.tags[s].id;
    NothingYet(|response|);
    IdlyGrown([], start.log, response);
    RunsHandled(start, rounds, g, response);
    IdlyGrown(g.log, quiet.log, response);
    WorksHandled(Waited(quiet, batch, queues), steps, h, response);
    InvParts(h);
    LawfulNow(h);
    StreamHolds(h.mapping, h.log, id, response);
    if h.places[s].open && h.tunings[s].kind == SocketKind && Requested(h.log, id) && Offset(h.log, id) < |response| {
      UnfinishedIsHeard(h, s, response);
    }
  }
}
