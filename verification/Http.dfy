/**
 The example HTTP server: one response, streamed to each client by its write handlers. The
 first part reads the progress of a stream off the journal of any run; the second part is
 the handlers, which keep the offset that the journal says they should have.
 */
module Http {
  import opened Dispatch
  import opened EventLoop
  import opened Guarantees
  import opened Interference
  import opened Journal
  import opened Kernel
  import opened Memory
  import opened PollWord
  import opened Retuning
  import opened State
  import opened Steps
  import opened Timeouts
  import opened Wakeups

  // ---------- streams in the journal ----------

  function Taken(taken: int): nat {
    if taken < 0 then 0 else taken
  }

  /** How far into the response the socket is: a request starts it over. */
  function Offset(log: seq<Event>, id: nat): nat {
    if log == [] then 0
    else
      var front, e := log[..|log| - 1], log[|log| - 1];
      if e.id != id then Offset(front, id)
      else if e.Opened? || e.GotData? then 0
      else if e.Sent? then Offset(front, id) + Taken(e.taken)
      else Offset(front, id)
  }

  /** The bytes that the kernel took since the last request. */
  function TakenBytes(log: seq<Event>, id: nat, response: seq<bv8>): seq<bv8> {
    if log == [] then []
    else
      var front, e := log[..|log| - 1], log[|log| - 1];
      if e.id != id then TakenBytes(front, id, response)
      else if e.Opened? || e.GotData? then []
      else if e.Sent? then TakenBytes(front, id, response) + Piece(response, Offset(front, id), Taken(e.taken))
      else TakenBytes(front, id, response)
  }

  /** `count` bytes from `offset` on, as far as there are any. */
  function Piece(response: seq<bv8>, offset: nat, count: nat): seq<bv8> {
    if offset + count <= |response| then response[offset..offset + count] else []
  }

  /** Whether the socket ever had a request. */
  predicate Requested(log: seq<Event>, id: nat) {
    log != [] && (log[|log| - 1] == GotData(id) || Requested(log[..|log| - 1], id))
  }

  /** One of the two handlers that write has been called and has not written yet. */
  predicate Awaits(log: seq<Event>, id: nat) {
    log != [] &&
    var e := log[|log| - 1];
    e.id == id && (e.GotData? || e.GotWritable?) && TrackOf(log, id).phase == Live
  }

  /**
   Only the two handlers send on the socket: each sends once, first thing, and offers all
   that is left of the response.
   */
  predicate Handled(log: seq<Event>, id: nat, length: nat) {
    log == [] ||
    var front, e := log[..|log| - 1], log[|log| - 1];
    && Handled(front, id, length)
    && (e.Sent? && e.id == id <==> Awaits(front, id))
    && (Awaits(front, id) ==> e.asked == length - Offset(front, id) && -1 <= e.taken <= e.asked)
  }

  /** What holds at every point of a stream. */
  ghost predicate Streams(log: seq<Event>, id: nat, response: seq<bv8>) {
    var t := TrackOf(log, id);
    && Offset(log, id) <= |response|
    && TakenBytes(log, id, response) == response[..Offset(log, id)]
    && (t.phase == Live && !Awaits(log, id) && Requested(log, id) && Offset(log, id) < |response| ==> t.owes)
    && (LastTold(log, id) || Requested(log, id) ==> Rank(t.phase) >= 2)
    && (t.phase == Live && !Awaits(log, id) && LastTold(log, id) && !Failing(log) ==> Offset(log, id) == |response|)
  }

  lemma StreamStep(mapping: Mapping, log: seq<Event>, e: Event, id: nat, response: seq<bv8>)
    requires Allowed(mapping, log, e) && Streams(log, id, response)
    requires e.Sent? && e.id == id <==> Awaits(log, id)
    requires Awaits(log, id) ==> e.asked == |response| - Offset(log, id) && -1 <= e.taken <= e.asked
    ensures Streams(log + [e], id, response)
  {
    Append(mapping, log, e);
    assert (log + [e])[..|log|] == log;
    var n := Offset(log, id);
    if e.Sent? && e.id == id {
      var m := Taken(e.taken);
      assert response[..n] + response[n..n + m] == response[..n + m];
    }
  }

  /**
   Over any run and any mix of full, short and failed sends: what the kernel took since the
   last request is the first `Offset` bytes of the response, and an open stream that is not
   finished is owed a writable event.
   */
  lemma {:induction false} StreamHolds(mapping: Mapping, log: seq<Event>, id: nat, response: seq<bv8>)
    requires Lawful(mapping, log) && Handled(log, id, |response|)
    ensures Streams(log, id, response)
  {
    if log != [] {
      var n := |log| - 1;
      StreamHolds(mapping, log[..n], id, response);
      StreamStep(mapping, log[..n], log[n], id, response);
      assert log == log[..n] + [log[n]];
    }
  }

  /**
   An open stream that is not finished will be continued: the loop hears when the socket is
   writable, always with uncrossed bits, and otherwise exactly in these cases.
   */
  lemma UnfinishedIsHeard(g: State, s: Socket, response: seq<bv8>)
    requires Inv(g) && IsLive(g, s) && g.places[s].open && g.tunings[s].kind == SocketKind
    requires Handled(g.log, g.tags[s].id, |response|) && !Awaits(g.log, g.tags[s].id)
    requires Requested(g.log, g.tags[s].id) && Offset(g.log, g.tags[s].id) < |response|
    ensures HearsWritable(g, s) <==>
            g.mapping == AsIntended || (Short(g.log, g.tags[s].id) && !Deaf(g.log, g.tags[s].id))
  {
    hide ListsInv, PollInv, LifeInv, MaskInv, TrackOf, Handled, Awaits, Requested, Offset, HearsWritable, Short, Deaf;
    InvParts(g);
    FitsAt(g, s);
    LawfulNow(g);
    StreamHolds(g.mapping, g.log, g.tags[s].id, response);
    OwingIsHeard(g, s);
  }

  // ---------- one more event ----------

  lemma StreamGrows(log: seq<Event>, e: Event, id: nat, response: seq<bv8>)
    ensures var after, n := log + [e], Offset(log, id);
            && Offset(after, id) == (if e.id != id then n
                                     else if e.Opened? || e.GotData? then 0
                                     else if e.Sent? then n + Taken(e.taken)
                                     else n)
            && TakenBytes(after, id, response) == (if e.id != id then TakenBytes(log, id, response)
                                                 else if e.Opened? || e.GotData? then []
                                                 else if e.Sent? then TakenBytes(log, id, response)
                                                     + Piece(response, n, Taken(e.taken))
                                                 else TakenBytes(log, id, response))
            && (Handled(after, id, |response|) <==>
                  && Handled(log, id, |response|)
                  && (e.Sent? && e.id == id <==> Awaits(log, id))
                  && (Awaits(log, id) ==> e.asked == |response| - n && -1 <= e.taken <= e.asked))
            && (Awaits(after, id) ==> e.id == id && (e.GotData? || e.GotWritable?))
  {
    assert (log + [e])[..|log|] == log;
  }

  /** Events of this socket that bear on its stream. */
  predicate IsStreaming(e: Event) {
    e.Opened? || e.GotData? || e.GotWritable? || e.Sent?
  }

  /** Whatever else happens in the loop leaves the stream where it is. */
  lemma {:induction false} StreamStays(before: seq<Event>, after: seq<Event>, id: nat, response: seq<bv8>)
    requires before <= after && Handled(before, id, |response|) && !Awaits(before, id)
    requires forall i | |before| <= i < |after| && after[i].id == id :: !IsStreaming(after[i])
    ensures Handled(after, id, |response|) && !Awaits(after, id)
    ensures Offset(after, id) == Offset(before, id)
    ensures TakenBytes(after, id, response) == TakenBytes(before, id, response)
    decreases |after|
  {
    if |before| == |after| {
      assert before == after;
    } else {
      var n := |after| - 1;
      StreamStays(before, after[..n], id, response);
      StreamGrows(after[..n], after[n], id, response);
      assert after == after[..n] + [after[n]];
    }
  }

  // ---------- the handlers ----------

  const IDLE_SECONDS := 30

  /** The part of a client's state that lives in its extension area. */
  class Client {
    const response: seq<bv8>
    var offset: nat
    // The bytes that the kernel took since the last request.
    ghost var accepted: seq<bv8>

    constructor (response: seq<bv8>)
      ensures this.response == response
    {
      this.response := response;
    }

    /** This is what the journal says of the stream to `s`. */
    ghost predicate Follows(log: seq<Event>, id: nat)
      reads this
    {
      && Handled(log, id, |response|) && !Awaits(log, id)
      && offset == Offset(log, id) <= |response|
      && accepted == TakenBytes(log, id, response) == response[..offset]
    }
  }

  /** A write of `data` on `s`, of which the kernel took `took`; `taken` is what `send` returned. */
  ghost predicate Wrote(g: State, s: Socket, data: seq<bv8>, taken: int, took: seq<bv8>, h: State) {
    && IsLive(g, s) && IsLive(h, s) && -1 <= taken <= |data| && h == AfterWrite(g, s, |data|, taken)
    && took == if g.tunings[s].kind == ShutdownKind then [] else data[..Taken(taken)]
  }

  /** `asock_socket_write` on some bytes. */
  method WriteBytes(loop: Loop, s: Socket, data: seq<bv8>)
    returns (written: nat, ghost taken: int, ghost took: seq<bv8>)
    requires loop.Good() && s in loop.sockets && Ready(loop.g, s, NONE)
    modifies s`word, loop`kq, loop`lastWriteFailed, loop`g
    ensures loop.Good() && Rely(old(loop.g), loop.g) && Control(old(loop.g), loop.g)
    ensures written == |took| && Wrote(old(loop.g), s, data, taken, took, loop.g)
  {
    hide Loop.Good, Inv, Rely, Control, PollType, PollEvents, AfterWrite;
    Here(loop, s);
    written, taken := loop.Write(s, |data|);
    took := data[..written];
    WriteStep(old(loop.g), s, |data|, taken);
    StillLive(old(loop.g), s, |data|, taken);
  }

  lemma StillLive(g: State, s: Socket, asked: int, taken: int)
    requires IsLive(g, s)
    ensures var h := AfterWrite(g, s, asked, taken);
            && IsLive(h, s) && h.tags == g.tags && h.mapping == g.mapping
            && h.log == if !g.places[s].open || g.tunings[s].kind == ShutdownKind then g.log
                        else g.log + [Sent(g.tags[s].id, asked, taken)]
  {
    hide KqueueChange;
  }

  /** A handler has just been called, which `e` notes. */
  ghost predicate Called(g: State, s: Socket, e: Event) {
    Ready(g, s, NONE) && g.log != [] && g.log[|g.log| - 1] == e && e.id == g.tags[s].id
  }

  /** A handler that has to write is one of a socket that is not shut down. */
  lemma CalledAwaits(g: State, s: Socket, e: Event)
    requires Inv(g) && Called(g, s, e) && (e.GotData? || e.GotWritable?)
    ensures Awaits(g.log, e.id) <==> g.tunings[s].kind != ShutdownKind
    ensures Lawful(g.mapping, g.log)
  {
    hide ListsInv, PollInv, LifeInv, MaskInv, TrackOf;
    InvParts(g);
    FitsAt(g, s);
    LawfulNow(g);
  }

  /** The rest of the response is written, once, by the handler that `e` notes the call of. */
  lemma RestWritten(g: State, s: Socket, e: Event, response: seq<bv8>, taken: int, took: seq<bv8>, h: State)
    requires Inv(g) && Called(g, s, e) && (e.GotData? || e.GotWritable?) && Handled(g.log, e.id, |response|)
    requires Offset(g.log, e.id) <= |response| && Wrote(g, s, response[Offset(g.log, e.id)..], taken, took, h)
    ensures Handled(h.log, e.id, |response|) && !Awaits(h.log, e.id)
    ensures Offset(h.log, e.id) == Offset(g.log, e.id) + |took|
    ensures TakenBytes(h.log, e.id, response) == TakenBytes(g.log, e.id, response) + took
  {
    hide Inv, AfterWrite, Offset, TakenBytes, Handled, Awaits, TrackOf, Piece;
    var n := Offset(g.log, e.id);
    CalledAwaits(g, s, e);
    StillLive(g, s, |response| - n, taken);
    if g.tunings[s].kind != ShutdownKind {
      StreamGrows(g.log, Sent(e.id, |response| - n, taken), e.id, response);
      PieceOfRest(response, n, Taken(taken));
    } else {
      assert h.log == g.log;
    }
  }

  lemma PieceOfRest(response: seq<bv8>, offset: nat, count: nat)
    requires offset + count <= |response|
    ensures response[offset..][..count] == Piece(response, offset, count) && |Piece(response, offset, count)| == count
  {
  }

  /** The journal without its last event. */
  function Before(log: seq<Event>): seq<Event> {
    if log == [] then [] else log[..|log| - 1]
  }

  /** The client followed the stream until the handler was called. */
  lemma HandlerCalled(log: seq<Event>, e: Event, id: nat, response: seq<bv8>)
    requires log != [] && log[|log| - 1] == e && e.id == id && (e.Opened? || e.GotData? || e.GotWritable?)
    requires Handled(Before(log), id, |response|) && !Awaits(Before(log), id)
    ensures Handled(log, id, |response|)
    ensures Offset(log, id) == if e.GotWritable? then Offset(Before(log), id) else 0
    ensures TakenBytes(log, id, response) == if e.GotWritable? then TakenBytes(Before(log), id, response) else []
  {
    assert log == Before(log) + [e];
    StreamGrows(Before(log), e, id, response);
  }

  /** A timeout is set, which does not bear on the stream. */
  lemma ArmingStays(g: State, s: Socket, sweeps: nat, response: seq<bv8>)
    requires IsLive(g, s) && Handled(g.log, g.tags[s].id, |response|) && !Awaits(g.log, g.tags[s].id)
    ensures var h, id := AfterTimeout(g, s, sweeps), g.tags[s].id;
            && Handled(h.log, id, |response|) && !Awaits(h.log, id) && Offset(h.log, id) == Offset(g.log, id)
            && TakenBytes(h.log, id, response) == TakenBytes(g.log, id, response)
  {
    StreamGrows(g.log, Armed(g.tags[s].id, sweeps), g.tags[s].id, response);
  }

  /** What on_data does to the loop: one write of the whole response, and an idle timeout. */
  ghost predicate Answers(g: State, s: Socket, length: nat, taken: int, h: State) {
    && IsLive(g, s) && -1 <= taken <= length && IsLive(AfterWrite(g, s, length, taken), s)
    && h == AfterTimeout(AfterWrite(g, s, length, taken), s, 8)
  }

  /** In a good loop, a stream that follows the journal sends the response in order. */
  lemma StreamNow(loop: Loop, id: nat, response: seq<bv8>)
    requires loop.Good() && Handled(loop.g.log, id, |response|)
    ensures Offset(loop.g.log, id) <= |response|
    ensures TakenBytes(loop.g.log, id, response) == response[..Offset(loop.g.log, id)]
  {
    hide ListsInv, PollInv, LifeInv, MaskInv, Loop.Repr, TakenBytes, Offset, Handled;
    InvParts(loop.g);
    LawfulNow(loop.g);
    StreamHolds(loop.g.mapping, loop.g.log, id, response);
  }

  /** on_open: nothing is sent yet. */
  method OnOpen(loop: Loop, s: Socket, client: Client)
    requires loop.Good() && s in loop.sockets && Called(loop.g, s, Opened(s.ext))
    requires Handled(Before(loop.g.log), s.ext, |client.response|) && !Awaits(Before(loop.g.log), s.ext)
    modifies client, s`timeout, loop`g
    ensures loop.Good() && Rely(old(loop.g), loop.g) && Control(old(loop.g), loop.g)
    ensures IsLive(old(loop.g), s) && loop.g == AfterTimeout(old(loop.g), s, 8)
    ensures client.Follows(loop.g.log, s.ext) && client.offset == 0
  {
    hide Loop.Good, Inv, Rely, Control, AfterTimeout, Offset, TakenBytes, Handled, Awaits;
    Here(loop, s);
    ghost var g0, id := loop.g, s.ext;
    HandlerCalled(g0.log, Opened(id), id, client.response);
    client.offset, client.accepted := 0, [];
    NotAwaited(g0.log, Opened(id), id);
    ThirtySeconds();
    var sweeps := loop.Timeout(s, IDLE_SECONDS);
    TimeoutStep(g0, s, sweeps);
    ArmingStays(g0, s, sweeps, client.response);
  }

  lemma NotAwaited(log: seq<Event>, e: Event, id: nat)
    requires log != [] && log[|log| - 1] == e && e.Opened?
    ensures !Awaits(log, id)
  {
  }

  /** The write of on_data. */
  method Respond(loop: Loop, s: Socket, client: Client) returns (ghost taken: int, ghost took: seq<bv8>)
    requires loop.Good() && s in loop.sockets && Called(loop.g, s, GotData(s.ext))
    requires client.Follows(Before(loop.g.log), s.ext)
    modifies client, s`word, loop`kq, loop`lastWriteFailed, loop`g
    ensures loop.Good() && Rely(old(loop.g), loop.g) && Control(old(loop.g), loop.g)
    ensures Wrote(old(loop.g), s, client.response, taken, took, loop.g) && client.Follows(loop.g.log, s.ext)
  {
    hide Loop.Good, Inv, Rely, Control, Wrote, IsLive, Offset, TakenBytes, Handled, Awaits;
    Here(loop, s);
    ghost var g0, id := loop.g, s.ext;
    HandlerCalled(g0.log, GotData(id), id, client.response);
    assert client.response[0..] == client.response;
    var written: nat;
    written, taken, took := WriteBytes(loop, s, client.response);
    RestWritten(g0, s, GotData(id), client.response, taken, took, loop.g);
    StreamNow(loop, id, client.response);
    client.offset, client.accepted := written, took;
  }

  /** on_data: the response is sent from its start, whatever was left of an earlier one. */
  method OnData(loop: Loop, s: Socket, client: Client) returns (ghost taken: int)
    requires loop.Good() && s in loop.sockets && Called(loop.g, s, GotData(s.ext))
    requires client.Follows(Before(loop.g.log), s.ext)
    modifies client, s`word, s`timeout, loop`kq, loop`lastWriteFailed, loop`g
    ensures loop.Good() && Rely(old(loop.g), loop.g) && Control(old(loop.g), loop.g)
    ensures Answers(old(loop.g), s, |client.response|, taken, loop.g)
    ensures client.Follows(loop.g.log, s.ext)
  {
    hide Loop.Good, Inv, Rely, Control, AfterTimeout, IsLive, Called, Wrote, Answers, Client.Follows;
    Here(loop, s);
    ghost var g0 := loop.g;
    ghost var took: seq<bv8>;
    taken, took := Respond(loop, s, client);
    ghost var g1 := loop.g;
    Here(loop, s);
    ThirtySeconds();
    var sweeps := loop.Timeout(s, IDLE_SECONDS);
    TimeoutStep(g1, s, sweeps);
    RelyTransitive(g0, g1, loop.g);
    ControlTransitive(g0, g1, loop.g);
    ItAnswers(g0, s, client.response, taken, took, g1);
    ArmingFollows(client, g1, s, sweeps);
  }

  lemma ItAnswers(g: State, s: Socket, response: seq<bv8>, taken: int, took: seq<bv8>, h: State)
    requires Wrote(g, s, response, taken, took, h)
    ensures IsLive(h, s) && Answers(g, s, |response|, taken, AfterTimeout(h, s, 8))
  {
    hide AfterWrite, AfterTimeout;
  }

  lemma ArmingFollows(client: Client, g: State, s: Socket, sweeps: nat)
    requires IsLive(g, s) && client.Follows(g.log, g.tags[s].id)
    ensures client.Follows(AfterTimeout(g, s, sweeps).log, g.tags[s].id)
  {
    hide AfterTimeout, Handled, Offset, TakenBytes, Awaits;
    ArmingStays(g, s, sweeps, client.response);
  }

  /** on_writable: the rest of the response is sent. */
  method OnWritable(loop: Loop, s: Socket, client: Client) returns (ghost taken: int)
    requires loop.Good() && s in loop.sockets && Called(loop.g, s, GotWritable(s.ext))
    requires client.Follows(Before(loop.g.log), s.ext)
    modifies client, s`word, loop`kq, loop`lastWriteFailed, loop`g
    ensures loop.Good() && Rely(old(loop.g), loop.g) && Control(old(loop.g), loop.g)
    ensures IsLive(old(loop.g), s) && old(client.offset) <= |client.response|
    ensures loop.g == AfterWrite(old(loop.g), s, |client.response| - old(client.offset), taken)
    ensures client.Follows(loop.g.log, s.ext)
  {
    hide Loop.Good, Inv, Rely, Control, PollType, PollEvents, AfterWrite, Offset, TakenBytes, Handled, Awaits;
    Here(loop, s);
    ghost var g0, id := loop.g, s.ext;
    HandlerCalled(g0.log, GotWritable(id), id, client.response);
    var written, sent, took := WriteBytes(loop, s, client.response[client.offset..]);
    RestWritten(g0, s, GotWritable(id), client.response, sent, took, loop.g);
    client.offset, client.accepted := client.offset + written, client.accepted + took;
    StreamNow(loop, id, client.response);
    taken := sent;
  }

  lemma ThirtySeconds()
    ensures Sweeps(IDLE_SECONDS) == 8
  {
    SweepsExact(IDLE_SECONDS);
  }
}
