/**
 The journal of a loop: what was done to each socket and which callbacks it was given, in
 order. A socket is named by the tag that stays with it when it is moved in memory.

 `Allowed` says which events may follow which; the loop is proved to append allowed events
 only. The lemmas at the end read off what that means for a whole run.
 */
module Journal {
  import opened Kernel
  import opened PollWord

  datatype Event =
    | Created(id: nat, kind: Kind, events: Mask)
    | Opened(id: nat)                        // on_open is called
    | GotData(id: nat)                       // on_data is called
    | GotWritable(id: nat)                   // on_writable is called
    | GotEnd(id: nat)                        // on_end is called
    | Visited(id: nat, stamp: nat, fired: bool)  // seen by a sweep; on_timeout is called if `fired`
    | Shut(id: nat)
    | Closed(id: nat)                        // stopped and put on the close list
    | Notified(id: nat)                      // on_close is called
    | Freed(id: nat)
    | Armed(id: nat, sweeps: nat)            // a timeout is set
    | Relinked(id: nat, moved: bool)         // adopted by a context, and moved in memory if `moved`
    | Sent(id: nat, asked: int, taken: int)  // `send` is called and takes that many bytes
    | Drained(id: nat)                       // a writable dispatch stops polling for writable

  datatype Phase = Unborn | Semi | Fresh | Live | Down | Dead | Buried | Gone

  /**
   Where a socket is in its life, the sweeps left until its timeout, and whether a write
   fell short that no writable dispatch has made up for.
   */
  datatype Track = Track(phase: Phase, countdown: nat, owes: bool)

  predicate IsShort(e: Event) {
    e.Sent? && e.taken != e.asked
  }

  function NextPhase(p: Phase, e: Event): Phase {
    match e
    case Created(_, kind, _) => if kind == SemiKind then Semi else Fresh
    case Opened(_) => Live
    case Shut(_) => Down
    case Closed(_) => Dead
    case Notified(_) => Buried
    case Freed(_) => Gone
    case _ => p
  }

  function Next(t: Track, e: Event): Track {
    Track(NextPhase(t.phase, e),
          match e {
            case Armed(_, n) => n
            case Relinked(_, _) => 0
            case Visited(_, _, _) => if t.countdown > 0 then t.countdown - 1 else 0
            case _ => t.countdown
          },
          match e {
            case Sent(_, asked, taken) => t.owes || taken != asked
            case Drained(_) => false
            case Shut(_) => false
            case Closed(_) => false
            case _ => t.owes
          })
  }

  function TrackOf(log: seq<Event>, id: nat): Track {
    if log == [] then Track(Unborn, 0, false)
    else
      var t := TrackOf(log[..|log| - 1], id);
      var e := log[|log| - 1];
      if e.id == id then Next(t, e) else t
  }

  /**
   What an event makes of the interest in the poll word and of the events registered. A
   socket that moves has its interest registered again.
   */
  function NextPoll(mapping: Mapping, p: Poll, e: Event): Poll {
    match e
    case Created(_, _, events) => Started(events)
    case Sent(_, asked, taken) => if taken != asked then Changed(mapping, p, BOTH) else p
    case Drained(_) => Changed(mapping, p, p.cached.And(READABLE))
    case GotEnd(_) => Changed(mapping, p, p.cached.And(WRITABLE))
    case Shut(_) => Changed(mapping, p, p.cached.And(READABLE))
    case Relinked(_, moved) => if moved then Poll(p.cached, Applied(NONE, p.cached, p.registered)) else p
    case _ => p
  }

  function PollOf(mapping: Mapping, log: seq<Event>, id: nat): Poll {
    if log == [] then Poll(NONE, NONE)
    else
      var p := PollOf(mapping, log[..|log| - 1], id);
      var e := log[|log| - 1];
      if e.id == id then NextPoll(mapping, p, e) else p
  }

  /** Whether some write fell short since on_writable was last called, on any socket. */
  function Failing(log: seq<Event>): bool {
    if log == [] then false
    else
      var e := log[|log| - 1];
      if e.GotWritable? then false else IsShort(e) || Failing(log[..|log| - 1])
  }

  /** Whether the socket that was last told it is writable is `id`. */
  predicate LastTold(log: seq<Event>, id: nat) {
    log != [] &&
    var e := log[|log| - 1];
    if e.GotWritable? then e.id == id else LastTold(log[..|log| - 1], id)
  }

  /** The three ways in which a poll is created: listening, connecting, or accepted. */
  predicate Creatable(kind: Kind, events: Mask) {
    (kind == SemiKind && (events == READABLE || events == WRITABLE)) || (kind == SocketKind && events == READABLE)
  }

  predicate Enabled(t: Track, e: Event) {
    match e
    case Created(_, kind, events) => t.phase == Unborn && Creatable(kind, events)
    case Opened(_) => t.phase == Semi || t.phase == Fresh
    case GotData(_) => t.phase == Live || t.phase == Down
    case GotWritable(_) => t.phase == Live || t.phase == Down
    case GotEnd(_) => t.phase == Live
    case Visited(_, _, fired) =>
      (t.phase == Semi || t.phase == Live || t.phase == Down) && (fired <==> t.countdown == 1)
    case Shut(_) => t.phase == Semi || t.phase == Live
    case Closed(_) => t.phase == Semi || t.phase == Live || t.phase == Down
    case Notified(_) => t.phase == Dead
    case Freed(_) => t.phase == Dead || t.phase == Buried
    case Armed(_, _) => t.phase != Unborn && t.phase != Fresh && t.phase != Gone
    case Relinked(_, _) => t.phase == Semi || t.phase == Live || t.phase == Down
    case Sent(_, _, _) => t.phase == Semi || t.phase == Live
    case Drained(_) => t.phase == Live || t.phase == Down
  }

  /**
   What an event may follow. on_writable is called only while the poll word says that the
   socket polls for writable. A socket stops polling for writable only in its own writable
   dispatch, and then only if no write fell short since, or if it was shut down.
   */
  predicate Allowed(mapping: Mapping, log: seq<Event>, e: Event) {
    var t := TrackOf(log, e.id);
    && Enabled(t, e)
    && (e.GotWritable? ==> PollOf(mapping, log, e.id).cached.writable)
    && (e.Drained? ==> LastTold(log, e.id) && (!Failing(log) || t.phase == Down))
  }

  predicate Lawful(mapping: Mapping, log: seq<Event>) {
    log == [] ||
    (Lawful(mapping, log[..|log| - 1]) && Allowed(mapping, log[..|log| - 1], log[|log| - 1]))
  }

  // ---------- appending ----------

  lemma Append(mapping: Mapping, log: seq<Event>, e: Event)
    ensures TrackOf(log + [e], e.id) == Next(TrackOf(log, e.id), e)
    ensures forall id | id != e.id :: TrackOf(log + [e], id) == TrackOf(log, id)
    ensures Failing(log + [e]) == if e.GotWritable? then false else IsShort(e) || Failing(log)
    ensures forall id :: LastTold(log + [e], id) <==> if e.GotWritable? then e.id == id else LastTold(log, id)
    ensures Lawful(mapping, log + [e]) <==> Lawful(mapping, log) && Allowed(mapping, log, e)
  {
    assert (log + [e])[..|log|] == log;
  }

  lemma PollAppend(mapping: Mapping, log: seq<Event>, e: Event)
    ensures PollOf(mapping, log + [e], e.id) == NextPoll(mapping, PollOf(mapping, log, e.id), e)
    ensures forall id | id != e.id :: PollOf(mapping, log + [e], id) == PollOf(mapping, log, id)
  {
    assert (log + [e])[..|log|] == log;
  }

  lemma {:induction false} LawfulAt(mapping: Mapping, log: seq<Event>, i: nat)
    requires Lawful(mapping, log) && i < |log|
    ensures Lawful(mapping, log[..i]) && Allowed(mapping, log[..i], log[i])
  {
    var front := log[..|log| - 1];
    if i < |front| {
      LawfulAt(mapping, front, i);
      assert front[..i] == log[..i];
    }
  }

  lemma TrackStep(log: seq<Event>, id: nat, i: nat)
    requires i < |log|
    ensures var t := TrackOf(log[..i], id);
            TrackOf(log[..i + 1], id) == if log[i].id == id then Next(t, log[i]) else t
  {
    assert log[..i + 1][..i] == log[..i];
  }

  // ---------- what a callback cannot do ----------

  /** Events that only the loop itself brings about, and no callback. */
  predicate IsLoops(e: Event) {
    e.Visited? || e.GotData? || e.GotWritable? || e.GotEnd? || e.Drained? || e.Freed?
  }

  /** `after` continues `before` by nothing but what callbacks do. */
  ghost predicate Continues(before: seq<Event>, after: seq<Event>) {
    before <= after && forall i | |before| <= i < |after| :: !IsLoops(after[i])
  }

  lemma ContinuesTransitive(a: seq<Event>, b: seq<Event>, c: seq<Event>)
    requires Continues(a, b) && Continues(b, c)
    ensures Continues(a, c)
  {
    forall i | |a| <= i < |c|
      ensures !IsLoops(c[i])
    {
      if i < |b| {
        assert c[i] == b[i];
      }
    }
  }

  /** The socket leaves its list, for good or for another place. */
  predicate Leaves(e: Event, id: nat) {
    e.id == id && (e.Closed? || e.Relinked?)
  }

  /** It did since the journal had length `n`. */
  ghost predicate Left(log: seq<Event>, n: nat, id: nat) {
    exists i :: n <= i < |log| && Leaves(log[i], id)
  }

  lemma LeftSince(before: seq<Event>, after: seq<Event>, n: nat, m: nat, id: nat)
    requires before <= after && n <= m
    ensures Left(before, n, id) ==> Left(after, n, id)
    ensures Left(after, m, id) ==> Left(after, n, id)
  {
    if Left(before, n, id) {
      var i :| n <= i < |before| && Leaves(before[i], id);
      assert Leaves(after[i], id);
    }
  }

  /** `after` continues `before`, and no sweep was at work in between. */
  ghost predicate NoVisits(before: seq<Event>, after: seq<Event>) {
    before <= after && forall i | |before| <= i < |after| :: !after[i].Visited?
  }

  lemma NoVisitsGrow(before: seq<Event>, after: seq<Event>)
    requires NoVisits(before, after)
    ensures before <= after
  {
  }

  lemma NoVisitsTransitive(a: seq<Event>, b: seq<Event>, c: seq<Event>)
    requires NoVisits(a, b) && NoVisits(b, c)
    ensures NoVisits(a, c)
  {
    forall i | |a| <= i < |c|
      ensures !c[i].Visited?
    {
      if i < |b| {
        assert c[i] == b[i];
      }
    }
  }

  lemma {:induction false} LastToldAcross(before: seq<Event>, after: seq<Event>, id: nat)
    requires Continues(before, after)
    ensures LastTold(after, id) <==> LastTold(before, id)
    decreases |after|
  {
    if |before| == |after| {
      assert before == after;
    } else {
      LastToldAcross(before, after[..|after| - 1], id);
    }
  }

  /** The stamps of the sockets that sweeps have seen since the journal had length `n`. */
  function Swept(log: seq<Event>, n: nat): seq<nat> {
    if |log| <= n then []
    else
      var e := log[|log| - 1];
      Swept(log[..|log| - 1], n) + if e.Visited? then [e.stamp] else []
  }

  lemma {:induction false} SweptAcross(before: seq<Event>, after: seq<Event>, n: nat)
    requires Continues(before, after) && n <= |before|
    ensures Swept(after, n) == Swept(before, n)
    decreases |after|
  {
    if |before| == |after| {
      assert before == after;
    } else {
      SweptAcross(before, after[..|after| - 1], n);
    }
  }

  // ---------- one life for every socket ----------

  function Rank(p: Phase): nat {
    match p
    case Unborn => 0
    case Semi => 1
    case Fresh => 1
    case Live => 2
    case Down => 3
    case Dead => 4
    case Buried => 5
    case Gone => 6
  }

  /** The phase of a socket only moves forward. */
  lemma {:induction false} PhasesAdvance(mapping: Mapping, log: seq<Event>, id: nat, i: nat, j: nat)
    requires Lawful(mapping, log) && i <= j <= |log|
    ensures Rank(TrackOf(log[..i], id).phase) <= Rank(TrackOf(log[..j], id).phase)
    decreases j - i
  {
    if i < j {
      LawfulAt(mapping, log, i);
      TrackStep(log, id, i);
      PhasesAdvance(mapping, log, id, i + 1, j);
    }
  }

  /** The events that end a phase, in the only order in which they can happen; 0 for others. */
  function Milestone(e: Event): nat {
    match e
    case Created(_, _, _) => 1
    case Opened(_) => 2
    case Shut(_) => 3
    case Closed(_) => 4
    case Notified(_) => 5
    case Freed(_) => 6
    case _ => 0
  }

  /** Created, opened, shut down, closed, told so, and freed: each at most once, and in this order. */
  lemma MilestonesHappenOnce(mapping: Mapping, log: seq<Event>, i: nat, j: nat)
    requires Lawful(mapping, log) && i < j < |log|
    requires log[i].id == log[j].id && Milestone(log[i]) > 0 && Milestone(log[j]) > 0
    ensures Milestone(log[i]) < Milestone(log[j])
  {
    var id := log[i].id;
    LawfulAt(mapping, log, i);
    LawfulAt(mapping, log, j);
    TrackStep(log, id, i);
    PhasesAdvance(mapping, log, id, i + 1, j);
  }

  predicate IsCallback(e: Event) {
    e.Opened? || e.GotData? || e.GotWritable? || e.GotEnd? || (e.Visited? && e.fired) || e.Notified?
  }

  /** Where the journal says that a callback is called: its lengths right after each such event. */
  function Due(log: seq<Event>): seq<nat> {
    if log == [] then []
    else Due(log[..|log| - 1]) + if IsCallback(log[|log| - 1]) then [|log|] else []
  }

  /** `after` continues `before` by nothing that says so, and by no short write. */
  ghost predicate Unannounced(before: seq<Event>, after: seq<Event>) {
    before <= after && forall i | |before| <= i < |after| :: !IsCallback(after[i]) && !IsShort(after[i])
  }

  /** Some write fell short since the journal had length `n`, on any socket. */
  ghost predicate Fell(log: seq<Event>, n: nat) {
    exists i :: n <= i < |log| && IsShort(log[i])
  }

  lemma FellThen(before: seq<Event>, after: seq<Event>, n: nat)
    requires before <= after && n <= |before|
    ensures Fell(after, n) <==> Fell(before, n) || Fell(after, |before|)
  {
    if Fell(before, n) {
      var i :| n <= i < |before| && IsShort(before[i]);
      assert IsShort(after[i]);
    }
    if Fell(after, n) {
      var i :| n <= i < |after| && IsShort(after[i]);
      assert i < |before| ==> IsShort(before[i]);
    }
  }

  lemma {:induction false} DueAcross(before: seq<Event>, after: seq<Event>)
    requires before <= after && forall i | |before| <= i < |after| :: !IsCallback(after[i])
    ensures Due(after) == Due(before)
    decreases |after|
  {
    if |before| == |after| {
      assert before == after;
    } else {
      DueAcross(before, after[..|after| - 1]);
    }
  }

  lemma DueOne(log: seq<Event>, e: Event)
    requires IsCallback(e)
    ensures Due(log + [e]) == Due(log) + [|log| + 1]
  {
    assert (log + [e])[..|log|] == log;
  }

  /** Once a socket is closed, the only callback it can still be given is its one on_close. */
  lemma NothingAfterClose(mapping: Mapping, log: seq<Event>, i: nat, j: nat)
    requires Lawful(mapping, log) && i < j < |log| && log[i].id == log[j].id
    requires log[i].Closed? || log[i].Notified? || log[i].Freed?
    ensures !log[i].Freed?
    ensures IsCallback(log[j]) ==> log[i].Closed? && log[j].Notified?
  {
    var id := log[i].id;
    LawfulAt(mapping, log, i);
    LawfulAt(mapping, log, j);
    TrackStep(log, id, i);
    PhasesAdvance(mapping, log, id, i + 1, j);
  }

  // ---------- timeouts ----------

  /** How often a sweep saw the socket in `log[i..j]`. */
  function Visits(log: seq<Event>, id: nat, i: nat, j: nat): nat
    requires i <= j <= |log|
  {
    if i == j then 0
    else Visits(log, id, i, j - 1) + if log[j - 1].Visited? && log[j - 1].id == id then 1 else 0
  }

  ghost predicate Undisturbed(log: seq<Event>, id: nat, i: nat, j: nat)
    requires i <= j <= |log|
  {
    forall k | i <= k < j && log[k].id == id :: !log[k].Armed? && !log[k].Relinked?
  }

  lemma {:induction false} CountdownAfterVisits(log: seq<Event>, id: nat, i: nat, j: nat)
    requires i <= j <= |log| && Undisturbed(log, id, i, j)
    ensures var n, v := TrackOf(log[..i], id).countdown, Visits(log, id, i, j);
            TrackOf(log[..j], id).countdown == if v <= n then n - v else 0
    decreases j - i
  {
    if i < j {
      CountdownAfterVisits(log, id, i, j - 1);
      TrackStep(log, id, j - 1);
    }
  }

  /**
   A timeout of `n` sweeps, set at `i` and not set again nor cleared by adoption, fires at
   the n-th later visit of the socket by a sweep, and at no other.
   */
  lemma FiresAtNthVisit(mapping: Mapping, log: seq<Event>, i: nat, j: nat)
    requires Lawful(mapping, log) && i < j < |log|
    requires log[i].Armed? && log[j].Visited? && log[i].id == log[j].id
    requires Undisturbed(log, log[i].id, i + 1, j)
    ensures log[j].fired <==> log[i].sweeps == Visits(log, log[i].id, i + 1, j) + 1
  {
    var id := log[i].id;
    LawfulAt(mapping, log, j);
    TrackStep(log, id, i);
    CountdownAfterVisits(log, id, i + 1, j);
  }

  /** The socket is given no other timeout in `log[i..j]`. */
  ghost predicate NotArmed(log: seq<Event>, id: nat, i: nat, j: nat)
    requires i <= j <= |log|
  {
    forall k | i <= k < j && log[k].id == id :: !log[k].Armed?
  }

  lemma {:induction false} StaysOff(log: seq<Event>, id: nat, i: nat, j: nat)
    requires i <= j <= |log| && NotArmed(log, id, i, j) && TrackOf(log[..i], id).countdown == 0
    ensures TrackOf(log[..j], id).countdown == 0
    decreases j - i
  {
    if i < j {
      StaysOff(log, id, i, j - 1);
      TrackStep(log, id, j - 1);
    }
  }

  /** A timeout that is turned off does not fire until it is set again, also if the socket is adopted. */
  lemma OffNeverFires(mapping: Mapping, log: seq<Event>, i: nat, j: nat)
    requires Lawful(mapping, log) && i < j < |log| && log[i].Armed? && log[i].sweeps == 0
    requires NotArmed(log, log[i].id, i + 1, j)
    ensures !(log[j].Visited? && log[j].id == log[i].id && log[j].fired)
  {
    var id := log[i].id;
    LawfulAt(mapping, log, j);
    TrackStep(log, id, i);
    StaysOff(log, id, i + 1, j);
  }

  // ---------- writes that fell short ----------

  predicate Settles(e: Event) {
    e.Drained? || e.Shut? || e.Closed?
  }

  /** A socket owes exactly if a write on it fell short and nothing has settled that since. */
  lemma {:induction false} OwesMeans(log: seq<Event>, id: nat)
    ensures TrackOf(log, id).owes <==>
            exists i :: 0 <= i < |log| && log[i].id == id && IsShort(log[i]) &&
                        forall k | i < k < |log| && log[k].id == id :: !Settles(log[k])
  {
    if log != [] {
      var n := |log| - 1;
      var front, e := log[..n], log[n];
      OwesMeans(front, id);
      if TrackOf(front, id).owes && !(e.id == id && Settles(e)) {
        var i :| 0 <= i < n && front[i].id == id && IsShort(front[i]) &&
                 forall k | i < k < n && front[k].id == id :: !Settles(front[k]);
        assert forall k | i < k < |log| && log[k].id == id :: k == n || log[k] == front[k];
        assert log[i].id == id && IsShort(log[i]);
      }
      if e.id == id && IsShort(e) {
        assert log[n].id == id && IsShort(log[n]);
      }
      forall i | 0 <= i < |log| && log[i].id == id && IsShort(log[i]) &&
                 forall k | i < k < |log| && log[k].id == id :: !Settles(log[k])
        ensures TrackOf(log, id).owes
      {
        if i < n {
          assert front[i] == log[i];
          assert forall k | i < k < n && front[k].id == id :: front[k] == log[k];
        }
      }
    }
  }

  lemma {:induction false} FailingMeans(log: seq<Event>)
    ensures Failing(log) <==>
            exists i :: 0 <= i < |log| && IsShort(log[i]) && forall k | i < k < |log| :: !log[k].GotWritable?
  {
    if log != [] {
      var n := |log| - 1;
      var front, e := log[..n], log[n];
      FailingMeans(front);
      if IsShort(e) {
        assert IsShort(log[n]);
      }
      if Failing(front) && !e.GotWritable? {
        var i :| 0 <= i < n && IsShort(front[i]) && forall k | i < k < n :: !front[k].GotWritable?;
        assert forall k | i < k < |log| :: k == n || log[k] == front[k];
        assert IsShort(log[i]);
      }
      forall i | 0 <= i < |log| && IsShort(log[i]) && forall k | i < k < |log| :: !log[k].GotWritable?
        ensures Failing(log)
      {
        if i < n {
          assert front[i] == log[i];
          assert forall k | i < k < n :: front[k] == log[k];
        }
      }
    }
  }

  lemma {:induction false} LastToldMeans(log: seq<Event>, id: nat)
    ensures LastTold(log, id) <==>
            exists i :: 0 <= i < |log| && log[i] == GotWritable(id) && forall k | i < k < |log| :: !log[k].GotWritable?
  {
    if log != [] {
      var n := |log| - 1;
      var front, e := log[..n], log[n];
      LastToldMeans(front, id);
      if LastTold(front, id) && !e.GotWritable? {
        var i :| 0 <= i < n && front[i] == GotWritable(id) && forall k | i < k < n :: !front[k].GotWritable?;
        assert forall k | i < k < |log| :: k == n || log[k] == front[k];
        assert log[i] == GotWritable(id);
      }
      if e == GotWritable(id) {
        assert log[n] == GotWritable(id);
      }
      forall i | 0 <= i < |log| && log[i] == GotWritable(id) && forall k | i < k < |log| :: !log[k].GotWritable?
        ensures LastTold(log, id)
      {
        if i < n {
          assert front[i] == log[i];
          assert forall k | i < k < n :: front[k] == log[k];
        }
      }
    }
  }

  /**
   An open socket that is not shut down stops polling for writable only after its own
   on_writable, and only if no write on any socket fell short since that was called.
   */
  lemma DrainsAfterFullWrites(mapping: Mapping, log: seq<Event>, k: nat)
    requires Lawful(mapping, log) && k < |log| && log[k].Drained? && TrackOf(log[..k], log[k].id).phase != Down
    ensures exists m :: 0 <= m < k && log[m] == GotWritable(log[k].id) &&
                        forall n | m < n < k :: !log[n].GotWritable? && !IsShort(log[n])
  {
    var front, id := log[..k], log[k].id;
    LawfulAt(mapping, log, k);
    LastToldMeans(front, id);
    FailingMeans(front);
    var m :| 0 <= m < k && front[m] == GotWritable(id) && forall n | m < n < k :: !front[n].GotWritable?;
    forall n | m < n < k
      ensures !log[n].GotWritable? && !IsShort(log[n])
    {
      assert log[n] == front[n];
      assert IsShort(front[n]) ==> Failing(front);
    }
    assert log[m] == GotWritable(id);
  }
}
