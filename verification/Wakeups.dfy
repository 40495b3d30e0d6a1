/**
 What the interest bits come to over the life of a socket, in both ways of storing them: when
 the loop will hear that a socket with unsent data is writable, and when a socket that was
 shut down can still be told that it is.
 */
module Wakeups {
  import opened Journal
  import opened Kernel
  import opened PollWord

  // ---------- what the history says ----------

  predicate IsMove(e: Event) {
    e.Relinked? && e.moved
  }

  /** Events that end or replace polling for both events. */
  predicate EndsBoth(e: Event) {
    e.Drained? || e.GotEnd? || e.Shut? || e.Created?
  }

  /**
   Short: of the short writes on the socket and the events that end polling for both, the
   last was a short write. So its poll word asks for both events.
   */
  predicate Short(log: seq<Event>, id: nat) {
    log != [] &&
    var front, e := log[..|log| - 1], log[|log| - 1];
    if e.id != id then Short(front, id) else IsShort(e) || (!EndsBoth(e) && Short(front, id))
  }

  /**
   Muted: a writable dispatch settled a short write, and since then there was no short write,
   no further such dispatch and no move. With crossed bits this leaves writable in the poll
   word, though the writable filter is gone.
   */
  predicate Muted(log: seq<Event>, id: nat) {
    log != [] &&
    var front, e := log[..|log| - 1], log[|log| - 1];
    if e.id != id then Muted(front, id)
    else if e.Drained? then Short(front, id)
    else !IsShort(e) && !IsMove(e) && !e.Shut? && !e.Created? && Muted(front, id)
  }

  /**
   Deaf: a short write found the socket muted, so the filter it needs was not registered, and
   nothing has registered it since: neither a short write after a FIN, nor a move before one.
   */
  predicate Deaf(log: seq<Event>, id: nat) {
    log != [] &&
    var front, e := log[..|log| - 1], log[|log| - 1];
    if e.id != id then Deaf(front, id)
    else if IsShort(e) then Muted(front, id) || (Deaf(front, id) && Short(front, id))
    else if IsMove(e) then Deaf(front, id) && !Short(front, id)
    else !e.Drained? && !e.Created? && Deaf(front, id)
  }

  // ---------- the same, by positions ----------

  lemma {:induction false} ShortMeans(log: seq<Event>, id: nat)
    ensures Short(log, id) <==>
            exists i :: 0 <= i < |log| && log[i].id == id && IsShort(log[i]) &&
                        forall k | i < k < |log| && log[k].id == id :: !EndsBoth(log[k])
  {
    if log != [] {
      var n := |log| - 1;
      var front, e := log[..n], log[n];
      ShortMeans(front, id);
      if Short(front, id) && !(e.id == id && EndsBoth(e)) {
        var i :| 0 <= i < n && front[i].id == id && IsShort(front[i]) &&
                 forall k | i < k < n && front[k].id == id :: !EndsBoth(front[k]);
        assert forall k | i < k < |log| && log[k].id == id :: k == n || log[k] == front[k];
        assert log[i].id == id && IsShort(log[i]);
      }
      if e.id == id && IsShort(e) {
        assert log[n].id == id && IsShort(log[n]);
      }
      forall i | 0 <= i < |log| && log[i].id == id && IsShort(log[i]) &&
                 forall k | i < k < |log| && log[k].id == id :: !EndsBoth(log[k])
        ensures Short(log, id)
      {
        if i < n {
          assert front[i] == log[i];
          assert forall k | i < k < n && front[k].id == id :: front[k] == log[k];
        }
      }
    }
  }

  /** Events after which a muted socket is not muted any more, or is so by another dispatch. */
  predicate Unmutes(e: Event) {
    IsShort(e) || IsMove(e) || e.Drained? || e.Shut? || e.Created?
  }

  lemma {:induction false} MutedMeans(log: seq<Event>, id: nat)
    ensures Muted(log, id) <==>
            exists i :: 0 <= i < |log| && log[i] == Drained(id) && Short(log[..i], id) &&
                        forall k | i < k < |log| && log[k].id == id :: !Unmutes(log[k])
  {
    if log != [] {
      var n := |log| - 1;
      var front, e := log[..n], log[n];
      MutedMeans(front, id);
      if Muted(front, id) && !(e.id == id && Unmutes(e)) {
        var i :| 0 <= i < n && front[i] == Drained(id) && Short(front[..i], id) &&
                 forall k | i < k < n && front[k].id == id :: !Unmutes(front[k]);
        assert forall k | i < k < |log| && log[k].id == id :: k == n || log[k] == front[k];
        assert front[..i] == log[..i] && log[i] == Drained(id);
      }
      if e == Drained(id) && Short(front, id) {
        assert log[n] == Drained(id) && log[..n] == front;
      }
      forall i | 0 <= i < |log| && log[i] == Drained(id) && Short(log[..i], id) &&
                 forall k | i < k < |log| && log[k].id == id :: !Unmutes(log[k])
        ensures Muted(log, id)
      {
        if i < n {
          assert front[i] == log[i] && front[..i] == log[..i];
          assert forall k | i < k < n && front[k].id == id :: front[k] == log[k];
        }
      }
    }
  }

  /** What keeps a deaf socket deaf, given the history before it. */
  predicate StaysDeaf(front: seq<Event>, e: Event) {
    && !e.Drained? && !e.Created?
    && (IsShort(e) ==> Short(front, e.id)) && (IsMove(e) ==> !Short(front, e.id))
  }

  lemma {:induction false} DeafMeans(log: seq<Event>, id: nat)
    ensures Deaf(log, id) <==>
            exists i :: 0 <= i < |log| && log[i].id == id && IsShort(log[i]) && Muted(log[..i], id) &&
                        forall k | i < k < |log| && log[k].id == id :: StaysDeaf(log[..k], log[k])
  {
    if log != [] {
      var n := |log| - 1;
      var front, e := log[..n], log[n];
      DeafMeans(front, id);
      if Deaf(front, id) && (e.id == id ==> StaysDeaf(front, e)) {
        var i :| 0 <= i < n && front[i].id == id && IsShort(front[i]) && Muted(front[..i], id) &&
                 forall k | i < k < n && front[k].id == id :: StaysDeaf(front[..k], front[k]);
        forall k | i < k < |log| && log[k].id == id
          ensures StaysDeaf(log[..k], log[k])
        {
          if k < n {
            assert front[..k] == log[..k] && front[k] == log[k];
          } else {
            assert log[..k] == front;
          }
        }
        assert front[..i] == log[..i] && log[i].id == id && IsShort(log[i]);
      }
      if e.id == id && IsShort(e) && Muted(front, id) {
        assert log[n].id == id && IsShort(log[n]) && log[..n] == front;
      }
      forall i | 0 <= i < |log| && log[i].id == id && IsShort(log[i]) && Muted(log[..i], id) &&
                 forall k | i < k < |log| && log[k].id == id :: StaysDeaf(log[..k], log[k])
        ensures Deaf(log, id)
      {
        if i < n {
          assert front[i] == log[i] && front[..i] == log[..i];
          forall k | i < k < n && front[k].id == id
            ensures StaysDeaf(front[..k], front[k])
          {
            assert front[k] == log[k] && front[..k] == log[..k];
          }
          assert e.id == id ==> StaysDeaf(log[..n], log[n]);
        }
      }
    }
  }

  // ---------- what it comes to ----------

  /** Before it is shut down or closed. */
  predicate IsUp(p: Phase) {
    p == Unborn || p == Semi || p == Fresh || p == Live
  }

  /** With crossed bits: interest and filter by the history. */
  ghost predicate Crossed(log: seq<Event>, id: nat) {
    var p, t := PollOf(AsWritten, log, id), TrackOf(log, id);
    IsUp(t.phase) ==>
      && (p.cached == BOTH <==> Short(log, id))
      && (p.cached == WRITABLE && !p.registered.writable <==> Muted(log, id))
      && (Short(log, id) ==> t.owes)
      && (t.owes ==> p.cached != WRITABLE && (p.registered.writable <==> !Deaf(log, id)))
      && (t.phase == Unborn ==> !t.owes)
  }

  lemma CrossedStep(log: seq<Event>, e: Event, id: nat)
    requires Crossed(log, id) && Allowed(AsWritten, log, e)
    ensures Crossed(log + [e], id)
  {
    Append(AsWritten, log, e);
    PollAppend(AsWritten, log, e);
    assert (log + [e])[..|log|] == log;
  }

  lemma {:induction false} CrossedHolds(log: seq<Event>, id: nat)
    requires Lawful(AsWritten, log)
    ensures Crossed(log, id)
  {
    if log != [] {
      var n := |log| - 1;
      CrossedHolds(log[..n], id);
      CrossedStep(log[..n], log[n], id);
      assert log == log[..n] + [log[n]];
    }
  }

  /** With uncrossed bits: interest and filters agree, and a socket that owes polls for writable. */
  ghost predicate Uncrossed(log: seq<Event>, id: nat) {
    var p, t := PollOf(AsIntended, log, id), TrackOf(log, id);
    && p.Agrees() && (t.owes ==> p.cached.writable && t.phase != Unborn) && (t.phase == Down ==> !p.cached.writable)
  }

  lemma UncrossedStep(log: seq<Event>, e: Event, id: nat)
    requires Uncrossed(log, id) && Allowed(AsIntended, log, e)
    ensures Uncrossed(log + [e], id)
  {
    Append(AsIntended, log, e);
    PollAppend(AsIntended, log, e);
  }

  lemma {:induction false} UncrossedHolds(log: seq<Event>, id: nat)
    requires Lawful(AsIntended, log)
    ensures Uncrossed(log, id)
  {
    if log != [] {
      var n := |log| - 1;
      UncrossedHolds(log[..n], id);
      UncrossedStep(log[..n], log[n], id);
      assert log == log[..n] + [log[n]];
    }
  }

  /** The kernel reports when the socket is writable, and the loop does not filter the report out. */
  predicate Hears(p: Poll) {
    p.cached.writable && p.registered.writable
  }

  /**
   When a socket with a short write that nothing has settled is heard of: always with
   uncrossed bits; as the bits are written, if and only if no FIN came after its last short
   write and it is not deaf.
   */
  lemma OwingIsHeardExactly(mapping: Mapping, log: seq<Event>, id: nat)
    requires Lawful(mapping, log) && TrackOf(log, id).owes && IsUp(TrackOf(log, id).phase)
    ensures Hears(PollOf(mapping, log, id)) <==> mapping == AsIntended || (Short(log, id) && !Deaf(log, id))
  {
    if mapping == AsIntended {
      UncrossedHolds(log, id);
    } else {
      CrossedHolds(log, id);
    }
  }

  // ---------- new data ----------

  /**
   ReadsOnly, with crossed bits: of creation, short writes and FINs, the last was creation for
   reading, or a FIN that found the socket short. So its poll word asks for readable only.
   */
  predicate ReadsOnly(log: seq<Event>, id: nat) {
    log != [] &&
    var front, e := log[..|log| - 1], log[|log| - 1];
    if e.id != id then ReadsOnly(front, id)
    else if e.Created? then e.events == READABLE
    else if e.GotEnd? then Short(front, id)
    else !IsShort(e) && ReadsOnly(front, id)
  }

  /**
   Blind, with crossed bits: a FIN found the socket short, which left readable in its poll word
   and took the filter away; and since then it was not moved, no writable dispatch settled a
   short write, it was not shut down while short, and no FIN found it otherwise.
   */
  predicate Blind(log: seq<Event>, id: nat) {
    log != [] &&
    var front, e := log[..|log| - 1], log[|log| - 1];
    if e.id != id then Blind(front, id)
    else if e.GotEnd? then Short(front, id)
    else if e.Drained? || e.Shut? then Blind(front, id) && !Short(front, id)
    else !IsMove(e) && !e.Created? && Blind(front, id)
  }

  /** Reading, with uncrossed bits: of creation, short writes and FINs, the last was one that asks for readable. */
  predicate Reading(log: seq<Event>, id: nat) {
    log != [] &&
    var front, e := log[..|log| - 1], log[|log| - 1];
    if e.id != id then Reading(front, id)
    else if e.Created? then e.events.readable
    else IsShort(e) || (!e.GotEnd? && Reading(front, id))
  }

  /** What makes a socket read only, given the history before it. */
  predicate TurnsReadsOnly(front: seq<Event>, e: Event) {
    (e.Created? && e.events == READABLE) || (e.GotEnd? && Short(front, e.id))
  }

  lemma {:induction false} ReadsOnlyMeans(log: seq<Event>, id: nat)
    ensures ReadsOnly(log, id) <==>
            exists i :: 0 <= i < |log| && log[i].id == id && TurnsReadsOnly(log[..i], log[i]) &&
                        forall k | i < k < |log| && log[k].id == id ::
                          !IsShort(log[k]) && !log[k].GotEnd? && !log[k].Created?
  {
    if log != [] {
      var n := |log| - 1;
      var front, e := log[..n], log[n];
      ReadsOnlyMeans(front, id);
      if ReadsOnly(front, id) && !(e.id == id && (IsShort(e) || e.GotEnd? || e.Created?)) {
        var i :| 0 <= i < n && front[i].id == id && TurnsReadsOnly(front[..i], front[i]) &&
                 forall k | i < k < n && front[k].id == id ::
                   !IsShort(front[k]) && !front[k].GotEnd? && !front[k].Created?;
        assert forall k | i < k < |log| && log[k].id == id :: k == n || log[k] == front[k];
        assert front[..i] == log[..i] && log[i].id == id && TurnsReadsOnly(log[..i], log[i]);
      }
      if e.id == id && TurnsReadsOnly(front, e) {
        assert log[n].id == id && log[..n] == front;
      }
      forall i | 0 <= i < |log| && log[i].id == id && TurnsReadsOnly(log[..i], log[i]) &&
                 forall k | i < k < |log| && log[k].id == id ::
                   !IsShort(log[k]) && !log[k].GotEnd? && !log[k].Created?
        ensures ReadsOnly(log, id)
      {
        if i < n {
          assert front[i] == log[i] && front[..i] == log[..i];
          assert forall k | i < k < n && front[k].id == id :: front[k] == log[k];
        }
      }
    }
  }

  /** What keeps a blind socket blind, given the history before it. */
  predicate StaysBlind(front: seq<Event>, e: Event) {
    !IsMove(e) && !e.Created? && !e.GotEnd? && (e.Drained? || e.Shut? ==> !Short(front, e.id))
  }

  lemma {:induction false} BlindMeans(log: seq<Event>, id: nat)
    ensures Blind(log, id) <==>
            exists i :: 0 <= i < |log| && log[i] == GotEnd(id) && Short(log[..i], id) &&
                        forall k | i < k < |log| && log[k].id == id :: StaysBlind(log[..k], log[k])
  {
    if log != [] {
      var n := |log| - 1;
      var front, e := log[..n], log[n];
      BlindMeans(front, id);
      if Blind(front, id) && (e.id == id ==> StaysBlind(front, e)) {
        var i :| 0 <= i < n && front[i] == GotEnd(id) && Short(front[..i], id) &&
                 forall k | i < k < n && front[k].id == id :: StaysBlind(front[..k], front[k]);
        forall k | i < k < |log| && log[k].id == id
          ensures StaysBlind(log[..k], log[k])
        {
          if k < n {
            assert front[..k] == log[..k] && front[k] == log[k];
          } else {
            assert log[..k] == front;
          }
        }
        assert front[..i] == log[..i] && log[i] == GotEnd(id);
      }
      if e == GotEnd(id) && Short(front, id) {
        assert log[n] == GotEnd(id) && log[..n] == front;
      }
      forall i | 0 <= i < |log| && log[i] == GotEnd(id) && Short(log[..i], id) &&
                 forall k | i < k < |log| && log[k].id == id :: StaysBlind(log[..k], log[k])
        ensures Blind(log, id)
      {
        if i < n {
          assert front[i] == log[i] && front[..i] == log[..i];
          forall k | i < k < n && front[k].id == id
            ensures StaysBlind(front[..k], front[k])
          {
            assert front[k] == log[k] && front[..k] == log[..k];
          }
          assert e.id == id ==> StaysBlind(log[..n], log[n]);
        }
      }
    }
  }

  /** With crossed bits: interest and filter for reading by the history. */
  ghost predicate CrossedReading(log: seq<Event>, id: nat) {
    var p := PollOf(AsWritten, log, id);
    && (p.cached == BOTH <==> Short(log, id))
    && (p.cached == READABLE <==> ReadsOnly(log, id))
    && (p.cached.readable ==> (p.registered.readable <==> !Blind(log, id)))
    && (Blind(log, id) ==> p.cached.readable)
  }

  lemma CrossedReadingStep(log: seq<Event>, e: Event, id: nat)
    requires CrossedReading(log, id) && Allowed(AsWritten, log, e)
    ensures CrossedReading(log + [e], id)
  {
    PollAppend(AsWritten, log, e);
    assert (log + [e])[..|log|] == log;
  }

  lemma {:induction false} CrossedReadingHolds(log: seq<Event>, id: nat)
    requires Lawful(AsWritten, log)
    ensures CrossedReading(log, id)
  {
    if log != [] {
      var n := |log| - 1;
      CrossedReadingHolds(log[..n], id);
      CrossedReadingStep(log[..n], log[n], id);
      assert log == log[..n] + [log[n]];
    }
  }

  lemma {:induction false} UncrossedReading(log: seq<Event>, id: nat)
    requires Lawful(AsIntended, log)
    ensures PollOf(AsIntended, log, id).cached.readable <==> Reading(log, id)
  {
    if log != [] {
      var n := |log| - 1;
      UncrossedReading(log[..n], id);
      PollAppend(AsIntended, log[..n], log[n]);
      assert log == log[..n] + [log[n]];
    }
  }

  /** The kernel reports when the socket is readable, and the loop does not filter the report out. */
  predicate HearsData(p: Poll) {
    p.cached.readable && p.registered.readable
  }

  /** When a socket is heard of when data comes in, at any point of its life. */
  lemma DataIsHeardExactly(mapping: Mapping, log: seq<Event>, id: nat)
    requires Lawful(mapping, log)
    ensures HearsData(PollOf(mapping, log, id)) <==>
            if mapping == AsIntended then Reading(log, id)
            else (Short(log, id) || ReadsOnly(log, id)) && !Blind(log, id)
  {
    if mapping == AsIntended {
      UncrossedReading(log, id);
      UncrossedHolds(log, id);
    } else {
      CrossedReadingHolds(log, id);
    }
  }

  // ---------- new data, before any FIN ----------

  ghost predicate NoEnd(log: seq<Event>, id: nat) {
    forall i | 0 <= i < |log| :: log[i] != GotEnd(id)
  }

  /** No write on the socket ever fell short. */
  ghost predicate NeverShort(log: seq<Event>, id: nat) {
    forall i | 0 <= i < |log| && log[i].id == id :: !IsShort(log[i])
  }

  /** The socket was created to poll for readable: it was accepted, or it is a listener. */
  ghost predicate ForReading(log: seq<Event>, id: nat) {
    exists i :: 0 <= i < |log| && log[i].id == id && log[i].Created? && log[i].events == READABLE
  }

  /** What the three predicates come to as long as the peer sent no FIN. */
  ghost predicate BeforeEnd(mapping: Mapping, log: seq<Event>, id: nat) {
    && !Blind(log, id)
    && (ReadsOnly(log, id) <==> ForReading(log, id) && NeverShort(log, id))
    && (Reading(log, id) <==> ForReading(log, id) || !NeverShort(log, id))
    && (TrackOf(log, id).phase == Unborn ==> NeverShort(log, id) && !ForReading(log, id))
  }

  lemma ByPositions(front: seq<Event>, e: Event, id: nat)
    ensures NoEnd(front + [e], id) <==> NoEnd(front, id) && e != GotEnd(id)
    ensures NeverShort(front + [e], id) <==> NeverShort(front, id) && !(e.id == id && IsShort(e))
    ensures ForReading(front + [e], id) <==>
            ForReading(front, id) || (e.id == id && e.Created? && e.events == READABLE)
  {
    var log := front + [e];
    assert log[|front|] == e && forall k | 0 <= k < |front| :: log[k] == front[k];
    if ForReading(front, id) {
      var i :| 0 <= i < |front| && front[i].id == id && front[i].Created? && front[i].events == READABLE;
      assert log[i].id == id && log[i].Created? && log[i].events == READABLE;
    }
    if ForReading(log, id) && !(e.id == id && e.Created? && e.events == READABLE) {
      var i :| 0 <= i < |log| && log[i].id == id && log[i].Created? && log[i].events == READABLE;
      assert front[i].id == id && front[i].Created? && front[i].events == READABLE;
    }
  }

  lemma BeforeEndStep(mapping: Mapping, front: seq<Event>, e: Event, id: nat)
    requires BeforeEnd(mapping, front, id) && Allowed(mapping, front, e) && e != GotEnd(id)
    ensures BeforeEnd(mapping, front + [e], id)
  {
    hide PollOf, Failing, LastTold;
    ByPositions(front, e, id);
    Append(mapping, front, e);
    assert (front + [e])[..|front|] == front;
    hide NoEnd, NeverShort, ForReading;
  }

  lemma {:induction false} BeforeEndHolds(mapping: Mapping, log: seq<Event>, id: nat)
    requires Lawful(mapping, log) && NoEnd(log, id)
    ensures BeforeEnd(mapping, log, id)
  {
    hide NoEnd, NeverShort, ForReading, Allowed, BeforeEnd;
    if log == [] {
      NoneBefore(mapping, id);
    } else {
      var n := |log| - 1;
      assert log == log[..n] + [log[n]];
      ByPositions(log[..n], log[n], id);
      BeforeEndHolds(mapping, log[..n], id);
      BeforeEndStep(mapping, log[..n], log[n], id);
    }
  }

  lemma NoneBefore(mapping: Mapping, id: nat)
    ensures BeforeEnd(mapping, [], id)
  {
  }

  /**
   As long as the peer sent no FIN, a socket is heard of when data comes in: with uncrossed
   bits, if it was created for reading or a write on it ever fell short; as they are written,
   if and only if a short write is outstanding, or it was created for reading and no write on
   it ever fell short.
   */
  lemma DataBeforeEndIsHeardExactly(mapping: Mapping, log: seq<Event>, id: nat)
    requires Lawful(mapping, log) && NoEnd(log, id)
    ensures HearsData(PollOf(mapping, log, id)) <==>
            if mapping == AsIntended then ForReading(log, id) || !NeverShort(log, id)
            else Short(log, id) || (ForReading(log, id) && NeverShort(log, id))
  {
    hide PollOf, Lawful, NoEnd, NeverShort, ForReading, Short, ReadsOnly, Blind, Reading;
    DataIsHeardExactly(mapping, log, id);
    BeforeEndHolds(mapping, log, id);
  }

  // ---------- after shutdown ----------

  /** No writable dispatch has completed since `i`. */
  ghost predicate NotDrained(log: seq<Event>, id: nat, i: nat) {
    forall k | i < k < |log| :: log[k] != Drained(id)
  }

  /** The socket has been moved in memory since `i`. */
  ghost predicate MovedSince(log: seq<Event>, id: nat, i: nat) {
    exists k :: i < k < |log| && log[k].id == id && IsMove(log[k])
  }

  /** With crossed bits: what a socket that was shut down at `i` polls for, and what is registered. */
  ghost predicate DownPoll(log: seq<Event>, i: nat)
    requires i < |log|
  {
    var id := log[i].id;
    var p, q := PollOf(AsWritten, log, id), PollOf(AsWritten, log[..i], id);
    && (Short(log[..i], id) <==> q.cached == BOTH)
    && p.cached != BOTH && (p.cached.writable <==> Short(log[..i], id) && NotDrained(log, id, i))
    && (p.registered.writable <==>
          (q.registered.writable && !q.cached.writable) || (p.cached.writable && MovedSince(log, id, i)))
  }

  lemma {:induction false} DownPolls(log: seq<Event>, i: nat)
    requires Lawful(AsWritten, log) && i < |log| && log[i].Shut? && TrackOf(log, log[i].id).phase == Down
    ensures DownPoll(log, i)
    decreases |log|
  {
    var n := |log| - 1;
    LawfulAt(AsWritten, log, n);
    if i == n {
      CrossedHolds(log[..n], log[i].id);
    } else {
      assert log[..n][i] == log[i] && log[..n][..i] == log[..i];
      StaysDown(log, i);
      DownPolls(log[..n], i);
      DownStep(log[..n], log[n], i);
      assert log == log[..n] + [log[n]];
    }
  }

  lemma DownStep(front: seq<Event>, e: Event, i: nat)
    requires i < |front| && DownPoll(front, i)
    requires Allowed(AsWritten, front, e) && TrackOf(front, front[i].id).phase == Down
    ensures DownPoll(front + [e], i)
  {
    var id, log := front[i].id, front + [e];
    PollAppend(AsWritten, front, e);
    assert log[i] == front[i] && log[..i] == front[..i];
    NotDrainedStep(front, e, id, i);
    MovedSinceStep(front, e, id, i);
    hide PollOf, NotDrained, MovedSince, Short;
  }

  lemma NotDrainedStep(front: seq<Event>, e: Event, id: nat, i: nat)
    requires i < |front|
    ensures NotDrained(front + [e], id, i) <==> NotDrained(front, id, i) && e != Drained(id)
  {
    var log := front + [e];
    assert log[|front|] == e && forall k | i < k < |front| :: log[k] == front[k];
  }

  lemma MovedSinceStep(front: seq<Event>, e: Event, id: nat, i: nat)
    requires i < |front|
    ensures MovedSince(front + [e], id, i) <==> MovedSince(front, id, i) || (e.id == id && IsMove(e))
  {
    var log := front + [e];
    assert log[|front|] == e && forall k | i < k < |front| :: log[k] == front[k];
    if MovedSince(front, id, i) {
      var k :| i < k < |front| && front[k].id == id && IsMove(front[k]);
      assert log[k].id == id && IsMove(log[k]);
    }
    if MovedSince(log, id, i) {
      var k :| i < k < |log| && log[k].id == id && IsMove(log[k]);
      if k < |front| {
        assert front[k].id == id && IsMove(front[k]);
      }
    }
  }

  /** A socket that is down now has been since it was shut down. */
  lemma StaysDown(log: seq<Event>, i: nat)
    requires Lawful(AsWritten, log) && i < |log| - 1 && log[i].Shut? && TrackOf(log, log[i].id).phase == Down
    ensures TrackOf(log[..|log| - 1], log[i].id).phase == Down
  {
    var n := |log| - 1;
    if log[n].id == log[i].id && log[n].Shut? {
      MilestonesHappenOnce(AsWritten, log, i, n);
    }
  }

  /**
   When on_writable can be called on a socket that was shut down at `i`: never with uncrossed
   bits; as they are written, if and only if a short write was outstanding, with no FIN after
   it, when the socket was shut down, and no writable dispatch has completed since.
   */
  lemma WritableAfterShutdownExactly(mapping: Mapping, log: seq<Event>, i: nat)
    requires Lawful(mapping, log) && i < |log| && log[i].Shut? && TrackOf(log, log[i].id).phase == Down
    ensures Allowed(mapping, log, GotWritable(log[i].id)) <==>
            mapping == AsWritten && Short(log[..i], log[i].id) && NotDrained(log, log[i].id, i)
  {
    if mapping == AsIntended {
      UncrossedHolds(log, log[i].id);
    } else {
      DownPolls(log, i);
    }
  }

  /** After shutdown nothing is sent, and on_writable is called at most in that one case. */
  lemma NothingSentAfterShutdown(mapping: Mapping, log: seq<Event>, i: nat, j: nat)
    requires Lawful(mapping, log) && i < j < |log| && log[i].id == log[j].id && log[i].Shut?
    ensures !log[j].Sent?
    ensures log[j].GotWritable? ==>
              mapping == AsWritten && Short(log[..i], log[i].id) && NotDrained(log[..j], log[i].id, i)
  {
    var id := log[i].id;
    LawfulAt(mapping, log, i);
    LawfulAt(mapping, log, j);
    TrackStep(log, id, i);
    PhasesAdvance(mapping, log, id, i + 1, j);
    if log[j].GotWritable? {
      assert log[..j][i] == log[i] && log[..j][..i] == log[..i];
      WritableAfterShutdownExactly(mapping, log[..j], i);
    }
  }

  // ---------- a poll's life is a run of changes ----------

  /** The masks that the changes of a socket's interest asked for since it was created. */
  function Requests(mapping: Mapping, log: seq<Event>, id: nat): seq<Mask> {
    if log == [] then []
    else
      var front, e := log[..|log| - 1], log[|log| - 1];
      var before := Requests(mapping, front, id);
      if e.id != id then before
      else
        match e
        case Created(_, _, _) => []
        case Sent(_, asked, taken) => if taken != asked then before + [BOTH] else before
        case Drained(_) => before + [PollOf(mapping, front, id).cached.And(READABLE)]
        case GotEnd(_) => before + [PollOf(mapping, front, id).cached.And(WRITABLE)]
        case Shut(_) => before + [PollOf(mapping, front, id).cached.And(READABLE)]
        case _ => before
  }

  /** The mask with which the socket's poll was started. */
  function StartedWith(log: seq<Event>, id: nat): Mask {
    if log == [] then NONE
    else
      var e := log[|log| - 1];
      if e.id == id && e.Created? then e.events else StartedWith(log[..|log| - 1], id)
  }

  lemma NothingStarted()
    ensures Started(NONE) == Poll(NONE, NONE)
  {
  }

  /** Interest and filters of a socket that was not moved are those of the run of changes that it went through. */
  lemma {:induction false} PollIsRun(mapping: Mapping, log: seq<Event>, id: nat)
    requires forall i | 0 <= i < |log| && log[i].id == id :: !IsMove(log[i])
    ensures PollOf(mapping, log, id) == Run(mapping, Started(StartedWith(log, id)), Requests(mapping, log, id))
  {
    hide Changed, Applied;
    if log == [] {
      NothingStarted();
    } else {
      var n := |log| - 1;
      var front, e := log[..n], log[n];
      assert forall i | 0 <= i < n && front[i].id == id :: front[i] == log[i];
      PollIsRun(mapping, front, id);
      var before := Requests(mapping, front, id);
      assert forall m: Mask :: (before + [m])[..|before|] == before;
    }
  }
}
