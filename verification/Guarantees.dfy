/** What the invariant means for the users of the library. */
module Guarantees {
  import opened EventLoop
  import opened Interference
  import opened Journal
  import opened Kernel
  import opened Masks
  import opened Memory
  import opened PollWord
  import opened Relinking
  import opened Repolling
  import opened Retuning
  import opened Sequences
  import opened State
  import opened Steps
  import opened Sweeping
  import opened Ticking
  import opened Timer
  import opened Turns
  import opened Wakeups

  // ---------- interest and filters ----------

  /**
   The filters on an open socket's descriptor all name it, and are those that its history says
   are registered; its poll word holds the interest that its history says it does. With
   uncrossed bits the two are the same.
   */
  lemma FiltersAreInterest(g: State, s: Socket)
    requires Inv(g) && IsLive(g, s) && g.places[s].open
    ensures var fd, p := g.tags[s].fd, PollOf(g.mapping, g.log, g.tags[s].id);
            && (forall f | f in g.filters && f.fd == fd :: g.filters[f] == s)
            && p == Poll(g.tunings[s].interest, Registered(g.filters, fd))
            && (g.mapping == AsIntended ==> Registered(g.filters, fd) == g.tunings[s].interest)
  {
    hide ListsInv, PollInv, LifeInv, MaskInv, PollOf;
    InvParts(g);
    MaskAt(g, s);
    TunedAt(g, s);
    forall f | f in g.filters && f.fd == g.tags[s].fd
      ensures g.filters[f] == s
    {
      OwnFilter(g, f, s);
    }
  }

  /** The writable filter of the socket is registered. */
  predicate Watched(g: State, s: Socket)
    requires IsLive(g, s)
  {
    Filter(g.tags[s].fd, WriteSide) in g.filters
  }

  // ---------- no lost wakeup ----------

  /** The loop will hear when `s` is writable: the filter is registered, names it, and is not filtered out. */
  predicate HearsWritable(g: State, s: Socket)
    requires IsLive(g, s)
  {
    Watched(g, s) && g.filters[Filter(g.tags[s].fd, WriteSide)] == s && g.tunings[s].interest.writable
  }

  lemma HeardByPoll(g: State, s: Socket)
    requires Inv(g) && IsLive(g, s) && g.places[s].open
    ensures HearsWritable(g, s) <==> Hears(PollOf(g.mapping, g.log, g.tags[s].id))
  {
    hide Inv, PollOf;
    FiltersAreInterest(g, s);
  }

  /** A socket with a short write that nothing has settled is open, and is heard of exactly in these cases. */
  lemma OwingIsHeard(g: State, s: Socket)
    requires Inv(g) && IsLive(g, s) && TrackOf(g.log, g.tags[s].id).owes
    ensures g.places[s].open
    ensures HearsWritable(g, s) <==>
            g.mapping == AsIntended || (Short(g.log, g.tags[s].id) && !Deaf(g.log, g.tags[s].id))
  {
    hide ListsInv, PollInv, LifeInv, MaskInv, PollOf, HearsWritable, Short, Deaf;
    InvParts(g);
    LawfulNow(g);
    OwingIsOpen(g.mapping, g.log, g.tags[s].id);
    FitsAt(g, s);
    HeardByPoll(g, s);
    OwingIsHeardExactly(g.mapping, g.log, g.tags[s].id);
  }

  /**
   A write on a socket fell short, and since then the socket was not shut down, not closed,
   and went through no writable dispatch free of short writes. With uncrossed bits the loop
   will hear when it is writable. As the bits are written it will if and only if no FIN came
   after its last short write, and it is not deaf.
   */
  lemma NoLostWakeup(g: State, s: Socket, i: nat)
    requires Inv(g) && IsLive(g, s) && i < |g.log|
    requires g.log[i].id == g.tags[s].id && IsShort(g.log[i])
    requires forall k | i < k < |g.log| && g.log[k].id == g.tags[s].id :: !Settles(g.log[k])
    ensures g.places[s].open
    ensures HearsWritable(g, s) <==>
            g.mapping == AsIntended || (Short(g.log, g.tags[s].id) && !Deaf(g.log, g.tags[s].id))
  {
    hide Inv, HearsWritable, Short, Deaf;
    OwesMeans(g.log, g.tags[s].id);
    OwingIsHeard(g, s);
  }

  /** A socket that owes was written to, and neither shut down nor closed after that. */
  lemma {:induction false} OwingIsOpen(mapping: Mapping, log: seq<Event>, id: nat)
    requires Lawful(mapping, log) && TrackOf(log, id).owes
    ensures TrackOf(log, id).phase == Live || TrackOf(log, id).phase == Semi
  {
    var n := |log| - 1;
    LawfulAt(mapping, log, n);
    if TrackOf(log[..n], id).owes {
      OwingIsOpen(mapping, log[..n], id);
    }
  }

  /** After a short write the writable filter is registered exactly if it was, or the poll word did not ask for it. */
  lemma ShortWriteRegistersExactly(g: State, s: Socket, asked: int, taken: int)
    requires IsLive(g, s) && g.places[s].open && g.tunings[s].kind != ShutdownKind && taken != asked
    ensures var h := AfterWrite(g, s, asked, taken);
            && IsLive(h, s) && h.tunings[s].interest == BOTH
            && (Watched(h, s) <==> Watched(g, s) || !g.tunings[s].interest.writable)
  {
    hide KqueueChange;
    var g1 := Noted(g, Sent(g.tags[s].id, asked, taken)).(failed := true);
    ChangeIsChanged(g1, s, BOTH);
  }

  /** The drain of a socket that polled for both leaves crossed bits that ask for writable, and not for readable. */
  lemma DrainStoresExactly(g: State, s: Socket)
    requires IsLive(g, s) && g.places[s].open
    ensures var h, before := AfterDrain(g, s), g.tunings[s].interest;
            && IsLive(h, s) && (Watched(h, s) <==> Watched(g, s) && !before.writable)
            && (h.tunings[s].interest.writable <==> g.mapping == AsWritten && before == BOTH)
            && (h.tunings[s].interest.readable <==> before.readable && (g.mapping == AsIntended || !before.writable))
  {
    hide KqueueChange;
    ChangeIsChanged(Noted(g, Drained(g.tags[s].id)), s, g.tunings[s].interest.And(READABLE));
  }

  // ---------- no lost data ----------

  /** The loop will hear when data comes in for `s`: the filter is registered, names it, and is not filtered out. */
  predicate HearsReadable(g: State, s: Socket)
    requires IsLive(g, s)
  {
    var f := Filter(g.tags[s].fd, ReadSide);
    f in g.filters && g.filters[f] == s && g.tunings[s].interest.readable
  }

  lemma DataByPoll(g: State, s: Socket)
    requires Inv(g) && IsLive(g, s) && g.places[s].open
    ensures HearsReadable(g, s) <==> HearsData(PollOf(g.mapping, g.log, g.tags[s].id))
  {
    hide Inv, PollOf;
    FiltersAreInterest(g, s);
  }

  /** When an open socket is heard of when data comes in, whatever happened to it. */
  lemma DataIsHeard(g: State, s: Socket)
    requires Inv(g) && IsLive(g, s) && g.places[s].open
    ensures HearsReadable(g, s) <==>
            if g.mapping == AsIntended then Reading(g.log, g.tags[s].id)
            else (Short(g.log, g.tags[s].id) || ReadsOnly(g.log, g.tags[s].id)) && !Blind(g.log, g.tags[s].id)
  {
    hide ListsInv, PollInv, LifeInv, MaskInv, PollOf, HearsReadable, Short, ReadsOnly, Blind, Reading, Lawful;
    InvParts(g);
    LawfulNow(g);
    DataByPoll(g, s);
    DataIsHeardExactly(g.mapping, g.log, g.tags[s].id);
  }

  /**
   As long as the peer sent no FIN, the loop should hear of its data. As the bits are written
   it does for an accepted socket until a first short write, and then only while a short write
   is outstanding; for one that connected, only while a short write is outstanding. With
   uncrossed bits it always does for an accepted one, and for one that connected from its
   first short write on.
   */
  lemma NoLostData(g: State, s: Socket)
    requires Inv(g) && IsLive(g, s) && g.places[s].open && NoEnd(g.log, g.tags[s].id)
    ensures var log, id := g.log, g.tags[s].id;
            HearsReadable(g, s) <==>
            if g.mapping == AsIntended then ForReading(log, id) || !NeverShort(log, id)
            else Short(log, id) || (ForReading(log, id) && NeverShort(log, id))
  {
    hide ListsInv, PollInv, LifeInv, MaskInv, PollOf, HearsReadable, Short, ForReading, NeverShort, NoEnd, Lawful;
    InvParts(g);
    LawfulNow(g);
    DataByPoll(g, s);
    DataBeforeEndIsHeardExactly(g.mapping, g.log, g.tags[s].id);
  }

  // ---------- after shutdown ----------

  /**
   What a shutdown leaves: the poll word asks for writable exactly if the bits are crossed and
   it asked for both, and the writable filter stays exactly if it was there unasked for.
   */
  lemma ShutdownStoresExactly(g: State, s: Socket)
    requires IsLive(g, s) && g.places[s].open && g.tunings[s].kind != ShutdownKind
    ensures var h, before := AfterShutdown(g, s), g.tunings[s].interest;
            && IsLive(h, s) && h.tunings[s].kind == ShutdownKind
            && (h.tunings[s].interest.writable <==> g.mapping == AsWritten && before == BOTH)
            && (Watched(h, s) <==> Watched(g, s) && !before.writable)
  {
    hide KqueueChange;
    var t := g.tunings[s];
    var g1 := g.(tunings := g.tunings[s := t.(kind := ShutdownKind)], log := g.log + [Shut(g.tags[s].id)]);
    ChangeIsChanged(g1, s, t.interest.And(READABLE));
  }

  /**
   An open socket that was shut down at `i`, for the rest of the run. With uncrossed bits it
   neither asks for writable nor has the filter. As they are written, it asks for writable if
   and only if a short write was outstanding then, with no FIN after it, and no writable
   dispatch has completed since; and the filter is there if and only if it was there unasked
   for, or the socket was moved while it asked for writable.
   */
  lemma ShutdownIsPolledExactly(g: State, s: Socket, i: nat)
    requires Inv(g) && IsLive(g, s) && g.places[s].open && g.tunings[s].kind == ShutdownKind
    requires i < |g.log| && g.log[i] == Shut(g.tags[s].id)
    ensures g.tunings[s].interest.writable <==>
            g.mapping == AsWritten && Short(g.log[..i], g.tags[s].id) && NotDrained(g.log, g.tags[s].id, i)
    ensures var q := PollOf(g.mapping, g.log[..i], g.tags[s].id);
            Watched(g, s) <==>
            g.mapping == AsWritten &&
            ((q.registered.writable && !q.cached.writable) ||
             (g.tunings[s].interest.writable && MovedSince(g.log, g.tags[s].id, i)))
  {
    hide ListsInv, PollInv, LifeInv, MaskInv, PollOf, Short, NotDrained, MovedSince;
    InvParts(g);
    LawfulNow(g);
    FitsAt(g, s);
    MaskAt(g, s);
    TunedAt(g, s);
    if g.mapping == AsWritten {
      DownPolls(g.log, i);
    }
  }

  /**
   What the loop does with an entry that says that a socket is writable which was shut down at
   `i`. With uncrossed bits on_writable is never called; as they are written it is if and only
   if a short write was outstanding then, with no FIN after it, and no writable dispatch has
   completed since.
   */
  lemma WritableDispatchedExactly(g: State, s: Socket, i: nat, turn: Turn, passes: seq<Pass>, h: State)
    requires Inv(g) && IsLive(g, s) && g.places[s].open && g.tunings[s].kind == ShutdownKind
    requires i < |g.log| && g.log[i] == Shut(g.tags[s].id)
    requires Handles(g, Entry(ToSocket(s), WriteSide, false), turn, passes, h)
    ensures |g.log| < |h.log| && h.log[|g.log|] == GotWritable(g.tags[s].id) <==>
            g.mapping == AsWritten && Short(g.log[..i], g.tags[s].id) && NotDrained(g.log, g.tags[s].id, i)
  {
    hide Inv, Rely, Control, Settled, Short, NotDrained, PollOf, MovedSince, SweepOver;
    ShutdownIsPolledExactly(g, s, i);
    if g.tunings[s].interest.writable {
      var service := turn.service;
      RelyLog(AfterWritable(g, s), service.mid);
      SettledLog(service.mid, service.back);
      assert service.mid.log[|g.log|] == AfterWritable(g, s).log[|g.log|];
    }
  }

  lemma RelyLog(a: State, b: State)
    requires Rely(a, b)
    ensures a.log <= b.log
  {
    hide ListsRely, LivesRely, KeepsOld;
  }

  lemma SettledLog(g: State, s: Socket)
    requires IsLive(g, s)
    ensures g.log <= Settled(g, s).log
  {
    hide KqueueChange;
  }

  // ---------- nothing names a socket that is gone ----------

  /** No list, no filter and no entry after the one being dispatched names `s`. */
  ghost predicate Forgotten(g: State, s: Socket) {
    && Nowhere(g.lines, s)
    && (forall f | f in g.filters :: g.filters[f] != s)
    && (forall i | 1 <= i < |g.pending| :: g.pending[i].target != ToSocket(s))
  }

  /** Lists, filters and later entries name open sockets only. */
  lemma OnlyOpenIsNamed(g: State, s: Socket)
    requires Inv(g) && !IsOpen(g.places, s)
    ensures Forgotten(g, s)
  {
    hide LinesOk, PlacesOk, ClosedOk, ContextsOk, DescriptorsOk, InterestOk, AtMostTwice, LifeInv, MaskInv, Nowhere;
    AbsentNowhere(g.places, g.lines, s);
    assert forall i | 1 <= i < |g.pending| && g.pending[i].target == ToSocket(s) :: EntryOk(g.places, g.pending[i]);
  }

  /** A closed socket is on the close list, once, and named by nothing else, and not even by the current entry. */
  lemma ClosedIsForgotten(g: State, s: Socket)
    requires Inv(g) && IsLive(g, s) && g.places[s].open
    ensures var h := AfterCloseQuietly(g, s);
            && Inv(h) && Forgotten(h, s) && h.closed == [s] + g.closed && s !in g.closed
            && (forall i | 0 <= i < |h.pending| :: h.pending[i].target != ToSocket(s))
  {
    hide LinesOk, PlacesOk, ContextsOk, PollInv, LifeInv, MaskInv, Hangup, Forgotten;
    CloseKeeps(g, s);
    OnlyOpenIsNamed(AfterCloseQuietly(g, s), s);
  }

  /** Freeing takes every closed socket out of memory, counts each once, and leaves nothing that names it. */
  lemma FlushForgets(g: State, s: Socket)
    requires Inv(g) && s in g.closed
    ensures Freeable(g) && var h := AfterFlush(g);
            && Inv(h) && s !in h.places && Forgotten(h, s) && h.closed == []
            && h.count == g.count - |g.closed|
            && (forall x | IsOpen(g.places, x) :: IsOpen(h.places, x) && h.places[x] == g.places[x])
  {
    hide LinesOk, PlacesOk, ContextsOk, PollInv, LifeInv, MaskInv, Forgotten, AfterFlush;
    FlushKeeps(g);
    OnlyOpenIsNamed(AfterFlush(g), s);
  }

  /**
   Adoption: the socket is at the head of its new list, in front of any iterator, with its
   timeout cleared; its descriptor, kind, interest and identity are kept, as is the count
   of polls; and if it moved, nothing names its old place.
   */
  lemma AdoptionMovesAll(g: State, c: Context, s: Socket, t: Socket)
    requires Inv(g) && MayAdopt(g, c, s, t)
    ensures var h := AfterAdopt(g, c, s, t);
            && Inv(h) && IsLive(h, t) && LinkedIn(h.places, c, t)
            && c in h.lines && h.lines[c].done != [] && h.lines[c].done[0] == t && t !in h.lines[c].todo
            && h.tags[t] == g.tags[s] && h.tunings[t] == g.tunings[s].(timeout := 0) && h.count == g.count
            && (t != s ==> s !in h.places && Forgotten(h, s))
            && (forall k | k in h.lines && k != c :: !h.lines[k].Has(t))
  {
    hide LinesOk, PlacesOk, ClosedOk, ContextsOk, PollInv, LifeInv, MaskInv;
    hide Movable, Forgotten, Without, KqueueChange, Retarget;
    AdoptKeeps(g, c, s, t);
    AdoptPlaces(g, c, s, t);
    if t != s {
      OnlyOpenIsNamed(AfterAdopt(g, c, s, t), s);
    }
    DropLines(g.places, g.lines, s);
    if t != s {
      AbsentNowhere(g.places, Removed(g, s).lines, t);
    }
  }

  lemma AdoptPlaces(g: State, c: Context, s: Socket, t: Socket)
    requires IsLive(g, s) && c in g.lines && g.places[s].open
    ensures var h := AfterAdopt(g, c, s, t);
            IsLive(h, t) && LinkedIn(h.places, c, t) && (t != s ==> s !in h.places)
  {
    hide KqueueChange, Retarget;
  }

  /**
   A created socket, accepted or not: one more poll is counted, exactly the asked events are
   registered for its descriptor and name it, it is linked once, at the head of its
   context's list, and an accepted one is opened as the last thing before its on_open runs.
   */
  lemma CreatedIsReady(g: State, c: Context, s: Socket, fd: int, kind: Kind, events: Mask)
    requires Inv(g) && MayCreate(g, c, s, fd, kind, events)
    ensures var h := AfterCreate(g, c, s, fd, kind, events);
            && Inv(h) && IsLive(h, s) && LinkedIn(h.places, c, s)
            && h.count == g.count + 1 && h.tags[s] == Tag(g.nextId, fd, kind == SemiKind && events == READABLE)
            && Registered(h.filters, fd) == events && (forall f | f in h.filters && f.fd == fd :: h.filters[f] == s)
            && h.lines[c].done == [s] + g.lines[c].done && s !in g.lines[c].done && s !in h.lines[c].todo
            && (forall k | k in h.lines && k != c :: !h.lines[k].Has(s))
            && (kind == SocketKind ==> h.log[|h.log| - 1] == Opened(g.nextId))
  {
    hide LinesOk, PlacesOk, ClosedOk, ContextsOk, DescriptorsOk, InterestOk, PendingOk, LifeInv, MaskInv, KqueueChange;
    CreateKeeps(g, c, s, fd, kind, events);
    AbsentNowhere(g.places, g.lines, s);
    InvParts(g);
    UnownedIsFilterless(g, fd);
    ChangeFromAgreement(g.filters, fd, NONE, events, s);
    CreatedOwns(AfterCreate(g, c, s, fd, kind, events), s, fd);
  }

  /** Every filter on the descriptor of an open socket names that socket. */
  lemma CreatedOwns(g: State, s: Socket, fd: int)
    requires Inv(g) && IsOpen(g.places, s) && s in g.tags && g.tags[s].fd == fd
    ensures forall f | f in g.filters && f.fd == fd :: g.filters[f] == s
  {
    hide ListsInv, InterestOk, PendingOk, LifeInv, MaskInv;
  }

  // ---------- the count of polls ----------

  /** How many sockets are in the lists of these contexts. */
  function Listed(lines: map<Context, Line>, contexts: seq<Context>): nat {
    if contexts == [] then 0
    else
      var c := contexts[0];
      (if c in lines then |lines[c].done| + |lines[c].todo| else 0) + Listed(lines, contexts[1..])
  }

  /** The open sockets of these contexts. */
  function OpenOf(places: map<Socket, Place>, contexts: seq<Context>): set<Socket> {
    set s | s in places && places[s].open && places[s].ctx in contexts
  }

  lemma {:induction false} ListedAreOpen(g: State, contexts: seq<Context>)
    requires ListsInv(g) && Distinct(contexts) && forall c | c in contexts :: c in g.lines
    ensures Listed(g.lines, contexts) == |OpenOf(g.places, contexts)|
  {
    hide ListsInv;
    if contexts == [] {
      assert OpenOf(g.places, contexts) == {};
    } else {
      var c, rest := contexts[0], contexts[1..];
      assert contexts == [c] + rest && c !in rest;
      assert forall k | k in rest :: k in contexts;
      ListedAreOpen(g, rest);
      LineIsOpen(g, c);
      assert OpenOf(g.places, contexts) == OpenOf(g.places, [c]) + OpenOf(g.places, rest);
      assert OpenOf(g.places, [c]) !! OpenOf(g.places, rest);
    }
  }

  /** The list of a context has its open sockets, each once. */
  lemma LineIsOpen(g: State, c: Context)
    requires ListsInv(g) && c in g.lines
    ensures |g.lines[c].done| + |g.lines[c].todo| == |OpenOf(g.places, [c])|
  {
    hide ClosedOk, ContextsOk;
    var line := g.lines[c];
    assert LineOk(g.places, c, line);
    SortedDistinct(g.places, line.done);
    SortedDistinct(g.places, line.todo);
    hide Sorted;
    DistinctConcat(line.done, line.todo);
    DistinctSize(line.done + line.todo);
    assert OpenOf(g.places, [c]) == set x | x in line.done + line.todo;
  }

  lemma {:induction false} DistinctSize<T>(s: seq<T>)
    requires Distinct(s)
    ensures |set x | x in s| == |s|
  {
    if s == [] {
      assert (set x | x in s) == {};
    } else {
      assert s == [s[0]] + s[1..];
      DistinctSize(s[1..]);
      assert (set x | x in s) == {s[0]} + (set x | x in s[1..]);
    }
  }

  /** The sockets in memory are those that are open and those on the close list. */
  lemma OpenOrClosed(g: State)
    requires ListsInv(g) && KeysOk(g.places, g.tags, g.tunings)
    ensures |g.tags| == |OpenOf(g.places, g.passed + g.ahead)| + |g.closed|
  {
    hide LinesOk, Distinct;
    var open := OpenOf(g.places, g.passed + g.ahead);
    var closed := set x | x in g.closed;
    DistinctSize(g.closed);
    assert g.places.Keys == open + closed && open !! closed;
    assert |g.tags| == |g.tags.Keys|;
  }

  /**
   The count of polls is the sockets in the lists of all contexts, plus those that are
   closed but not freed, plus the other polls that count.
   */
  lemma CountSplits(g: State)
    requires Inv(g)
    ensures g.count == Listed(g.lines, g.passed + g.ahead) + |g.closed| + g.others
  {
    hide LinesOk, PlacesOk, ClosedOk, PollInv, KeysOk, HistoryOk, JournalOk, IdsOk, MaskInv, Listed, OpenOf;
    ListedAreOpen(g, g.passed + g.ahead);
    OpenOrClosed(g);
  }

  // ---------- sweeps ----------

  /**
   A pass sees every socket of its context that was linked before it began and still is
   exactly once, by its identity. A socket created or adopted since is seen at most once, if
   it was in the list when the pass began, and otherwise not at all.
   */
  lemma SeenExactlyOnce(p: Pass, x: Socket)
    requires PassOver(p) && LinkedIn(p.after.places, p.context, x) && x in p.after.tags
    ensures |p.before.log| <= |p.after.log|
    ensures var visits := Visits(p.after.log, p.after.tags[x].id, |p.before.log|, |p.after.log|);
            && (p.after.places[x].stamp < p.before.clock ==> visits == 1)
            && visits <= if p.after.tags[x].id in Ids(p.before.tags, p.before.lines[p.context].done) then 1 else 0
  {
    hide Inv, Visits, Decreasing;
    if p.after.places[x].stamp < p.before.clock {
      PassVisits(p, p.context, x);
    }
  }

  // ---------- what callers must not do ----------

  /** `s` is listening or connecting, and `kind` and interest are what dispatch tells the two apart by. */
  predicate LooksConnecting(g: State, s: Socket)
    requires IsLive(g, s)
  {
    g.tunings[s].kind == SemiKind && g.tunings[s].interest == WRITABLE
  }

  /**
   A connecting socket that is written to is still told from a listener, whatever the kernel
   takes, if and only if it was closed before the write, so that nothing is written.
   */
  lemma WriteWhileConnecting(g: State, s: Socket, asked: nat)
    requires IsLive(g, s) && LooksConnecting(g, s)
    ensures (forall taken: int | -1 <= taken <= asked ::
               IsLive(AfterWrite(g, s, asked, taken), s) && LooksConnecting(AfterWrite(g, s, asked, taken), s)) <==>
            !g.places[s].open
  {
    if g.places[s].open {
      ShortWriteRegistersExactly(g, s, asked, -1);
    }
  }

  /**
   What becomes of a connecting socket after a short write: whatever it is ready for, dispatch
   takes it for a listener, `accept` fails, and nothing happens. So on_open is not called.
   */
  lemma ShortWriteWhileConnecting(g: State, s: Socket, asked: int, taken: int, error: bool, events: Mask, turn: Turn,
                                  h: State)
    requires IsLive(g, s) && g.places[s].open && LooksConnecting(g, s) && !g.tags[s].listens && taken != asked
    requires IsLive(AfterWrite(g, s, asked, taken), s)
    requires Dispatches(AfterWrite(g, s, asked, taken), s, error, events, turn, h)
    ensures turn.Accepting? && turn.accepted == [] && h == AfterWrite(g, s, asked, taken)
  {
    hide Gives, Serves, TakesAll, KqueueChange;
    ShortWriteRegistersExactly(g, s, asked, taken);
    assert AfterWrite(g, s, asked, taken).tags == g.tags;
    NothingAccepted(AfterWrite(g, s, asked, taken), s, g.tags[s], turn.accepted, turn.last);
  }

  /** On a descriptor that does not listen nothing is accepted. */
  lemma NothingAccepted(g: State, s: Socket, tag: Tag, turns: seq<Accepted>, h: State)
    requires TakesAll(g, s, tag, turns, h) && !tag.listens
    ensures turns == [] && h == g
  {
    hide Gives, MayCreate;
  }

  /**
   A semi-socket that is shut down is dispatched as one if and only if it was closed before.
   Otherwise it is served as a proper socket that was shut down; and one that was connecting
   has no filter left, so that it never hears whether it was connected.
   */
  lemma ShutdownOfSemi(g: State, s: Socket)
    requires Inv(g) && IsLive(g, s) && g.tunings[s].kind == SemiKind
    ensures var h := AfterShutdown(g, s);
            && IsLive(h, s) && (h.tunings[s].kind == SemiKind <==> !g.places[s].open)
            && (g.places[s].open && LooksConnecting(g, s) ==>
                  h.tunings[s] == Tuning(ShutdownKind, NONE, g.tunings[s].timeout) &&
                  Registered(h.filters, g.tags[s].fd) == NONE)
  {
    hide ListsInv, PollInv, LifeInv, MaskInv, KqueueChange;
    if g.places[s].open {
      TunedAt(g, s);
      var t := g.tunings[s];
      var g1 := g.(tunings := g.tunings[s := t.(kind := ShutdownKind)], log := g.log + [Shut(g.tags[s].id)]);
      ChangeIsChanged(g1, s, t.interest.And(READABLE));
    }
  }

  // ---------- iterators ----------

  /** Outside a sweep every iterator is null. */
  lemma NoIteratorOutsideSweeps(loop: Loop, c: Context)
    requires loop.Good() && loop.g.ahead == [] && c in loop.contexts
    ensures loop.cursor == null && c.cursor == null
  {
    hide Inv, ListsInv;
    InvParts(loop.g);
    OutsideIsIdle(loop.g);
    loop.IteratorAt();
  }

  /** In a sweep only the context being swept has an iterator, and it points into its list. */
  lemma IteratorIsOfSweptContext(loop: Loop, c: Context)
    requires loop.Good() && c in loop.contexts && c.cursor != null
    ensures loop.cursor == c && c.Valid() && c.todo != [] && c.cursor == c.todo[0] && c.cursor in c.list
  {
    hide Inv, LinesOk, PlacesOk, ClosedOk, PollInv, LifeInv, MaskInv;
    hide Loop.SocketsRepr, Loop.ClosedFrom, Loop.FieldsRepr;
    hide Loop.BatchRepr;
    InvParts(loop.g);
    loop.IteratorAt();
    assert c.Valid();
  }
}
