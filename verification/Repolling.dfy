/**
 What opening, closing, moving and freeing a socket do to descriptors, filters, pending
 entries, counts and the journal.
 */
module Repolling {
  import opened Journal
  import opened Kernel
  import opened Masks
  import opened Memory
  import opened PollWord
  import opened Retuning
  import opened State

  // ---------- the ready array ----------

  /** Retargeting to nothing, or to a socket that no entry names, keeps every poll to two entries. */
  lemma RetargetTwice(pending: seq<Entry>, s: Socket, t: Target)
    requires AtMostTwice(pending)
    requires t == ToSocket(s) || (forall e | e in pending :: t.ToSocket? ==> e.target != t)
    ensures AtMostTwice(Retarget(pending, s, t))
  {
    var after := Retarget(pending, s, t);
    forall i, j | 0 <= i < j < |after| && after[i].target.ToSocket? && after[i].target == after[j].target
      ensures after[i].side != after[j].side
    {
      assert pending[i] in pending && pending[j] in pending;
    }
  }

  lemma RetargetOpen(places: map<Socket, Place>, after: map<Socket, Place>, pending: seq<Entry>, s: Socket, t: Target)
    requires PendingOk(places, pending) && AtMostTwice(Retarget(pending, s, t))
    requires t.ToSocket? ==> IsOpen(after, t.socket)
    requires forall x | x in places && x != s :: x in after && after[x] == places[x]
    ensures PendingOk(after, Retarget(pending, s, t))
  {
    hide AtMostTwice;
    forall i | 1 <= i < |pending|
      ensures EntryOk(after, Retarget(pending, s, t)[i])
    {
      assert EntryOk(places, pending[i]);
    }
  }

  lemma PendingFrame(places: map<Socket, Place>, after: map<Socket, Place>, pending: seq<Entry>)
    requires PendingOk(places, pending)
    requires forall i | 1 <= i < |pending| && EntryOk(places, pending[i]) :: EntryOk(after, pending[i])
    ensures PendingOk(after, pending)
  {
    hide AtMostTwice, EntryOk;
  }

  // ---------- the journal ----------

  /** The journal grows by one event about the socket at `s`, which is at `t` afterwards if in memory. */
  lemma JournalMoves(g: State, h: State, s: Socket, t: Socket, e: Event)
    requires JournalOk(g.mapping, g.log, g.places, g.tags, g.tunings) && IdsOk(g.tags, g.nextId)
    requires IsLive(g, s) && e.id == g.tags[s].id && h.log == g.log + [e] && h.mapping == g.mapping
    requires forall x | x in h.places && x in h.tags && x in h.tunings && x != t ::
               && x != s && x in g.places && x in g.tags && x in g.tunings
               && h.places[x] == g.places[x] && h.tags[x] == g.tags[x] && h.tunings[x] == g.tunings[x]
    requires t in h.places && t in h.tags && t in h.tunings ==>
               && h.tags[t].id == e.id
               && Fits(g.mapping, Next(TrackOf(g.log, e.id), e), h.places[t].open, h.tunings[t])
    ensures JournalOk(h.mapping, h.log, h.places, h.tags, h.tunings)
  {
    hide Next, Fits, Allowed, Lawful;
    Append(g.mapping, g.log, e);
  }

  // ---------- closing ----------

  lemma HangupRegistered(filters: map<Filter, Socket>, fd: int, other: int)
    requires other != fd
    ensures Registered(Hangup(filters, fd), other) == Registered(filters, other)
  {
  }

  lemma CloseKeepsPoll(g: State, s: Socket)
    requires PollInv(g) && IsLive(g, s) && g.places[s].open
    ensures PollInv(AfterCloseQuietly(g, s))
  {
    var h := AfterCloseQuietly(g, s);
    CloseInterest(g, s);
    hide InterestOk;
    RetargetTwice(g.pending, s, Nothing);
    RetargetOpen(g.places, h.places, g.pending, s, Nothing);
    hide PendingOk, Retarget;
    forall f | f in h.filters
      ensures IsOpen(h.places, h.filters[f]) && h.filters[f] in h.tags && h.tags[h.filters[f]].fd == f.fd
    {
      assert f in g.filters;
    }
  }

  lemma CloseInterest(g: State, s: Socket)
    requires PollInv(g) && IsLive(g, s) && g.places[s].open
    ensures var h := AfterCloseQuietly(g, s); InterestOk(h.mapping, h.places, h.tags, h.tunings, h.filters)
  {
    hide Tuned, PendingOk, FiltersOk, Retarget;
    var h := AfterCloseQuietly(g, s);
    forall x | IsOpen(h.places, x) && x in h.tags && x in h.tunings
      ensures Tuned(h.mapping, Registered(h.filters, h.tags[x].fd), h.tunings[x])
    {
      assert IsOpen(g.places, x) && IsOpen(g.places, s);
      HangupRegistered(g.filters, g.tags[s].fd, g.tags[x].fd);
    }
  }

  lemma CloseKeepsLife(g: State, s: Socket)
    requires LifeInv(g) && IsLive(g, s) && g.places[s].open
    ensures LifeInv(AfterCloseQuietly(g, s))
  {
    hide Hangup, Retarget, CountOk, TrackOf, Lawful;
    var h := AfterCloseQuietly(g, s);
    var e := Closed(g.tags[s].id);
    FitsAt(g, s);
    HistoryGrows(g.mapping, g.log, g.failed, g.failed, g.nextId, e);
    JournalMoves(g, h, s, s, e);
    hide HistoryOk, JournalOk;
  }

  lemma CloseKeepsMasks(g: State, s: Socket)
    requires PollInv(g) && LifeInv(g) && MaskInv(g) && IsLive(g, s) && g.places[s].open
    ensures MaskInv(AfterCloseQuietly(g, s))
  {
    hide FiltersOk, InterestOk, PendingOk, CountOk, HistoryOk, JournalOk, MasksOk, PollOf, Retarget;
    var h := AfterCloseQuietly(g, s);
    PollAppend(g.mapping, g.log, Closed(g.tags[s].id));
    assert IsOpen(g.places, s);
    MasksFrame(g, h, s, g.tags[s].fd, g.tags[s].id);
  }

  // ---------- creating ----------

  lemma CreateKeepsPoll(g: State, c: Context, s: Socket, fd: int, kind: Kind, events: Mask)
    requires PollInv(g) && FilterlessIfUnowned(g, fd)
    requires c in g.lines && s !in g.places && s !in g.tags && s !in g.tunings
    requires forall x | x in g.places && x in g.tags && g.places[x].open :: g.tags[x].fd != fd
    requires Creatable(kind, events)
    ensures PollInv(AfterCreate(g, c, s, fd, kind, events))
  {
    var h := AfterCreate(g, c, s, fd, kind, events);
    KqueueChangeEffect(g.filters, fd, NONE, events, s);
    hide KqueueChange;
    CreateInterest(g, h, s, fd);
    hide InterestOk;
    PendingFrame(g.places, h.places, g.pending);
    hide PendingOk;
  }

  /** A descriptor that no open socket owns has no filters. */
  ghost predicate FilterlessIfUnowned(g: State, fd: int) {
    Registered(g.filters, fd) == NONE
  }

  lemma UnownedIsFilterless(g: State, fd: int)
    requires FiltersOk(g.places, g.tags, g.filters)
    requires forall x | x in g.places && x in g.tags && g.places[x].open :: g.tags[x].fd != fd
    ensures FilterlessIfUnowned(g, fd)
  {
  }

  lemma CreateInterest(g: State, h: State, s: Socket, fd: int)
    requires InterestOk(g.mapping, g.places, g.tags, g.tunings, g.filters) && h.mapping == g.mapping
    requires forall x | x in g.places && x in g.tags && g.places[x].open :: g.tags[x].fd != fd
    requires s in h.places && s in h.tags && s in h.tunings && h.tags[s].fd == fd
    requires h.places == g.places[s := h.places[s]] && h.tags == g.tags[s := h.tags[s]]
    requires h.tunings == g.tunings[s := h.tunings[s]]
    requires OtherDescriptorsUntouched(g.filters, h.filters, fd)
    requires Tuned(g.mapping, Registered(h.filters, fd), h.tunings[s])
    ensures InterestOk(h.mapping, h.places, h.tags, h.tunings, h.filters)
  {
    hide Tuned;
    forall x | IsOpen(h.places, x) && x in h.tags && x in h.tunings
      ensures Tuned(h.mapping, Registered(h.filters, h.tags[x].fd), h.tunings[x])
    {
      if x != s {
        assert IsOpen(g.places, x);
        assert Registered(h.filters, h.tags[x].fd) == Registered(g.filters, g.tags[x].fd);
      }
    }
  }

  lemma CreateHistory(mapping: Mapping, log: seq<Event>, failed: bool, id: nat, kind: Kind, events: Mask)
    requires HistoryOk(mapping, log, failed, id) && Creatable(kind, events)
    ensures var after := log + [Created(id, kind, events)] + if kind == SocketKind then [Opened(id)] else [];
            && HistoryOk(mapping, after, failed, id + 1)
            && (forall other | other != id :: TrackOf(after, other) == TrackOf(log, other))
            && TrackOf(after, id).phase == (if kind == SocketKind then Live else Semi)
            && (TrackOf(log, id) == Track(Unborn, 0, false) ==>
                  TrackOf(after, id).countdown == 0 && !TrackOf(after, id).owes)
  {
    hide TrackOf, Lawful, Failing, LastTold;
    Append(mapping, log, Created(id, kind, events));
    if kind == SocketKind {
      Append(mapping, log + [Created(id, kind, events)], Opened(id));
    } else {
      assert log + [Created(id, kind, events)] + [] == log + [Created(id, kind, events)];
    }
  }

  /** A socket that was never created has an empty track. */
  lemma {:induction false} UnbornIsBlank(mapping: Mapping, log: seq<Event>, id: nat)
    requires Lawful(mapping, log) && TrackOf(log, id).phase == Unborn
    ensures TrackOf(log, id) == Track(Unborn, 0, false)
  {
    if log != [] {
      var n := |log| - 1;
      LawfulAt(mapping, log, n);
      UnbornIsBlank(mapping, log[..n], id);
    }
  }

  lemma CreateJournal(g: State, h: State, s: Socket)
    requires JournalOk(g.mapping, g.log, g.places, g.tags, g.tunings) && IdsOk(g.tags, g.nextId)
    requires h.mapping == g.mapping && s in h.places && s in h.tags && s in h.tunings
    requires h.places == g.places[s := h.places[s]]
    requires h.tags == g.tags[s := Tag(g.nextId, h.tags[s].fd, h.tags[s].listens)]
    requires h.tunings == g.tunings[s := h.tunings[s]]
    requires forall other | other != g.nextId :: TrackOf(h.log, other) == TrackOf(g.log, other)
    requires Fits(g.mapping, TrackOf(h.log, g.nextId), h.places[s].open, h.tunings[s])
    ensures JournalOk(h.mapping, h.log, h.places, h.tags, h.tunings)
  {
    hide Fits, TrackOf;
  }

  lemma NewTag(tags: map<Socket, Tag>, s: Socket, tag: Tag, count: int, others: nat)
    requires IdsOk(tags, tag.id) && CountOk(tags, count, others) && s !in tags
    ensures IdsOk(tags[s := tag], tag.id + 1) && CountOk(tags[s := tag], count + 1, others)
  {
  }

  lemma CreateTrack(g: State, c: Context, s: Socket, fd: int, kind: Kind, events: Mask)
    requires HistoryOk(g.mapping, g.log, g.failed, g.nextId) && c in g.lines && Creatable(kind, events)
    ensures var h := AfterCreate(g, c, s, fd, kind, events);
            && HistoryOk(h.mapping, h.log, h.failed, h.nextId)
            && (forall other | other != g.nextId :: TrackOf(h.log, other) == TrackOf(g.log, other))
            && Fits(g.mapping, TrackOf(h.log, g.nextId), h.places[s].open, h.tunings[s])
  {
    hide TrackOf, Lawful, KqueueChange;
    CreateHistory(g.mapping, g.log, g.failed, g.nextId, kind, events);
    UnbornIsBlank(g.mapping, g.log, g.nextId);
  }

  lemma CreateKeepsLife(g: State, c: Context, s: Socket, fd: int, kind: Kind, events: Mask)
    requires LifeInv(g) && c in g.lines && s !in g.tags && Creatable(kind, events)
    ensures LifeInv(AfterCreate(g, c, s, fd, kind, events))
  {
    hide HistoryOk, TrackOf, KqueueChange, JournalOk, IdsOk, CountOk, Fits;
    var h := AfterCreate(g, c, s, fd, kind, events);
    CreateTrack(g, c, s, fd, kind, events);
    CreateJournal(g, h, s);
    NewTag(g.tags, s, h.tags[s], g.count, g.others);
  }

  lemma CreatePoll(mapping: Mapping, log: seq<Event>, id: nat, kind: Kind, events: Mask)
    ensures var after := log + [Created(id, kind, events)] + if kind == SocketKind then [Opened(id)] else [];
            && PollOf(mapping, after, id) == Poll(events, events)
            && forall other | other != id :: PollOf(mapping, after, other) == PollOf(mapping, log, other)
  {
    hide PollOf;
    PollAppend(mapping, log, Created(id, kind, events));
    if kind == SocketKind {
      PollAppend(mapping, log + [Created(id, kind, events)], Opened(id));
    } else {
      assert log + [Created(id, kind, events)] + [] == log + [Created(id, kind, events)];
    }
  }

  lemma CreateKeepsMasks(g: State, c: Context, s: Socket, fd: int, kind: Kind, events: Mask)
    requires LifeInv(g) && MaskInv(g) && FilterlessIfUnowned(g, fd) && c in g.lines && s !in g.places
    requires forall x | x in g.places && x in g.tags && g.places[x].open :: g.tags[x].fd != fd
    ensures MaskInv(AfterCreate(g, c, s, fd, kind, events))
  {
    hide CountOk, HistoryOk, JournalOk, MasksOk, PollOf, KqueueChange;
    var h := AfterCreate(g, c, s, fd, kind, events);
    CreatePoll(g.mapping, g.log, g.nextId, kind, events);
    ChangeFromAgreement(g.filters, fd, NONE, events, s);
    MasksFrame(g, h, s, fd, g.nextId);
  }

  // ---------- freeing ----------

  lemma FreeKeepsMasks(g: State)
    requires LifeInv(g) && MaskInv(g) && g.closed != [] && IsLive(g, g.closed[0]) && !g.places[g.closed[0]].open
    ensures MaskInv(AfterFree(g))
  {
    hide CountOk, HistoryOk, JournalOk, MasksOk, PollOf;
    var s := g.closed[0];
    PollAppend(g.mapping, g.log, Freed(g.tags[s].id));
    MasksFrame(g, AfterFree(g), s, g.tags[s].fd, g.tags[s].id);
  }

  lemma FreeKeepsPoll(g: State)
    requires PollInv(g) && g.closed != [] && IsLive(g, g.closed[0]) && !g.places[g.closed[0]].open
    ensures PollInv(AfterFree(g))
  {
    var s := g.closed[0];
    var h := AfterFree(g);
    hide Tuned;
    PendingFrame(g.places, h.places, g.pending);
    hide PendingOk;
  }

  lemma OldTag(tags: map<Socket, Tag>, s: Socket, nextId: nat, count: int, others: nat)
    requires IdsOk(tags, nextId) && CountOk(tags, count, others) && s in tags
    ensures IdsOk(tags - {s}, nextId) && CountOk(tags - {s}, count - 1, others)
  {
    assert (tags - {s}).Keys == tags.Keys - {s};
    assert |tags - {s}| == |(tags - {s}).Keys|;
  }

  lemma FreeJournal(g: State)
    requires LifeInv(g) && g.closed != [] && IsLive(g, g.closed[0]) && !g.places[g.closed[0]].open
    ensures var h := AfterFree(g);
            && HistoryOk(h.mapping, h.log, h.failed, h.nextId)
            && JournalOk(h.mapping, h.log, h.places, h.tags, h.tunings)
  {
    hide TrackOf, JournalOk, CountOk, HistoryOk;
    var s := g.closed[0];
    var e := Freed(g.tags[s].id);
    FitsAt(g, s);
    HistoryGrows(g.mapping, g.log, g.failed, g.failed, g.nextId, e);
    JournalMoves(g, AfterFree(g), s, s, e);
  }

  lemma FreeKeys(places: map<Socket, Place>, tags: map<Socket, Tag>, tunings: map<Socket, Tuning>, s: Socket)
    requires KeysOk(places, tags, tunings)
    ensures KeysOk(places - {s}, tags - {s}, tunings - {s})
  {
    assert (places - {s}).Keys == places.Keys - {s};
    assert (tags - {s}).Keys == tags.Keys - {s};
    assert (tunings - {s}).Keys == tunings.Keys - {s};
  }

  lemma FreeKeepsLife(g: State)
    requires LifeInv(g) && g.closed != [] && IsLive(g, g.closed[0]) && !g.places[g.closed[0]].open
    ensures LifeInv(AfterFree(g))
  {
    hide HistoryOk, JournalOk, IdsOk, CountOk, KeysOk, TrackOf;
    FreeJournal(g);
    FreeKeys(g.places, g.tags, g.tunings, g.closed[0]);
    OldTag(g.tags, g.closed[0], g.nextId, g.count, g.others);
  }

  // ---------- moving ----------

  /**
   When a socket may be moved in memory: what is registered for it must be cached in its
   poll word, and if nothing is cached, no later entry of the batch may name it.
   */
  ghost predicate Movable(g: State, s: Socket)
    requires IsLive(g, s)
  {
    && Registered(g.filters, g.tags[s].fd).IsSubset(g.tunings[s].interest)
    && (g.tunings[s].interest == NONE ==> forall i | 1 <= i < |g.pending| :: g.pending[i].target != ToSocket(s))
  }

  /** With uncrossed bits only the second half is left to check. */
  lemma IntendedMovable(g: State, s: Socket)
    requires Inv(g) && IsLive(g, s) && g.places[s].open && g.mapping == AsIntended
    ensures Movable(g, s) <==> (g.tunings[s].interest == NONE ==>
                                  forall i | 1 <= i < |g.pending| :: g.pending[i].target != ToSocket(s))
  {
    hide ListsInv, PollInv, LifeInv, MaskInv;
    TunedAt(g, s);
  }

  lemma AdoptFilters(g: State, c: Context, s: Socket, t: Socket)
    requires FiltersOk(g.places, g.tags, g.filters) && DescriptorsOk(g.places, g.tags)
    requires IsLive(g, s) && g.places[s].open && c in g.lines && t !in g.places
    ensures var h := AfterAdopt(g, c, s, t);
            && OtherDescriptorsUntouched(g.filters, h.filters, g.tags[s].fd)
            && (FiltersOk(h.places, h.tags, h.filters) <==>
                  Registered(g.filters, g.tags[s].fd).IsSubset(g.tunings[s].interest))
  {
    var fd, events := g.tags[s].fd, g.tunings[s].interest;
    var h := AfterAdopt(g, c, s, t);
    var r, w := Filter(fd, ReadSide), Filter(fd, WriteSide);
    Reregister(g.filters, fd, events, t);
    hide KqueueChange, Retarget, DescriptorsOk;
    if Registered(g.filters, fd).IsSubset(events) {
      forall f | f in h.filters && f.fd == fd
        ensures h.filters[f] == t
      {
        assert f.side.ReadSide? || f.side.WriteSide?;
        assert f == r || f == w;
      }
      forall f | f in h.filters && f.fd != fd
        ensures IsOpen(h.places, h.filters[f]) && h.filters[f] in h.tags && h.tags[h.filters[f]].fd == f.fd
      {
        assert f in g.filters;
      }
    } else {
      var f := if r in g.filters && !events.readable then r else w;
      assert f in h.filters && h.filters[f] == g.filters[f];
      assert g.filters[f] == s by {
        FilterOwner(g, f, s);
      }
      assert !IsOpen(h.places, s);
    }
  }

  /** The open socket that owns a filter's descriptor is its user data. */
  lemma FilterOwner(g: State, f: Filter, s: Socket)
    requires FiltersOk(g.places, g.tags, g.filters) && DescriptorsOk(g.places, g.tags)
    requires f in g.filters && IsLive(g, s) && g.places[s].open && g.tags[s].fd == f.fd
    ensures g.filters[f] == s
  {
    assert IsOpen(g.places, g.filters[f]) && IsOpen(g.places, s);
  }

  lemma OwnFilter(g: State, f: Filter, s: Socket)
    requires PollInv(g) && IsLive(g, s) && g.places[s].open && g.tags[s].fd == f.fd
    ensures f in g.filters ==> g.filters[f] == s
  {
    hide InterestOk, PendingOk;
    if f in g.filters {
      FilterOwner(g, f, s);
    }
  }

  lemma AdoptPending(g: State, c: Context, s: Socket, t: Socket)
    requires PendingOk(g.places, g.pending) && IsLive(g, s) && g.places[s].open && c in g.lines && t !in g.places
    requires !Current(g.pending, t)
    ensures var h := AfterAdopt(g, c, s, t);
            PendingOk(h.places, h.pending) <==>
            (g.tunings[s].interest == NONE ==> forall i | 1 <= i < |g.pending| :: g.pending[i].target != ToSocket(s))
  {
    var h := AfterAdopt(g, c, s, t);
    hide KqueueChange, AtMostTwice;
    if g.tunings[s].interest != NONE {
      PendingElsewhere(g, t);
      RetargetTwice(g.pending, s, ToSocket(t));
      RetargetOpen(g.places, h.places, g.pending, s, ToSocket(t));
    } else if forall i | 1 <= i < |g.pending| :: g.pending[i].target != ToSocket(s) {
      PendingFrame(g.places, h.places, g.pending);
    } else {
      var i :| 1 <= i < |g.pending| && g.pending[i].target == ToSocket(s);
      assert !EntryOk(h.places, h.pending[i]);
    }
  }

  lemma PendingElsewhere(g: State, t: Socket)
    requires PendingOk(g.places, g.pending) && t !in g.places && !Current(g.pending, t)
    ensures forall e | e in g.pending :: e.target != ToSocket(t)
  {
    hide AtMostTwice;
    forall e | e in g.pending
      ensures e.target != ToSocket(t)
    {
      var i :| 0 <= i < |g.pending| && g.pending[i] == e;
      assert i >= 1 ==> EntryOk(g.places, g.pending[i]);
    }
  }

  lemma AdoptInterest(g: State, c: Context, s: Socket, t: Socket)
    requires PollInv(g) && IsLive(g, s) && g.places[s].open && c in g.lines && (t == s || t !in g.places)
    requires t != s ==> Movable(g, s)
    ensures var h := AfterAdopt(g, c, s, t); InterestOk(h.mapping, h.places, h.tags, h.tunings, h.filters)
  {
    var h := AfterAdopt(g, c, s, t);
    TunedAt(g, s);
    Reregister(g.filters, g.tags[s].fd, g.tunings[s].interest, t);
    hide KqueueChange, FiltersOk, PendingOk, Retarget;
    assert Tuned(h.mapping, Registered(h.filters, h.tags[t].fd), h.tunings[t]);
    hide Tuned;
    forall x | IsOpen(h.places, x) && x in h.tags && x in h.tunings
      ensures Tuned(h.mapping, Registered(h.filters, h.tags[x].fd), h.tunings[x])
    {
      if x != t {
        assert IsOpen(g.places, x) && IsOpen(g.places, s);
        assert Registered(h.filters, h.tags[x].fd) == Registered(g.filters, g.tags[x].fd);
      }
    }
  }

  lemma AdoptDescriptors(g: State, c: Context, s: Socket, t: Socket)
    requires DescriptorsOk(g.places, g.tags) && IsLive(g, s) && g.places[s].open && c in g.lines
    ensures var h := AfterAdopt(g, c, s, t); DescriptorsOk(h.places, h.tags)
  {
    hide KqueueChange, Retarget;
    var h := AfterAdopt(g, c, s, t);
    forall x, y | IsOpen(h.places, x) && IsOpen(h.places, y) && x in h.tags && y in h.tags &&
        h.tags[x].fd == h.tags[y].fd
      ensures x == y
    {
      assert x != t ==> IsOpen(g.places, x);
      assert y != t ==> IsOpen(g.places, y);
      assert IsOpen(g.places, s);
    }
  }

  lemma AdoptInPlace(g: State, c: Context, s: Socket)
    requires PollInv(g) && IsLive(g, s) && g.places[s].open && c in g.lines
    ensures var h := AfterAdopt(g, c, s, s);
            FiltersOk(h.places, h.tags, h.filters) && PendingOk(h.places, h.pending)
  {
    var h := AfterAdopt(g, c, s, s);
    assert h.tags == g.tags;
    PendingFrame(g.places, h.places, g.pending);
  }

  lemma AdoptKeepsPoll(g: State, c: Context, s: Socket, t: Socket)
    requires PollInv(g) && IsLive(g, s) && g.places[s].open && c in g.lines && (t == s || t !in g.places)
    requires t != s ==> Movable(g, s) && !Current(g.pending, t)
    ensures PollInv(AfterAdopt(g, c, s, t))
  {
    hide AfterAdopt, DescriptorsOk, InterestOk, FiltersOk, PendingOk;
    AdoptDescriptors(g, c, s, t);
    AdoptInterest(g, c, s, t);
    if t == s {
      AdoptInPlace(g, c, s);
    } else {
      AdoptFilters(g, c, s, t);
      AdoptPending(g, c, s, t);
    }
  }

  /**
   Moving a socket leaves every filter and every later entry of the batch naming an open
   socket if and only if the socket is movable.
   */
  lemma MoveIsSafeExactly(g: State, c: Context, s: Socket, t: Socket)
    requires PollInv(g) && IsLive(g, s) && g.places[s].open && c in g.lines && t !in g.places
    requires !Current(g.pending, t)
    ensures var h := AfterAdopt(g, c, s, t);
            FiltersOk(h.places, h.tags, h.filters) && PendingOk(h.places, h.pending) <==> Movable(g, s)
  {
    hide AfterAdopt, DescriptorsOk, InterestOk, FiltersOk, PendingOk;
    AdoptFilters(g, c, s, t);
    AdoptPending(g, c, s, t);
  }

  lemma MovedTag(tags: map<Socket, Tag>, s: Socket, t: Socket, nextId: nat, count: int, others: nat)
    requires IdsOk(tags, nextId) && CountOk(tags, count, others) && s in tags && (t == s || t !in tags)
    ensures var after := (tags - {s})[t := tags[s]];
            IdsOk(after, nextId) && CountOk(after, count, others)
  {
    OldTag(tags, s, nextId, count, others);
  }

  lemma MovedKeys<V>(m: map<Socket, V>, s: Socket, t: Socket, v: V)
    ensures ((m - {s})[t := v]).Keys == m.Keys - {s} + {t}
    ensures (m - {s}).Keys == m.Keys - {s}
  {
  }

  lemma AdoptJournal(g: State, c: Context, s: Socket, t: Socket)
    requires LifeInv(g) && IsLive(g, s) && g.places[s].open && c in g.lines && (t == s || t !in g.places)
    ensures var h := AfterAdopt(g, c, s, t);
            && HistoryOk(h.mapping, h.log, h.failed, h.nextId)
            && JournalOk(h.mapping, h.log, h.places, h.tags, h.tunings)
  {
    hide TrackOf, JournalOk, CountOk, HistoryOk, KqueueChange, Retarget;
    var e := Relinked(g.tags[s].id, t != s);
    FitsAt(g, s);
    HistoryGrows(g.mapping, g.log, g.failed, g.failed, g.nextId, e);
    JournalMoves(g, AfterAdopt(g, c, s, t), s, t, e);
  }

  /** Moving registers the cached interest again, in addition to what is registered. */
  lemma AdoptRegisters(g: State, c: Context, s: Socket, t: Socket)
    requires IsLive(g, s) && c in g.lines
    ensures var h, fd := AfterAdopt(g, c, s, t), g.tags[s].fd;
            && OtherDescriptorsUntouched(g.filters, h.filters, fd)
            && Registered(h.filters, fd) ==
               if t == s then Registered(g.filters, fd)
               else Applied(NONE, g.tunings[s].interest, Registered(g.filters, fd))
  {
    hide KqueueChange, Retarget;
    KqueueChangeEffect(g.filters, g.tags[s].fd, NONE, g.tunings[s].interest, t);
  }

  lemma AdoptKeepsMasks(g: State, c: Context, s: Socket, t: Socket)
    requires PollInv(g) && LifeInv(g) && MaskInv(g) && IsLive(g, s) && g.places[s].open
    requires c in g.lines && (t == s || t !in g.places)
    ensures MaskInv(AfterAdopt(g, c, s, t))
  {
    hide FiltersOk, InterestOk, PendingOk, CountOk, HistoryOk, JournalOk, MasksOk, PollOf, KqueueChange, Retarget;
    hide Applied;
    var h := AfterAdopt(g, c, s, t);
    PollAppend(g.mapping, g.log, Relinked(g.tags[s].id, t != s));
    AdoptRegisters(g, c, s, t);
    MaskAt(g, s);
    assert IsOpen(g.places, s);
    MasksFrame(g, h, t, g.tags[s].fd, g.tags[s].id);
  }

  lemma AdoptKeepsLife(g: State, c: Context, s: Socket, t: Socket)
    requires LifeInv(g) && IsLive(g, s) && g.places[s].open && c in g.lines && (t == s || t !in g.places)
    ensures LifeInv(AfterAdopt(g, c, s, t))
  {
    AdoptJournal(g, c, s, t);
    MovedKeys(g.places, s, t, Place(c, true, g.clock));
    MovedKeys(g.tags, s, t, g.tags[s]);
    MovedKeys(g.tunings, s, t, g.tunings[s].(timeout := 0));
    hide HistoryOk, JournalOk, IdsOk, CountOk, TrackOf, KqueueChange, Retarget;
    MovedTag(g.tags, s, t, g.nextId, g.count, g.others);
  }
}
