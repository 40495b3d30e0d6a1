/**
 Operations that change one socket's poll word, timeout or filters, or only the journal,
 keep the invariant.
 */
module Retuning {
  import opened Journal
  import opened Kernel
  import opened Masks
  import opened Memory
  import opened PollWord
  import opened State

  // ---------- the parts of the invariant that are touched ----------

  lemma HistoryGrows(mapping: Mapping, log: seq<Event>, failed: bool, failedAfter: bool, nextId: nat, e: Event)
    requires HistoryOk(mapping, log, failed, nextId) && Allowed(mapping, log, e) && e.id < nextId
    requires e.GotWritable? || (IsShort(e) || failed ==> failedAfter)
    ensures HistoryOk(mapping, log + [e], failedAfter, nextId)
  {
    Append(mapping, log, e);
  }

  lemma JournalGrows(mapping: Mapping, log: seq<Event>, e: Event, places: map<Socket, Place>, tags: map<Socket, Tag>,
                     tunings: map<Socket, Tuning>, s: Socket, t: Tuning, nextId: nat)
    requires JournalOk(mapping, log, places, tags, tunings) && IdsOk(tags, nextId)
    requires s in places && s in tags && s in tunings && e.id == tags[s].id
    requires Fits(mapping, Next(TrackOf(log, e.id), e), places[s].open, t)
    ensures JournalOk(mapping, log + [e], places, tags, tunings[s := t])
  {
    hide Next, Allowed, Lawful;
    Append(mapping, log, e);
  }

  /** All that `after` changes is what `fd` is registered for; new registrations name `s`. */
  ghost predicate OnlyFor(before: map<Filter, Socket>, after: map<Filter, Socket>, fd: int, s: Socket) {
    && OtherDescriptorsUntouched(before, after, fd)
    && (forall f | f in after && f.fd == fd :: (f in before && after[f] == before[f]) || after[f] == s)
  }

  lemma FiltersChange(places: map<Socket, Place>, tags: map<Socket, Tag>, before: map<Filter, Socket>,
                      after: map<Filter, Socket>, s: Socket)
    requires FiltersOk(places, tags, before) && IsOpen(places, s) && s in tags
    requires OnlyFor(before, after, tags[s].fd, s)
    ensures FiltersOk(places, tags, after)
  {
  }

  lemma InterestChanges(mapping: Mapping, places: map<Socket, Place>, tags: map<Socket, Tag>,
                        tunings: map<Socket, Tuning>,
                        before: map<Filter, Socket>, after: map<Filter, Socket>, s: Socket, t: Tuning)
    requires InterestOk(mapping, places, tags, tunings, before) && DescriptorsOk(places, tags)
    requires IsOpen(places, s) && s in tags && s in tunings
    requires OtherDescriptorsUntouched(before, after, tags[s].fd)
    requires Tuned(mapping, Registered(after, tags[s].fd), t)
    ensures InterestOk(mapping, places, tags, tunings[s := t], after)
  {
    hide Tuned;
    forall x | IsOpen(places, x) && x in tags && x in tunings[s := t]
      ensures Tuned(mapping, Registered(after, tags[x].fd), tunings[s := t][x])
    {
      if x != s {
        assert tags[x].fd != tags[s].fd;
        assert Registered(after, tags[x].fd) == Registered(before, tags[x].fd);
      }
    }
  }

  // ---------- retuning one socket ----------

  /** `h` is `g` with `s` retuned and its filters changed, and the journal and the failure mark moved on. */
  ghost predicate Retuned(g: State, h: State, s: Socket) {
    && IsLive(g, s) && s in h.tunings
    && h == g.(tunings := g.tunings[s := h.tunings[s]], filters := h.filters, failed := h.failed, log := h.log)
  }

  lemma RetuneOpen(g: State, h: State, s: Socket)
    requires Inv(g) && Retuned(g, h, s) && g.places[s].open
    requires OnlyFor(g.filters, h.filters, g.tags[s].fd, s)
    requires Tuned(g.mapping, Registered(h.filters, g.tags[s].fd), h.tunings[s])
    ensures ListsInv(h) && PollInv(h)
  {
    hide LinesOk, PlacesOk, ClosedOk, ContextsOk, DescriptorsOk, PendingOk, LifeInv, MaskInv;
    hide InterestOk, FiltersOk, Tuned;
    FiltersChange(g.places, g.tags, g.filters, h.filters, s);
    InterestChanges(g.mapping, g.places, g.tags, g.tunings, g.filters, h.filters, s, h.tunings[s]);
  }

  lemma RetuneClosed(g: State, h: State, s: Socket)
    requires Inv(g) && Retuned(g, h, s) && !g.places[s].open && h.filters == g.filters
    ensures ListsInv(h) && PollInv(h)
  {
    hide LinesOk, PlacesOk, ClosedOk, ContextsOk, DescriptorsOk, PendingOk, LifeInv, MaskInv, FiltersOk, Tuned;
  }

  lemma RetuneLife(g: State, h: State, s: Socket, e: Event)
    requires LifeInv(g) && Retuned(g, h, s) && e.id == g.tags[s].id && h.log == g.log + [e]
    requires Allowed(g.mapping, g.log, e)
    requires e.GotWritable? || (IsShort(e) || g.failed ==> h.failed)
    requires Fits(g.mapping, Next(TrackOf(g.log, e.id), e), g.places[s].open, h.tunings[s])
    ensures LifeInv(h)
  {
    HistoryGrows(g.mapping, g.log, g.failed, h.failed, g.nextId, e);
    JournalGrows(g.mapping, g.log, e, g.places, g.tags, g.tunings, s, h.tunings[s], g.nextId);
    hide CountOk, HistoryOk, JournalOk, Fits, Next, Allowed;
    assert h.tunings.Keys == g.tunings.Keys;
  }

  /** What an event makes of the poll is what the retuned socket and its filters show. */
  lemma RetuneMasks(g: State, h: State, s: Socket, e: Event)
    requires PollInv(g) && LifeInv(g) && MaskInv(g) && Retuned(g, h, s) && e.id == g.tags[s].id && h.log == g.log + [e]
    requires OnlyFor(g.filters, h.filters, g.tags[s].fd, s) && (g.places[s].open || h.filters == g.filters)
    requires g.places[s].open ==>
               NextPoll(g.mapping, Poll(g.tunings[s].interest, Registered(g.filters, g.tags[s].fd)), e) ==
               Poll(h.tunings[s].interest, Registered(h.filters, g.tags[s].fd))
    ensures MaskInv(h)
  {
    hide FiltersOk, InterestOk, PendingOk, CountOk, HistoryOk, JournalOk, MasksOk, PollOf, NextPoll;
    PollAppend(g.mapping, g.log, e);
    if g.places[s].open {
      MaskAt(g, s);
    }
    MasksFrame(g, h, s, g.tags[s].fd, e.id);
  }

  lemma NotedKeepsLists(g: State, e: Event)
    requires ListsInv(g) && PollInv(g)
    ensures ListsInv(Noted(g, e)) && PollInv(Noted(g, e))
  {
    hide LinesOk, PlacesOk, ClosedOk, ContextsOk, DescriptorsOk, PendingOk, FiltersOk, InterestOk;
  }

  /** Events that leave interest and filters as they are. */
  predicate KeepsPoll(e: Event) {
    !e.Created? && !IsShort(e) && !e.Drained? && !e.GotEnd? && !e.Shut? && (e.Relinked? ==> !e.moved)
  }

  /** Noting an event that leaves the socket as it is. */
  lemma NotedKeeps(g: State, s: Socket, e: Event)
    requires Inv(g) && IsLive(g, s) && e.id == g.tags[s].id
    requires Allowed(g.mapping, g.log, e) && !IsShort(e)
    requires Fits(g.mapping, Next(TrackOf(g.log, e.id), e), g.places[s].open, g.tunings[s])
    requires g.places[s].open ==> KeepsPoll(e)
    ensures Inv(Noted(g, e))
  {
    hide ListsInv, PollInv, LifeInv, MaskInv, Allowed, Fits, Next;
    var h := Noted(g, e);
    assert g.tunings[s := g.tunings[s]] == g.tunings;
    RetuneLife(g, h, s, e);
    RetuneMasks(g, h, s, e);
    NotedKeepsLists(g, e);
  }

  // ---------- the operations ----------

  lemma ChangeIs(g: State, s: Socket, events: Mask)
    requires IsLive(g, s)
    ensures var h := AfterChange(g, s, events);
            && Retuned(g, h, s) && OnlyFor(g.filters, h.filters, g.tags[s].fd, s)
            && h.failed == g.failed && h.log == g.log
            && h.tunings[s] == g.tunings[s].(interest := if g.tunings[s].interest == events then events
                else Stored(g.mapping, events))
            && (Registered(g.filters, g.tags[s].fd) == g.tunings[s].interest ==>
                Registered(h.filters, g.tags[s].fd) == events)
  {
    if g.tunings[s].interest == events {
      assert g.tunings[s := g.tunings[s]] == g.tunings;
    } else {
      KqueueChangeEffect(g.filters, g.tags[s].fd, g.tunings[s].interest, events, s);
    }
  }

  /** A change of interest does to the poll what the two-mask record of it says. */
  lemma ChangeIsChanged(g: State, s: Socket, events: Mask)
    requires IsLive(g, s)
    ensures var h, fd := AfterChange(g, s, events), g.tags[s].fd;
            && s in h.tunings
            && Poll(h.tunings[s].interest, Registered(h.filters, fd)) ==
               Changed(g.mapping, Poll(g.tunings[s].interest, Registered(g.filters, fd)), events)
  {
    hide KqueueChange;
    KqueueChangeEffect(g.filters, g.tags[s].fd, g.tunings[s].interest, events, s);
  }

  lemma TunedAt(g: State, s: Socket)
    requires PollInv(g) && IsLive(g, s) && g.places[s].open
    ensures Tuned(g.mapping, Registered(g.filters, g.tags[s].fd), g.tunings[s])
  {
    hide FiltersOk, DescriptorsOk, PendingOk, Tuned;
  }

  /** What a change of interest to `events` needs, so that the socket stays tuned with kind `k`. */
  predicate MayChange(mapping: Mapping, k: Kind, events: Mask) {
    && k != CallbackKind && (k == SemiKind ==> events == BOTH)
    && (k == ShutdownKind ==> !events.writable || mapping == AsWritten)
  }

  /** Changing interest, whatever the kind, the timeout and the journal were before. */
  lemma ChangeKeepsPoll(g: State, g1: State, s: Socket, events: Mask)
    requires Inv(g) && Retuned(g, g1, s) && g1.filters == g.filters && g.places[s].open
    requires g1.tunings[s].interest == g.tunings[s].interest
    requires g1.tunings[s].kind == SemiKind ==> g.tunings[s].kind == SemiKind
    requires MayChange(g.mapping, g1.tunings[s].kind, events)
    ensures Retuned(g, AfterChange(g1, s, events), s)
    ensures ListsInv(AfterChange(g1, s, events)) && PollInv(AfterChange(g1, s, events))
  {
    hide ListsInv, PollInv, LifeInv, MaskInv;
    TunedAt(g, s);
    ChangeIs(g1, s, events);
    hide AfterChange, OnlyFor;
    RetuneOpen(g, AfterChange(g1, s, events), s);
  }

  /** After the peer's first FIN only writable interest stays. */
  lemma EndKeeps(g: State, s: Socket)
    requires Inv(g) && IsLive(g, s) && g.places[s].open && g.tunings[s].kind == SocketKind
    ensures Inv(AfterEnd(g, s))
  {
    hide ListsInv, PollInv, LifeInv, MaskInv;
    FitsAt(g, s);
    var e := GotEnd(g.tags[s].id);
    var events := g.tunings[s].interest.And(WRITABLE);
    assert g.tunings[s := g.tunings[s]] == g.tunings;
    ChangeKeepsPoll(g, Noted(g, e), s, events);
    ChangeIs(Noted(g, e), s, events);
    ChangeIsChanged(Noted(g, e), s, events);
    RetuneLife(g, AfterEnd(g, s), s, e);
    RetuneMasks(g, AfterEnd(g, s), s, e);
  }

  lemma FitsAt(g: State, s: Socket)
    requires LifeInv(g) && IsLive(g, s)
    ensures Fits(g.mapping, TrackOf(g.log, g.tags[s].id), g.places[s].open, g.tunings[s])
    ensures Failing(g.log) ==> g.failed
  {
    hide Fits, TrackOf, Failing;
  }

  lemma LawfulNow(g: State)
    requires LifeInv(g)
    ensures Lawful(g.mapping, g.log)
  {
    hide KeysOk, CountOk, IdsOk, JournalOk;
  }

  lemma TimeoutKeeps(g: State, s: Socket, sweeps: nat)
    requires Inv(g) && IsLive(g, s)
    ensures Inv(AfterTimeout(g, s, sweeps))
  {
    hide ListsInv, PollInv, LifeInv, MaskInv;
    var h := AfterTimeout(g, s, sweeps);
    FitsAt(g, s);
    RetuneLife(g, h, s, Armed(g.tags[s].id, sweeps));
    RetuneMasks(g, h, s, Armed(g.tags[s].id, sweeps));
    RetuneTimeout(g, h, s);
  }

  /** Retuning only the timeout. */
  lemma RetuneTimeout(g: State, h: State, s: Socket)
    requires Inv(g) && Retuned(g, h, s) && h.filters == g.filters
    requires h.tunings[s] == g.tunings[s].(timeout := h.tunings[s].timeout)
    ensures ListsInv(h) && PollInv(h)
  {
    hide ListsInv, PollInv, LifeInv, MaskInv;
    if g.places[s].open {
      TunedAt(g, s);
      RetuneOpen(g, h, s);
    } else {
      RetuneClosed(g, h, s);
    }
  }

  lemma VisitKeeps(g: State, s: Socket)
    requires Inv(g) && IsLive(g, s) && g.places[s].open
    ensures Inv(AfterVisit(g, s))
  {
    hide ListsInv, PollInv, LifeInv, MaskInv;
    var h := AfterVisit(g, s);
    FitsAt(g, s);
    RetuneLife(g, h, s, Visited(g.tags[s].id, g.places[s].stamp, g.tunings[s].timeout == 1));
    RetuneMasks(g, h, s, Visited(g.tags[s].id, g.places[s].stamp, g.tunings[s].timeout == 1));
    RetuneTimeout(g, h, s);
  }

  lemma ShutdownKeeps(g: State, s: Socket)
    requires Inv(g) && IsLive(g, s)
    ensures Inv(AfterShutdown(g, s))
  {
    hide ListsInv, PollInv, LifeInv, MaskInv;
    if g.places[s].open && g.tunings[s].kind != ShutdownKind {
      FitsAt(g, s);
      TunedAt(g, s);
      var t := g.tunings[s];
      var g1 := g.(tunings := g.tunings[s := t.(kind := ShutdownKind)], log := g.log + [Shut(g.tags[s].id)]);
      ChangeKeepsPoll(g, g1, s, t.interest.And(READABLE));
      ChangeIs(g1, s, t.interest.And(READABLE));
      ChangeIsChanged(g1, s, t.interest.And(READABLE));
      RetuneLife(g, AfterShutdown(g, s), s, Shut(g.tags[s].id));
      RetuneMasks(g, AfterShutdown(g, s), s, Shut(g.tags[s].id));
    }
  }

  lemma WriteKeeps(g: State, s: Socket, asked: int, taken: int)
    requires Inv(g) && IsLive(g, s)
    ensures Inv(AfterWrite(g, s, asked, taken))
  {
    hide ListsInv, PollInv, LifeInv, MaskInv;
    if g.places[s].open && g.tunings[s].kind != ShutdownKind {
      var e := Sent(g.tags[s].id, asked, taken);
      FitsAt(g, s);
      TunedAt(g, s);
      if taken == asked {
        NotedKeeps(g, s, e);
      } else {
        assert g.tunings[s := g.tunings[s]] == g.tunings;
        var g1 := Noted(g, e).(failed := true);
        ChangeKeepsPoll(g, g1, s, BOTH);
        ChangeIs(g1, s, BOTH);
        ChangeIsChanged(g1, s, BOTH);
        RetuneLife(g, AfterWrite(g, s, asked, taken), s, e);
        RetuneMasks(g, AfterWrite(g, s, asked, taken), s, e);
      }
    }
  }

  /** What a shutdown of an open socket leaves in memory. */
  lemma ShutdownLeaves(g: State, s: Socket)
    requires IsLive(g, s) && g.places[s].open && g.tunings[s].kind != ShutdownKind
    ensures var h, t := AfterShutdown(g, s), g.tunings[s];
            var events := t.interest.And(READABLE);
            && Retuned(g, h, s) && s in h.tunings && h.failed == g.failed
            && h.tunings[s] == Tuning(ShutdownKind, if t.interest == events then events
                else Stored(g.mapping, events), t.timeout)
            && h.filters == (if t.interest == events then g.filters
                             else KqueueChange(g.filters, g.tags[s].fd, t.interest, events, s))
  {
    hide KqueueChange;
    var t := g.tunings[s];
    var g1 := g.(tunings := g.tunings[s := t.(kind := ShutdownKind)], log := g.log + [Shut(g.tags[s].id)]);
    ChangeIs(g1, s, t.interest.And(READABLE));
  }

  lemma WriteOnDeadEnd(g: State, s: Socket, asked: int, taken: int)
    requires IsLive(g, s) && (!g.places[s].open || g.tunings[s].kind == ShutdownKind)
    ensures AfterWrite(g, s, asked, taken) == g
  {
  }

  lemma ShutdownOnDeadEnd(g: State, s: Socket)
    requires IsLive(g, s) && (!g.places[s].open || g.tunings[s].kind == ShutdownKind)
    ensures AfterShutdown(g, s) == g
  {
  }

  /** What a write on an open socket leaves in memory. */
  lemma WriteLeaves(g: State, s: Socket, asked: int, taken: int)
    requires IsLive(g, s) && g.places[s].open && g.tunings[s].kind != ShutdownKind
    ensures var h, t := AfterWrite(g, s, asked, taken), g.tunings[s];
            && Retuned(g, h, s) && s in h.tunings
            && (taken == asked ==> h.tunings[s] == t && h.filters == g.filters && h.failed == g.failed)
            && (taken != asked ==>
                  && h.failed
                  && h.tunings[s] == t.(interest := BOTH)
                  && h.filters == if t.interest == BOTH then g.filters
                                  else KqueueChange(g.filters, g.tags[s].fd, t.interest, BOTH, s))
  {
    hide KqueueChange;
    assert g.tunings[s := g.tunings[s]] == g.tunings;
    ChangeIs(Noted(g, Sent(g.tags[s].id, asked, taken)).(failed := true), s, BOTH);
  }

  lemma TimeoutLeaves(g: State, s: Socket, sweeps: nat)
    requires IsLive(g, s)
    ensures var h := AfterTimeout(g, s, sweeps);
            && Retuned(g, h, s) && s in h.tunings && h.failed == g.failed && h.filters == g.filters
            && h.tunings[s] == g.tunings[s].(timeout := sweeps)
  {
  }

  lemma ConnectedKeeps(g: State, s: Socket)
    requires Inv(g) && IsLive(g, s) && g.places[s].open && g.tunings[s].kind == SemiKind
    ensures Inv(AfterConnected(g, s))
  {
    hide ListsInv, PollInv, LifeInv, MaskInv;
    FitsAt(g, s);
    TunedAt(g, s);
    RetuneOpen(g, AfterConnected(g, s), s);
    RetuneLife(g, AfterConnected(g, s), s, Opened(g.tags[s].id));
    RetuneMasks(g, AfterConnected(g, s), s, Opened(g.tags[s].id));
  }

  lemma WritableKeeps(g: State, s: Socket)
    requires Inv(g) && IsLive(g, s) && g.places[s].open
    requires g.tunings[s].kind != SemiKind && g.tunings[s].interest.writable
    ensures Inv(AfterWritable(g, s))
  {
    hide ListsInv, PollInv, LifeInv, MaskInv;
    FitsAt(g, s);
    assert g.tunings[s := g.tunings[s]] == g.tunings;
    RetuneTimeout(g, AfterWritable(g, s), s);
    MaskAt(g, s);
    RetuneLife(g, AfterWritable(g, s), s, GotWritable(g.tags[s].id));
    RetuneMasks(g, AfterWritable(g, s), s, GotWritable(g.tags[s].id));
  }

  /** A writable dispatch that saw no write fail, or saw a shutdown, stops polling for writable. */
  lemma DrainKeeps(g: State, s: Socket)
    requires Inv(g) && IsLive(g, s) && g.places[s].open
    requires g.tunings[s].kind == ShutdownKind || (g.tunings[s].kind == SocketKind && !g.failed)
    requires LastTold(g.log, g.tags[s].id)
    ensures Inv(AfterDrain(g, s))
  {
    hide ListsInv, PollInv, LifeInv, MaskInv;
    FitsAt(g, s);
    var e := Drained(g.tags[s].id);
    var events := g.tunings[s].interest.And(READABLE);
    assert g.tunings[s := g.tunings[s]] == g.tunings;
    ChangeKeepsPoll(g, Noted(g, e), s, events);
    ChangeIs(Noted(g, e), s, events);
    ChangeIsChanged(Noted(g, e), s, events);
    RetuneLife(g, AfterDrain(g, s), s, e);
    RetuneMasks(g, AfterDrain(g, s), s, e);
  }

  lemma EndLeaves(g: State, s: Socket)
    requires IsLive(g, s)
    ensures var h, t, events := AfterEnd(g, s), g.tunings[s], g.tunings[s].interest.And(WRITABLE);
            && Retuned(g, h, s) && s in h.tunings && h.failed == g.failed
            && h.tunings[s] == (if t.interest == events then t else t.(interest := Stored(g.mapping, events)))
            && h.filters == (if t.interest == events then g.filters
                             else KqueueChange(g.filters, g.tags[s].fd, t.interest, events, s))
  {
    hide KqueueChange;
    assert g.tunings[s := g.tunings[s]] == g.tunings;
  }

  lemma DrainLeaves(g: State, s: Socket)
    requires IsLive(g, s)
    ensures var h, t, events := AfterDrain(g, s), g.tunings[s], g.tunings[s].interest.And(READABLE);
            && Retuned(g, h, s) && s in h.tunings && h.failed == g.failed
            && h.tunings[s] == (if t.interest == events then t else t.(interest := Stored(g.mapping, events)))
            && h.filters == (if t.interest == events then g.filters
                             else KqueueChange(g.filters, g.tags[s].fd, t.interest, events, s))
  {
    hide KqueueChange;
    assert g.tunings[s := g.tunings[s]] == g.tunings;
  }

  lemma ConnectedLeaves(g: State, s: Socket)
    requires IsLive(g, s)
    ensures var h := AfterConnected(g, s);
            && Retuned(g, h, s) && s in h.tunings && h.failed == g.failed && h.filters == g.filters
            && h.tunings[s] == g.tunings[s].(kind := SocketKind)
  {
  }

  lemma WritableLeaves(g: State, s: Socket)
    requires IsLive(g, s)
    ensures var h := AfterWritable(g, s);
            && Retuned(g, h, s) && s in h.tunings && !h.failed && h.filters == g.filters && h.tunings[s] == g.tunings[s]
  {
    assert g.tunings[s := g.tunings[s]] == g.tunings;
  }

  lemma VisitLeaves(g: State, s: Socket)
    requires IsLive(g, s)
    ensures var h, n := AfterVisit(g, s), g.tunings[s].timeout;
            && Retuned(g, h, s) && s in h.tunings && h.failed == g.failed && h.filters == g.filters
            && h.tunings[s] == g.tunings[s].(timeout := if n > 0 then n - 1 else 0)
  {
  }

  lemma NotedLeaves(g: State, s: Socket, e: Event)
    requires IsLive(g, s)
    ensures var h := Noted(g, e);
            && Retuned(g, h, s) && s in h.tunings && h.failed == g.failed && h.filters == g.filters &&
                h.tunings[s] == g.tunings[s]
  {
    assert g.tunings[s := g.tunings[s]] == g.tunings;
  }
}
