/**
 The kernel's filter table and the two-entry change list that keeps it in step with a
 poll's interest.
 */
module Kernel {
  import opened PollWord

  datatype Side = ReadSide | WriteSide

  /** Key of a registered filter: EVFILT_READ or EVFILT_WRITE on a descriptor. */
  datatype Filter = Filter(fd: int, side: Side)

  datatype Change<T> = Add(filter: Filter, user: T) | Delete(filter: Filter)

  /** The events for which `fd` has a filter. */
  function Registered<T>(table: map<Filter, T>, fd: int): Mask {
    Mask(Filter(fd, ReadSide) in table, Filter(fd, WriteSide) in table)
  }

  /**
   `kevent` with no room for errors: changes are applied in order until a delete names a
   filter that is not registered; nothing after that one is applied. Adding a registered
   filter replaces its user data.
   */
  function Submit<T>(table: map<Filter, T>, changes: seq<Change<T>>): map<Filter, T>
    decreases changes
  {
    if changes == [] then table
    else match changes[0]
         case Add(f, user) => Submit(table[f := user], changes[1..])
         case Delete(f) => if f in table then Submit(table - {f}, changes[1..]) else table
  }

  function ChangeFor<T>(fd: int, side: Side, add: bool, user: T): Change<T> {
    if add then Add(Filter(fd, side), user) else Delete(Filter(fd, side))
  }

  /** The change list that `asock_poll_kqueue_change` builds. */
  function ChangeList<T>(fd: int, had: Mask, want: Mask, user: T): seq<Change<T>> {
    (if want.readable != had.readable then [ChangeFor(fd, ReadSide, want.readable, user)] else []) +
    (if want.writable != had.writable then [ChangeFor(fd, WriteSide, want.writable, user)] else [])
  }

  function KqueueChange<T>(table: map<Filter, T>, fd: int, had: Mask, want: Mask, user: T): map<Filter, T> {
    Submit(table, ChangeList(fd, had, want, user))
  }

  /** Closing a descriptor removes every filter on it. */
  function Hangup<T>(table: map<Filter, T>, fd: int): map<Filter, T> {
    map f | f in table && f.fd != fd :: table[f]
  }

  /** Starting from the mask that is registered, exactly the new mask is registered afterwards. */
  lemma ChangeFromAgreement<T>(table: map<Filter, T>, fd: int, had: Mask, want: Mask, user: T)
    requires Registered(table, fd) == had
    ensures var t := KqueueChange(table, fd, had, want, user);
            && Registered(t, fd) == want
            && OtherDescriptorsUntouched(table, t, fd)
  {
    KqueueChangeEffect(table, fd, had, want, user);
  }

  ghost predicate OtherDescriptorsUntouched<T>(before: map<Filter, T>, after: map<Filter, T>, fd: int) {
    && (forall f | f in before && f.fd != fd :: f in after && after[f] == before[f])
    && (forall f | f in after && f.fd != fd :: f in before)
  }

  /** Changes on one descriptor leave the others alone and install no user data but their own. */
  lemma {:induction false} SubmitFrame<T>(table: map<Filter, T>, changes: seq<Change<T>>, fd: int, user: T)
    requires forall c | c in changes :: c.filter.fd == fd && (c.Add? ==> c.user == user)
    ensures var t := Submit(table, changes);
            && OtherDescriptorsUntouched(table, t, fd)
            && (forall f | f in t && f.fd == fd :: (f in table && t[f] == table[f]) || t[f] == user)
    decreases changes
  {
    if changes != [] {
      var rest := changes[1..];
      assert forall c | c in rest :: c in changes;
      match changes[0]
      case Add(f, u) =>
        assert changes[0] in changes;
        SubmitFrame(table[f := u], rest, fd, user);
      case Delete(f) =>
        assert changes[0] in changes;
        if f in table {
          SubmitFrame(table - {f}, rest, fd, user);
        }
    }
  }

  lemma SubmitPair<T>(table: map<Filter, T>, a: Change<T>, b: Change<T>)
    ensures Submit(table, [a]) == (if a.Add? then table[a.filter := a.user] else table - {a.filter})
    ensures Submit(table, [a, b]) == (if a.Delete? && a.filter !in table then table
            else Submit(Submit(table, [a]), [b]))
  {
    assert [a][1..] == [];
    assert [a, b][1..] == [b];
  }

  /** What any change list on `fd` does, agreement or not. */
  lemma KqueueChangeEffect<T>(table: map<Filter, T>, fd: int, had: Mask, want: Mask, user: T)
    ensures var t := KqueueChange(table, fd, had, want, user);
            && OtherDescriptorsUntouched(table, t, fd)
            && (forall f | f in t && f.fd == fd :: (f in table && t[f] == table[f]) || t[f] == user)
            && Registered(t, fd) == Applied(had, want, Registered(table, fd))
  {
    var r := ChangeFor(fd, ReadSide, want.readable, user);
    var w := ChangeFor(fd, WriteSide, want.writable, user);
    SubmitFrame(table, ChangeList(fd, had, want, user), fd, user);
    SubmitPair(table, r, w);
    SubmitPair(Submit(table, [r]), w, w);
    SubmitPair(table, w, w);
    assert [r] + [w] == [r, w];
    assert [] + [w] == [w] && [r] + [] == [r];
  }

  /** The registered mask after submitting the changes from `old` to `new`, rejected deletes included. */
  function Applied(had: Mask, want: Mask, registered: Mask): Mask {
    if had.readable != want.readable && !want.readable && !registered.readable then registered
    else var r := if had.readable != want.readable then want.readable else registered.readable;
         if had.writable != want.writable && !want.writable && !registered.writable then Mask(r, registered.writable)
         else Mask(r, if had.writable != want.writable then want.writable else registered.writable)
  }

  /** Re-registering a mask from scratch points every filter in the mask at `user`. */
  lemma Reregister<T>(table: map<Filter, T>, fd: int, events: Mask, user: T)
    ensures var t := KqueueChange(table, fd, NONE, events, user);
            && OtherDescriptorsUntouched(table, t, fd)
            && (events.readable ==> Filter(fd, ReadSide) in t && t[Filter(fd, ReadSide)] == user)
            && (events.writable ==> Filter(fd, WriteSide) in t && t[Filter(fd, WriteSide)] == user)
            && (!events.readable ==> (Filter(fd, ReadSide) in t <==> Filter(fd, ReadSide) in table))
            && (!events.writable ==> (Filter(fd, WriteSide) in t <==> Filter(fd, WriteSide) in table))
            && (!events.readable && Filter(fd, ReadSide) in t ==>
                t[Filter(fd, ReadSide)] == table[Filter(fd, ReadSide)])
            && (!events.writable && Filter(fd, WriteSide) in t ==>
                t[Filter(fd, WriteSide)] == table[Filter(fd, WriteSide)])
  {
    var r := ChangeFor(fd, ReadSide, true, user);
    var w := ChangeFor(fd, WriteSide, true, user);
    KqueueChangeEffect(table, fd, NONE, events, user);
    SubmitPair(table, r, w);
    SubmitPair(Submit(table, [r]), w, w);
    SubmitPair(table, w, w);
    assert [r] + [w] == [r, w];
    assert [] + [w] == [w] && [r] + [] == [r];
  }

  // ---------- cached interest against registered filters, over a poll's whole life ----------

  /** One poll: the interest cached in its word and the events registered for its descriptor. */
  datatype Poll = Poll(cached: Mask, registered: Mask) {
    predicate Agrees() { cached == registered }
  }

  function Started(events: Mask): Poll {
    Poll(events, Applied(NONE, events, NONE))
  }

  /** `asock_poll_change`: nothing happens when the cached mask already reads as `events`. */
  function Changed(mapping: Mapping, p: Poll, events: Mask): Poll {
    if p.cached == events then p
    else Poll(Stored(mapping, events), Applied(p.cached, events, p.registered))
  }

  function Run(mapping: Mapping, p: Poll, masks: seq<Mask>): Poll {
    if masks == [] then p else Changed(mapping, Run(mapping, p, masks[..|masks| - 1]), masks[|masks| - 1])
  }

  ghost predicate AlwaysAgrees(mapping: Mapping, p: Poll, masks: seq<Mask>) {
    forall i | 0 <= i <= |masks| :: Run(mapping, p, masks[..i]).Agrees()
  }

  /** With uncrossed bits, cache and kernel agree at every point of every run. */
  lemma {:induction false} IntendedAlwaysAgrees(events: Mask, masks: seq<Mask>)
    ensures AlwaysAgrees(AsIntended, Started(events), masks)
  {
    forall i | 0 <= i <= |masks|
      ensures Run(AsIntended, Started(events), masks[..i]).Agrees()
    {
      IntendedAgrees(events, masks[..i]);
    }
  }

  lemma {:induction false} IntendedAgrees(events: Mask, masks: seq<Mask>)
    ensures Run(AsIntended, Started(events), masks).Agrees()
  {
    if masks != [] {
      IntendedAgrees(events, masks[..|masks| - 1]);
    }
  }

  /**
   As written, the two agree throughout a run if and only if every request is either the
   mask the poll was started with before any effective change, or one of the two masks
   that crossing leaves alone.
   */
  ghost predicate OnlySymmetric(events: Mask, masks: seq<Mask>) {
    forall i | 0 <= i < |masks| ::
      masks[i] == NONE || masks[i] == BOTH || (masks[i] == events && forall j | 0 <= j < i :: masks[j] == events)
  }

  lemma {:induction false} WrittenAgreesExactly(events: Mask, masks: seq<Mask>)
    ensures AlwaysAgrees(AsWritten, Started(events), masks) <==> OnlySymmetric(events, masks)
  {
    if masks == [] {
      assert masks[..0] == [];
    } else {
      var n := |masks| - 1;
      var front, last := masks[..n], masks[n];
      WrittenAgreesExactly(events, front);
      AgreesFront(AsWritten, Started(events), masks);
      SymmetricFront(events, masks);
      if OnlySymmetric(events, front) {
        SymmetricReach(events, front);
        assert front[..n] == front;
        assert Run(AsWritten, Started(events), front).Agrees();
        CrossedStep(Run(AsWritten, Started(events), front), last);
      }
    }
  }

  lemma AgreesFront(mapping: Mapping, p: Poll, masks: seq<Mask>)
    requires masks != []
    ensures AlwaysAgrees(mapping, p, masks) <==>
            AlwaysAgrees(mapping, p, masks[..|masks| - 1]) && Run(mapping, p, masks).Agrees()
  {
    var front := masks[..|masks| - 1];
    assert forall i | 0 <= i < |masks| :: masks[..i] == front[..i];
    assert masks[..|masks|] == masks;
    if AlwaysAgrees(mapping, p, masks) {
      assert Run(mapping, p, masks[..|masks|]).Agrees();
      forall i | 0 <= i <= |front| ensures Run(mapping, p, front[..i]).Agrees() {
        assert Run(mapping, p, masks[..i]).Agrees();
      }
    }
  }

  lemma SymmetricFront(events: Mask, masks: seq<Mask>)
    requires masks != []
    ensures var n := |masks| - 1;
            OnlySymmetric(events, masks) <==>
            OnlySymmetric(events, masks[..n]) &&
            (masks[n] == NONE || masks[n] == BOTH ||
             (masks[n] == events && forall j | 0 <= j < n :: masks[..n][j] == events))
  {
    var front := masks[..|masks| - 1];
    assert forall i | 0 <= i < |front| :: front[i] == masks[i];
  }

  /** From agreement, one crossed change keeps agreement if it is a no-op or its mask is symmetric. */
  lemma CrossedStep(p: Poll, events: Mask)
    requires p.Agrees()
    ensures Changed(AsWritten, p, events).Agrees() <==> events == p.cached || events == NONE || events == BOTH
  {
  }

  /** Under the condition, the cached mask is the starting one, or none, or both. */
  lemma {:induction false} SymmetricReach(events: Mask, masks: seq<Mask>)
    requires OnlySymmetric(events, masks)
    ensures var c := Run(AsWritten, Started(events), masks).cached;
            if forall j | 0 <= j < |masks| :: masks[j] == events then c == events else c == NONE || c == BOTH
  {
    if masks != [] {
      var n := |masks| - 1;
      var front := masks[..n];
      assert forall i | 0 <= i < n :: front[i] == masks[i];
      SymmetricReach(events, front);
    }
  }

  /**
   The failure seen by a server: a short write, a completed writable dispatch and a second
   short write leave WRITABLE cached but not registered, so no writable event follows.
   */
  lemma WrittenLosesWritable()
    ensures Run(AsWritten, Started(READABLE), [BOTH, READABLE]) == Poll(WRITABLE, READABLE)
    ensures Run(AsWritten, Started(READABLE), [BOTH, READABLE, BOTH]) == Poll(BOTH, READABLE)
  {
    var p := Started(READABLE);
    assert [BOTH, READABLE, BOTH][..2] == [BOTH, READABLE];
    assert [BOTH, READABLE][..1] == [BOTH];
    assert [BOTH][..0] == [];
    assert Run(AsWritten, p, [BOTH]) == Poll(BOTH, BOTH);
    assert Run(AsWritten, p, [BOTH, READABLE]) == Poll(WRITABLE, READABLE);
  }
}
