/**
 The loop in memory. Each method does to the fields of sockets, contexts and the loop what
 the library's function does, and says what became of the abstract state `g`.
 */
module EventLoop {
  import opened Batch
  import opened Interference
  import opened Journal
  import opened Kernel
  import opened Memory
  import opened PollWord
  import opened Relinking
  import opened Repolling
  import opened Retuning
  import opened Sequences
  import opened State
  import opened Steps
  import opened Sweeping
  import opened Timeouts

  const READY_POLLS := 1024

  ghost function ContextAt(s: seq<Context>, i: nat): Context? {
    if i < |s| then s[i] else null
  }

  class Loop {
    const mapping: Mapping

    var head: Context?
    var cursor: Context?
    var closedHead: Socket?
    var lastWriteFailed: bool
    var numPolls: int
    var numReady: int
    var current: nat
    const ready: array<Entry>

    // The kernel's side: the filters registered with the loop's queue, and what waits to be accepted.
    var kq: map<Filter, Socket>
    var queues: Queues

    // The application's side: the sockets and contexts it may name in a call.
    var sockets: set<Socket>
    var contexts: set<Context>
    var nextTag: nat

    ghost var g: State

    // ---------- the state that memory represents ----------

    static ghost predicate SocketRepr(s: Socket, place: Place, tag: Tag, tuning: Tuning)
      reads s`fd, s`ext, s`listens, s`word, s`timeout, s`context
    {
      SocketIs(s, place, tag, tuning)
    }

    static ghost predicate SocketIs(s: Socket, place: Place, tag: Tag, tuning: Tuning)
      reads s`fd, s`ext, s`listens, s`word, s`timeout, s`context
    {
      && s.fd == tag.fd && s.ext == tag.id && s.listens == tag.listens
      && PollType(s.word) == tuning.kind && PollEvents(s.word) == tuning.interest
      && s.timeout == tuning.timeout
      && s.context == place.ctx
    }

    /** The sockets of `block` are as the maps say. */
    static ghost predicate Represents(block: set<Socket>, places: map<Socket, Place>, tags: map<Socket, Tag>,
                                      tunings: map<Socket, Tuning>)
      reads block`fd, block`ext, block`listens, block`word, block`timeout, block`context
    {
      forall s | s in block :: s in places && s in tags && s in tunings && SocketRepr(s, places[s], tags[s], tunings[s])
    }

    ghost predicate SocketsRepr(places: map<Socket, Place>, tags: map<Socket, Tag>, tunings: map<Socket, Tuning>)
      reads this`sockets, sockets`fd, sockets`ext, sockets`listens, sockets`word, sockets`timeout, sockets`context
    {
      sockets == places.Keys && Represents(sockets, places, tags, tunings)
    }

    ghost predicate ListsRepr(lines: map<Context, Line>)
      reads this`contexts, this`sockets, contexts`head, contexts`cursor, contexts`list, contexts`done, contexts`todo
      reads sockets`next, sockets`prev
    {
      && contexts == lines.Keys
      && forall c | c in contexts ::
        && (forall x | x in c.list :: x in sockets)
        && c.Valid() && c in lines && c.done == lines[c].done && c.todo == lines[c].todo
    }

    /** The close list, linked through the same `next` field, from `first` on. */
    static ghost predicate ClosedFrom(first: Socket?, closed: seq<Socket>)
      reads closed`next, closed`prev, closed`context
    {
      && first == At(closed, 0)
      && (forall i, j | 0 <= i < j < |closed| && j == i + 1 :: closed[i].next == closed[j])
      && (closed != [] ==> closed[|closed| - 1].next == null)
      && (forall x | x in closed :: x.prev == Owner(x.context))
    }

    static ghost predicate ContextsLinked(order: seq<Context>)
      reads order`next
    {
      && (forall i, j | 0 <= i < j < |order| && j == i + 1 :: order[i].next == order[j])
      && (order != [] ==> order[|order| - 1].next == null)
    }

    ghost predicate ContextsRepr(passed: seq<Context>, ahead: seq<Context>)
      reads this`head, this`cursor, passed`next, ahead`next
    {
      && ContextsLinked(passed + ahead)
      && head == ContextAt(passed + ahead, 0) && cursor == ContextAt(ahead, 0)
    }

    ghost predicate FieldsRepr(h: State)
      reads this`lastWriteFailed, this`numPolls, this`kq, this`queues, this`nextTag
    {
      && mapping == h.mapping && lastWriteFailed == h.failed && numPolls == h.count
      && kq == h.filters && queues == h.queues && nextTag == h.nextId
    }

    /** The entries from the current one to the end of the batch. */
    function Pending(): seq<Entry>
      reads this`current, this`numReady, ready
    {
      if current <= numReady <= ready.Length then ready[current..numReady] else []
    }

    ghost predicate BatchRepr(pending: seq<Entry>)
      reads this`current, this`numReady, ready
    {
      ready.Length == READY_POLLS && -1 <= numReady <= READY_POLLS && Pending() == pending
    }

    /** Memory represents the state `h`. */
    ghost predicate Repr(h: State)
      reads this`sockets, this`contexts, this`head, this`cursor, this`closedHead
      reads this`lastWriteFailed, this`numPolls, this`kq, this`queues, this`nextTag, this`current, this`numReady
      reads ready, sockets, contexts, h.closed, h.passed, h.ahead
    {
      && SocketsRepr(h.places, h.tags, h.tunings)
      && ListsRepr(h.lines)
      && ClosedFrom(closedHead, h.closed)
      && ContextsRepr(h.passed, h.ahead)
      && FieldsRepr(h)
      && BatchRepr(h.pending)
    }

    /** Memory represents `g`, which satisfies the invariant. */
    ghost predicate Good()
      reads this, ready, sockets, contexts, g.closed, g.passed, g.ahead
    {
      Repr(g) && Inv(g)
    }

    lemma Parts()
      requires Good()
      ensures SocketsRepr(g.places, g.tags, g.tunings) && ListsRepr(g.lines)
      ensures ClosedFrom(closedHead, g.closed) && ContextsRepr(g.passed, g.ahead)
      ensures FieldsRepr(g) && BatchRepr(g.pending) && Inv(g)
    {
      hide Inv, SocketsRepr, ListsRepr, ClosedFrom, ContextsRepr, FieldsRepr, BatchRepr;
    }

    lemma Whole(h: State)
      requires SocketsRepr(h.places, h.tags, h.tunings) && ListsRepr(h.lines)
      requires ClosedFrom(closedHead, h.closed) && ContextsRepr(h.passed, h.ahead)
      requires FieldsRepr(h) && BatchRepr(h.pending)
      ensures Repr(h)
    {
      hide SocketsRepr, ListsRepr, ClosedFrom, ContextsRepr, FieldsRepr, BatchRepr;
    }

    // ---------- polls ----------

    method KqueueChange(fd: int, had: Mask, want: Mask, user: Socket)
      modifies this`kq
      ensures kq == Kernel.KqueueChange(old(kq), fd, had, want, user)
    {
      var changes: seq<Change<Socket>> := [];
      if want.readable != had.readable {
        changes := changes + [if want.readable then Add(Filter(fd, ReadSide), user) else Delete(Filter(fd, ReadSide))];
      }
      if want.writable != had.writable {
        changes := changes + [if want.writable then Add(Filter(fd, WriteSide), user)
            else Delete(Filter(fd, WriteSide))];
      }
      assert changes == ChangeList(fd, had, want, user);
      kq := Submit(kq, changes);
    }

    method PollStart(p: Socket, events: Mask)
      modifies p`word, this`kq
      ensures PollType(p.word) == PollType(old(p.word)) && PollEvents(p.word) == events
      ensures kq == Kernel.KqueueChange(old(kq), p.fd, NONE, events, p)
    {
      StartDecodes(p.word, events);
      p.word := StartWord(p.word, events);
      KqueueChange(p.fd, NONE, events, p);
    }

    method PollSetType(p: Socket, kind: Kind)
      modifies p`word
      ensures PollType(p.word) == kind && PollEvents(p.word) == PollEvents(old(p.word))
    {
      SetTypeDecodes(p.word, kind);
      p.word := SetTypeWord(p.word, kind);
    }

    method PollChange(p: Socket, events: Mask)
      modifies p`word, this`kq
      ensures PollType(p.word) == PollType(old(p.word))
      ensures var had := PollEvents(old(p.word));
              if had == events then p.word == old(p.word) && kq == old(kq)
              else PollEvents(p.word) == Stored(mapping, events) &&
                   kq == Kernel.KqueueChange(old(kq), p.fd, had, events, p)
    {
      var had := PollEvents(p.word);
      if had != events {
        ChangeDecodes(mapping, p.word, events);
        p.word := ChangeWord(mapping, p.word, events);
        KqueueChange(p.fd, had, events, p);
      }
    }

    /**
     The search has come to `i`, with `k` hits left: before it the array is as `all` says, from
     it on as it was, and the rest of the search makes the rest of `all`.
     */
    ghost predicate Searched(was: seq<Entry>, entries: seq<Entry>, all: seq<Entry>, s: Socket, t: Target,
                             k: nat, i: nat)
      reads this`current, ready
    {
      && |was| == ready.Length && |all| == |entries| && current <= i <= current + |entries|
      && (entries != [] ==> current + |entries| <= |was| && entries == was[current..current + |entries|])
      && (forall j | 0 <= j < |was| :: ready[j] == if current <= j < i then all[j - current] else was[j])
      && RetargetUpTo(entries[i - current..], s, t, k) == all[i - current..]
    }

    /** One turn of the search. */
    method SearchOne(s: Socket, t: Target, k: nat, i: nat, ghost was: seq<Entry>, ghost entries: seq<Entry>,
                     ghost all: seq<Entry>)
      returns (left: nat)
      requires Searched(was, entries, all, s, t, k, i) && i < current + |entries| && k > 0
      modifies ready
      ensures Searched(was, entries, all, s, t, left, i + 1)
    {
      hide RetargetUpTo;
      SearchStep(entries, all, s, t, k, i - current);
      assert ready[i] == entries[i - current];
      left := k;
      if ready[i].target == ToSocket(s) {
        ready[i] := ready[i].(target := t);
        left := k - 1;
      }
    }

    /** When the search ends, the array is as it should be. */
    lemma SearchOver(was: seq<Entry>, entries: seq<Entry>, all: seq<Entry>, s: Socket, t: Target, k: nat, i: nat)
      requires Searched(was, entries, all, s, t, k, i) && (i == current + |entries| || k == 0)
      ensures forall j | 0 <= j < |was| ::
                ready[j] == if current <= j < current + |all| then all[j - current] else was[j]
    {
      hide RetargetUpTo;
      SearchEnd(entries, all, s, t, k, i - current);
    }

    lemma SearchBegins(entries: seq<Entry>, s: Socket, t: Target)
      requires numReady <= ready.Length && entries == Pending()
      ensures Searched(ready[..], entries, RetargetUpTo(entries, s, t, 2), s, t, 2, current)
    {
      hide RetargetUpTo;
      SameLength(entries, s, t, 2);
      assert entries[0..] == entries;
      var all := RetargetUpTo(entries, s, t, 2);
      assert all[0..] == all;
    }

    /** Rewrites entries for `s` from the current one on, giving up after two hits. */
    method UpdatePending(s: Socket, t: Target)
      requires numReady <= ready.Length
      modifies ready
      ensures Pending() == RetargetUpTo(old(Pending()), s, t, 2)
      ensures forall k | 0 <= k < ready.Length && !(current <= k < numReady) :: ready[k] == old(ready[k])
    {
      hide RetargetUpTo, Searched;
      ghost var was, entries := ready[..], Pending();
      ghost var all := RetargetUpTo(entries, s, t, 2);
      SearchBegins(entries, s, t);
      SameLength(entries, s, t, 2);
      var remaining: nat := 2;
      var i := current;
      while i < numReady && remaining != 0
        invariant current <= i <= current + |entries| && Searched(was, entries, all, s, t, remaining, i)
      {
        remaining := SearchOne(s, t, remaining, i, was, entries, all);
        i := i + 1;
      }
      SearchOver(was, entries, all, s, t, remaining, i);
    }

    method PollStop(p: Socket)
      requires numReady <= ready.Length
      modifies this`kq, ready
      ensures kq == Kernel.KqueueChange(old(kq), p.fd, PollEvents(p.word), NONE, p)
      ensures Pending() == RetargetUpTo(old(Pending()), p, Nothing, 2)
    {
      var had := PollEvents(p.word);
      if had != NONE {
        KqueueChange(p.fd, had, NONE, p);
      }
      UpdatePending(p, Nothing);
    }

    // ---------- sockets ----------

    lemma Live(s: Socket)
      requires Good() && s in sockets
      ensures IsLive(g, s) && g.places[s].ctx in contexts
      ensures SocketIs(s, g.places[s], g.tags[s], g.tunings[s])
    {
      hide PollInv, LifeInv, MaskInv, LinesOk, ClosedOk, ContextsOk, ClosedFrom, ContextsRepr, FieldsRepr, BatchRepr;
    }

    /** The mark `prev == context` is on a socket exactly when it is closed, and so on the close list. */
    lemma ClosedMark(s: Socket)
      requires Good() && s in sockets
      ensures s.IsClosed() <==> !g.places[s].open
      ensures s.IsClosed() <==> s in g.closed
    {
      hide PollInv, LifeInv, MaskInv, LinesOk, ContextsOk, ContextsRepr, FieldsRepr, BatchRepr;
      Live(s);
      if g.places[s].open {
        var c := g.places[s].ctx;
        assert g.lines[c].Has(s);
        assert c.Valid() && s in c.list;
        LinkedMark(c, s);
      }
    }

    static lemma LinkedMark(c: Context, s: Socket)
      requires c.Valid() && s in c.list
      ensures !s.prev.Owner?
    {
      var i :| 0 <= i < |c.list| && c.list[i] == s;
      assert i > 0 ==> c.list[i - 1].next == c.list[i];
    }

    /** Memory represents every socket but `s`. */
    ghost predicate OthersRepr(b: State, s: Socket)
      reads this`sockets, (sockets - {s})`fd, (sockets - {s})`ext, (sockets - {s})`listens, (sockets - {s})`word
      reads (sockets - {s})`timeout, (sockets - {s})`context
    {
      sockets == b.places.Keys && Represents(sockets - {s}, b.places, b.tags, b.tunings)
    }

    /** Memory represents `b`, but for one socket and the fields of the loop. */
    ghost predicate Around(b: State, s: Socket)
      reads this`sockets, (sockets - {s})`fd, (sockets - {s})`ext, (sockets - {s})`listens, (sockets - {s})`word
      reads (sockets - {s})`timeout, (sockets - {s})`context
      reads this`contexts, contexts`head, contexts`cursor, contexts`list, contexts`done, contexts`todo
      reads sockets`next, sockets`prev, this`closedHead, b.closed`next, b.closed`prev, b.closed`context
      reads this`head, this`cursor, b.passed`next, b.ahead`next, this`current, this`numReady, ready
    {
      && OthersRepr(b, s) && ListsRepr(b.lines)
      && ClosedFrom(closedHead, b.closed) && ContextsRepr(b.passed, b.ahead) && BatchRepr(b.pending)
    }

    lemma GoodAround(s: Socket)
      requires Good()
      ensures Around(g, s) && FieldsRepr(g) && Inv(g)
    {
      hide Inv, ListsRepr, ClosedFrom, ContextsRepr, FieldsRepr, BatchRepr, SocketRepr;
    }

    /** The socket has been retuned to match `h`. */
    lemma GoodAgain(b: State, h: State, s: Socket)
      requires IsLive(b, s) && Retuned(b, h, s) && s in h.tunings && Around(b, s)
      requires SocketIs(s, b.places[s], b.tags[s], h.tunings[s])
      requires mapping == b.mapping && numPolls == b.count && nextTag == b.nextId && queues == b.queues
      requires kq == h.filters && lastWriteFailed == h.failed
      ensures Repr(h)
    {
      hide ListsRepr, ClosedFrom, ContextsRepr, BatchRepr, SocketIs;
    }

    /** `asock_socket_timeout`. A count too large for the field leaves an unknown value in it. */
    method Timeout(s: Socket, seconds: nat) returns (sweeps: nat)
      requires Good() && s in sockets
      modifies s`timeout, this`g
      ensures Good() && g == AfterTimeout(old(g), s, sweeps)
      ensures sweeps < SHORT_LIMIT && (Sweeps(seconds) < SHORT_LIMIT ==> sweeps == Sweeps(seconds))
      ensures if seconds == 0 then sweeps == 0 else sweeps >= 1
    {
      hide Repr, Inv, Around, Retuned, AfterTimeout, Rounded, PollType, PollEvents;
      Live(s);
      GoodAround(s);
      sweeps := 0;
      if seconds != 0 {
        sweeps := Rounded(seconds);
        if sweeps >= SHORT_LIMIT {
          sweeps := *;
          sweeps := sweeps % SHORT_LIMIT;
        }
        sweeps := if sweeps != 0 then sweeps else 1;
      }
      s.timeout := sweeps;
      TimeoutKeeps(g, s, sweeps);
      TimeoutLeaves(g, s, sweeps);
      GoodAgain(g, AfterTimeout(g, s, sweeps), s);
      g := AfterTimeout(g, s, sweeps);
    }

    /** The shutdown of a socket that is open and not shut down. */
    method ShutdownOpen(s: Socket)
      requires Good() && s in sockets && !s.IsClosed() && PollType(s.word) != ShutdownKind
      modifies s`word, this`kq, this`g
      ensures IsLive(old(g), s) && Good() && g == AfterShutdown(old(g), s)
    {
      hide Repr, Inv, Around, Retuned, PollType, PollEvents, AfterShutdown;
      ClosedMark(s);
      Live(s);
      GoodAround(s);
      ShutdownKeeps(g, s);
      ShutdownLeaves(g, s);
      PollSetType(s, ShutdownKind);
      PollChange(s, PollEvents(s.word).And(READABLE));
      GoodAgain(g, AfterShutdown(g, s), s);
      g := AfterShutdown(g, s);
    }

    /** `asock_socket_shutdown`. */
    method Shutdown(s: Socket)
      requires Good() && s in sockets
      modifies s`word, this`kq, this`g
      ensures IsLive(old(g), s) && Good() && g == AfterShutdown(old(g), s)
    {
      hide Repr, Inv, PollType, PollEvents, AfterShutdown;
      ClosedMark(s);
      Live(s);
      if s.IsClosed() || PollType(s.word) == ShutdownKind {
        ShutdownOnDeadEnd(g, s);
      } else {
        ShutdownOpen(s);
      }
    }

    /** A write fell short: remember it, and poll for both events. */
    method NoteShortWrite(s: Socket)
      modifies s`word, this`kq, this`lastWriteFailed
      ensures lastWriteFailed
      ensures PollType(s.word) == PollType(old(s.word)) && PollEvents(s.word) == BOTH
      ensures var had := PollEvents(old(s.word));
              kq == if had == BOTH then old(kq) else Kernel.KqueueChange(old(kq), s.fd, had, BOTH, s)
    {
      lastWriteFailed := true;
      PollChange(s, BOTH);
    }

    /** `send` took everything: nothing changes in memory. */
    ghost method WriteWhole(s: Socket, length: nat)
      requires Good() && s in sockets && !s.IsClosed() && PollType(s.word) != ShutdownKind
      modifies this`g
      ensures IsLive(old(g), s) && Good() && g == AfterWrite(old(g), s, length, length)
    {
      hide Repr, Inv, Around, Retuned, PollType, PollEvents, AfterWrite;
      ClosedMark(s);
      Live(s);
      GoodAround(s);
      WriteKeeps(g, s, length, length);
      WriteLeaves(g, s, length, length);
      GoodAgain(g, AfterWrite(g, s, length, length), s);
      g := AfterWrite(g, s, length, length);
    }

    /** `send` took less, or failed: that is noted, and the socket polls for both events. */
    method WriteShort(s: Socket, length: nat, taken: int)
      requires Good() && s in sockets && !s.IsClosed() && PollType(s.word) != ShutdownKind && taken != length
      modifies s`word, this`kq, this`lastWriteFailed, this`g
      ensures IsLive(old(g), s) && Good() && g == AfterWrite(old(g), s, length, taken)
    {
      hide Repr, Inv, Around, Retuned, PollType, PollEvents, AfterWrite, Kernel.KqueueChange;
      ClosedMark(s);
      Live(s);
      GoodAround(s);
      WriteKeeps(g, s, length, taken);
      WriteLeaves(g, s, length, taken);
      NoteShortWrite(s);
      GoodAgain(g, AfterWrite(g, s, length, taken), s);
      g := AfterWrite(g, s, length, taken);
    }

    /** A write on a socket that is open and not shut down: the kernel takes any part of it, or fails. */
    method WriteOpen(s: Socket, length: nat) returns (taken: int)
      requires Good() && s in sockets && !s.IsClosed() && PollType(s.word) != ShutdownKind
      modifies s`word, this`kq, this`lastWriteFailed, this`g
      ensures IsLive(old(g), s) && Good() && -1 <= taken <= length && g == AfterWrite(old(g), s, length, taken)
    {
      hide Good, Inv, PollType, PollEvents, AfterWrite;
      taken := *;
      if taken < -1 || taken > length {
        taken := -1;
      }
      if taken == length {
        WriteWhole(s, length);
      } else {
        WriteShort(s, length, taken);
      }
    }

    /** `asock_socket_write`: `taken` is what `send` returns, anything from -1 to `length`. */
    method Write(s: Socket, length: nat) returns (written: nat, ghost taken: int)
      requires Good() && s in sockets
      modifies s`word, this`kq, this`lastWriteFailed, this`g
      ensures IsLive(old(g), s) && Good() && -1 <= taken <= length && g == AfterWrite(old(g), s, length, taken)
      ensures written == if old(s.IsClosed() || PollType(s.word) == ShutdownKind) || taken < 0 then 0 else taken
    {
      hide Repr, Inv, PollType, PollEvents, AfterWrite;
      ClosedMark(s);
      Live(s);
      if s.IsClosed() || PollType(s.word) == ShutdownKind {
        WriteOnDeadEnd(g, s, length, 0);
        written, taken := 0, 0;
      } else {
        var sent := WriteOpen(s, length);
        written, taken := if sent < 0 then 0 else sent, sent;
      }
    }

    // ---------- lists ----------

    /** Sockets in a context's list are that context's, so lists do not overlap. */
    lemma ListOf(b: State, c: Context)
      requires ListsRepr(b.lines) && LinesOk(b.places, b.lines) && c in contexts
      ensures forall x | x in c.list :: LinkedIn(b.places, c, x)
    {
      hide Sorted;
      assert LineOk(b.places, c, b.lines[c]);
      assert c.Valid();
    }

    lemma Apart(b: State, c: Context)
      requires ListsRepr(b.lines) && LinesOk(b.places, b.lines) && ClosedOk(b.places, b.closed) && c in contexts
      ensures forall k | k in contexts && k != c :: Disjoint(k.list, c.list)
      ensures Disjoint(b.closed, c.list)
    {
      hide LinesOk, ListsRepr;
      ListOf(b, c);
      forall k | k in contexts && k != c
        ensures Disjoint(k.list, c.list)
      {
        ListOf(b, k);
      }
    }

    /** An open socket is in its context's list. */
    lemma InList(s: Socket)
      requires ListsRepr(g.lines) && PlacesOk(g.places, g.lines, g.clock) && IsOpen(g.places, s)
      ensures g.places[s].ctx in contexts && s in g.places[s].ctx.list
    {
      var c := g.places[s].ctx;
      assert c.Valid();
    }

    method UnlinkSocket(c: Context, s: Socket)
      requires ListsRepr(g.lines) && ClosedFrom(closedHead, g.closed) && ListsInv(g)
      requires IsOpen(g.places, s) && c == g.places[s].ctx
      modifies c`head, c`cursor, c`list, c`done, c`todo, c.list`next, c.list`prev
      ensures c in g.lines && ListsRepr(g.lines[c := g.lines[c].Drop(s)])
      ensures ClosedFrom(closedHead, g.closed)
    {
      hide LinesOk, PlacesOk, ClosedOk, ContextsOk, Context.Valid, Without, ClosedFrom;
      InList(s);
      Apart(g, c);
      WithoutMembers(c.list, s);
      assert c.Valid();
      c.Unlink(s);
      assert forall k, x | k in contexts && k != c && x in k.list :: x.next == old(x.next) && x.prev == old(x.prev);
      assert forall x | x in g.closed :: x.next == old(x.next) && x.prev == old(x.prev);
    }

    /** Puts an unlinked socket on the close list and marks it with its own context. */
    method PushClosed(s: Socket, ghost lines: map<Context, Line>)
      requires ListsRepr(lines) && Nowhere(lines, s) && ClosedFrom(closedHead, g.closed) && s !in g.closed
      modifies s`next, s`prev, this`closedHead
      ensures ListsRepr(lines) && ClosedFrom(closedHead, [s] + g.closed)
    {
      hide Context.Valid;
      NotListed(s, lines);
      s.next := closedHead;
      closedHead := s;
      s.prev := Owner(s.context);
      assert forall c, x | c in contexts && x in c.list :: x.next == old(x.next) && x.prev == old(x.prev);
    }

    lemma ListIsLine(c: Context, lines: map<Context, Line>)
      requires ListsRepr(lines) && c in contexts
      ensures c in lines && c.list == lines[c].done + lines[c].todo
    {
    }

    /** Stops polling `s` and closes its descriptor, which drops every filter on it. */
    method HangUp(s: Socket)
      requires BatchRepr(g.pending) && AtMostTwice(g.pending)
      modifies this`kq, ready
      ensures kq == Hangup(old(kq), s.fd)
      ensures BatchRepr(Retarget(g.pending, s, Nothing))
    {
      hide RetargetUpTo, Retarget, AtMostTwice, Submit, Hangup;
      TwoHitsSuffice(g.pending, s, Nothing);
      StopThenHangup(kq, s.fd, PollEvents(s.word), s);
      PollStop(s);
      kq := Hangup(kq, s.fd);
    }

    static lemma StopThenHangup(table: map<Filter, Socket>, fd: int, had: Mask, user: Socket)
      ensures Hangup(Kernel.KqueueChange(table, fd, had, NONE, user), fd) == Hangup(table, fd)
    {
      hide Kernel.KqueueChange;
      KqueueChangeEffect(table, fd, had, NONE, user);
    }

    lemma CloseSockets(s: Socket)
      requires SocketsRepr(g.places, g.tags, g.tunings) && IsLive(g, s)
      ensures var h := AfterCloseQuietly(g, s); SocketsRepr(h.places, h.tags, h.tunings)
    {
      hide PollType, PollEvents, Hangup, Retarget;
    }

    /** What closing leaves in memory. */
    lemma CloseLeaves(s: Socket)
      requires Inv(g) && IsLive(g, s) && g.places[s].open
      ensures AtMostTwice(g.pending) && s !in g.closed
      ensures var h, c := AfterCloseQuietly(g, s), g.places[s].ctx;
              && h.lines == g.lines[c := g.lines[c].Drop(s)] && Nowhere(h.lines, s)
              && h.closed == [s] + g.closed && h.passed == g.passed && h.ahead == g.ahead
              && h.filters == Hangup(g.filters, g.tags[s].fd) && h.pending == Retarget(g.pending, s, Nothing)
              && h.mapping == g.mapping && h.failed == g.failed && h.count == g.count && h.nextId == g.nextId
              && h.queues == g.queues
    {
      hide LinesOk, LifeInv, MaskInv, AtMostTwice, Hangup, Retarget, Nowhere;
      DropLines(g.places, g.lines, s);
    }

    lemma ListsWithin(lines: map<Context, Line>)
      requires ListsRepr(lines)
      ensures contexts == lines.Keys
      ensures forall c | c in contexts :: Within(c.list, sockets)
    {
    }

    static ghost predicate Within(list: seq<Socket>, block: set<Socket>) {
      forall x | x in list :: x in block
    }

    /** `s` is in memory and linked into `c`. */
    static ghost predicate OpenIn(b: State, c: Context, s: Socket) {
      IsLive(b, s) && b.places[s].open && c == b.places[s].ctx
    }

    lemma OpenHere(s: Socket)
      requires Good() && s in sockets && !s.IsClosed()
      ensures OpenIn(g, s.context, s) && IsLive(g, s) && s.context in contexts
    {
      hide Good, PollType, PollEvents;
      ClosedMark(s);
      Live(s);
    }

    /** Takes an open socket out of its list and out of the kernel's. */
    method Detach(c: Context, s: Socket)
      requires Good() && s in sockets && OpenIn(g, c, s)
      modifies this`kq, ready, sockets`next, sockets`prev, c`head, c`cursor, c`list, c`done, c`todo
      ensures var h := AfterCloseQuietly(g, s);
              && SocketsRepr(h.places, h.tags, h.tunings) && ListsRepr(h.lines)
              && ContextsRepr(h.passed, h.ahead) && BatchRepr(h.pending) && kq == h.filters
      ensures ClosedFrom(closedHead, g.closed)
    {
      hide Repr, Inv, SocketsRepr, ListsRepr, ClosedFrom, ContextsRepr, BatchRepr, AfterCloseQuietly;
      hide ListsInv, PollInv, LifeInv, MaskInv, Hangup, Retarget, Nowhere, AtMostTwice;
      Live(s);
      Parts();
      InvParts(g);
      CloseLeaves(s);
      CloseSockets(s);
      ListsWithin(g.lines);
      UnlinkSocket(c, s);
      HangUp(s);
    }

    lemma CloseFacts(s: Socket)
      requires Inv(g) && OpenIn(g, s.context, s)
      ensures Inv(AfterCloseQuietly(g, s)) && s !in g.closed
      ensures var h := AfterCloseQuietly(g, s);
              && Nowhere(h.lines, s) && h.closed == [s] + g.closed && h.passed == g.passed && h.ahead == g.ahead
              && h.mapping == g.mapping && h.failed == g.failed && h.count == g.count && h.nextId == g.nextId
              && h.queues == g.queues
    {
      hide Inv, AfterCloseQuietly, Nowhere, Retarget, Hangup, AtMostTwice;
      CloseKeeps(g, s);
      CloseLeaves(s);
    }

    /** `asock_core_listen_close`, and what `asock_socket_close` does before on_close. */
    method CloseQuietly(s: Socket)
      requires Good() && s in sockets && !s.IsClosed()
      modifies this, ready, sockets, contexts
      ensures Good() && g == AfterCloseQuietly(old(g), s)
      ensures sockets == old(sockets) && contexts == old(contexts)
    {
      hide Repr, Inv, SocketsRepr, ListsRepr, ClosedFrom, ContextsRepr, BatchRepr, AfterCloseQuietly;
      hide ListsInv, PollInv, LifeInv, MaskInv, Hangup, Retarget, Nowhere, AtMostTwice, IsLive, OpenIn;
      OpenHere(s);
      Parts();
      CloseFacts(s);
      Detach(s.context, s);
      PushClosed(s, AfterCloseQuietly(g, s).lines);
      Whole(AfterCloseQuietly(g, s));
      g := AfterCloseQuietly(g, s);
    }

    // ---------- creating and adopting ----------

    /** `asock_context_link` for a socket that is in memory but in no list. */
    method LinkSocket(c: Context, s: Socket, ghost lines: map<Context, Line>, ghost closed: seq<Socket>)
      requires ListsRepr(lines) && Nowhere(lines, s) && c in contexts && s in sockets
      requires ClosedFrom(closedHead, closed) && s !in closed && Disjoint(closed, c.list)
      requires forall k | k in contexts && k != c :: Disjoint(k.list, c.list)
      modifies c`head, c`list, c`done, s`context, s`timeout, s`next, s`prev, c.list`prev
      ensures s.context == c && s.timeout == 0
      ensures c in lines && ListsRepr(lines[c := lines[c].Push(s)])
      ensures ClosedFrom(closedHead, closed)
    {
      hide Context.Valid, ClosedFrom;
      NotListed(s, lines);
      HeadListed(c);
      c.Link(s);
      assert forall k, x | k in contexts && k != c && x in k.list :: x.next == old(x.next) && x.prev == old(x.prev);
      assert forall x | x in closed :: x.next == old(x.next) && x.prev == old(x.prev) && x.context == old(x.context);
    }

    lemma NotListed(s: Socket, lines: map<Context, Line>)
      requires ListsRepr(lines) && Nowhere(lines, s)
      ensures forall c | c in contexts :: s !in c.list
    {
      forall c | c in contexts
        ensures s !in c.list
      {
        ListIsLine(c, lines);
      }
    }

    static lemma HeadListed(c: Context)
      requires c.Valid()
      ensures c.head != null ==> c.head in c.list
    {
    }

    /** The whole of memory represents `h` if its sockets but `s` do, and `s` does. */
    lemma SocketsAgain(h: State, s: Socket)
      requires OthersRepr(h, s) && s in h.places && s in h.tags && s in h.tunings
      requires SocketIs(s, h.places[s], h.tags[s], h.tunings[s])
      ensures SocketsRepr(h.places, h.tags, h.tunings)
    {
      hide SocketIs;
    }

    /** `s` is as `h` says, but for the fields that linking sets. */
    static ghost predicate Unlinked(h: State, c: Context, s: Socket)
      reads s`fd, s`ext, s`listens, s`word
    {
      && s in h.places && s in h.tags && s in h.tunings
      && s.fd == h.tags[s].fd && s.ext == h.tags[s].id && s.listens == h.tags[s].listens
      && PollType(s.word) == h.tunings[s].kind && PollEvents(s.word) == h.tunings[s].interest
      && h.places[s].ctx == c && h.tunings[s].timeout == 0
    }

    /**
     Memory represents `h`, but `s` is still to be linked into `c`. The lists are those of
     `b`, where `s` is not in memory.
     */
    ghost predicate Planting(b: State, h: State, c: Context, s: Socket)
      reads this, ready, sockets, contexts, h.closed, h.passed, h.ahead, s
    {
      && ListsInv(b) && Inv(h) && s !in b.places && s in sockets && c in contexts && c in b.lines
      && h.lines == b.lines[c := b.lines[c].Push(s)] && h.closed == b.closed
      && Unlinked(h, c, s) && OthersRepr(h, s) && ListsRepr(b.lines) && ClosedFrom(closedHead, h.closed)
      && ContextsRepr(h.passed, h.ahead) && FieldsRepr(h) && BatchRepr(h.pending)
    }

    lemma PlantingParts(b: State, h: State, c: Context, s: Socket)
      requires Planting(b, h, c, s)
      ensures s in sockets && c in contexts && c in b.lines && s !in b.closed && Nowhere(b.lines, s)
      ensures h.lines == b.lines[c := b.lines[c].Push(s)] && h.closed == b.closed
      ensures ListsInv(b) && Inv(h) && Unlinked(h, c, s) && OthersRepr(h, s) && ListsRepr(b.lines)
      ensures ClosedFrom(closedHead, h.closed)
      ensures ContextsRepr(h.passed, h.ahead) && FieldsRepr(h) && BatchRepr(h.pending)
    {
      hide LinesOk, PlacesOk, ContextsOk, Inv, Unlinked, OthersRepr, ListsRepr, ClosedFrom, ContextsRepr;
      hide FieldsRepr, BatchRepr;
      hide Nowhere;
      AbsentNowhere(b.places, b.lines, s);
    }

    lemma PlantingWhole(b: State, h: State, c: Context, s: Socket)
      requires ListsInv(b) && Inv(h) && s !in b.places && s in sockets && c in contexts && c in b.lines
      requires h.lines == b.lines[c := b.lines[c].Push(s)] && h.closed == b.closed
      requires Unlinked(h, c, s) && OthersRepr(h, s) && ListsRepr(b.lines) && ClosedFrom(closedHead, h.closed)
      requires ContextsRepr(h.passed, h.ahead) && FieldsRepr(h) && BatchRepr(h.pending)
      ensures Planting(b, h, c, s)
    {
      hide ListsInv, Inv, Unlinked, OthersRepr, ListsRepr, ClosedFrom, ContextsRepr, FieldsRepr, BatchRepr;
    }

    /** Lists of `b` do not overlap. */
    lemma ApartIn(b: State, c: Context)
      requires ListsRepr(b.lines) && ListsInv(b) && c in contexts
      ensures forall k | k in contexts && k != c :: Disjoint(k.list, c.list)
      ensures Disjoint(b.closed, c.list)
    {
      hide LinesOk, PlacesOk, ClosedOk, ContextsOk, ListsRepr, Disjoint;
      Apart(b, c);
    }

    lemma SocketLinked(h: State, c: Context, s: Socket)
      requires Unlinked(h, c, s) && s.context == c && s.timeout == 0
      ensures s in h.places && s in h.tags && s in h.tunings && SocketIs(s, h.places[s], h.tags[s], h.tunings[s])
    {
      hide PollType, PollEvents;
    }

    /** Links `s` into `c`, after which memory represents `h`. */
    method Plant(ghost b: State, ghost h: State, c: Context, s: Socket)
      requires Planting(b, h, c, s)
      modifies this`g, contexts`head, contexts`list, contexts`done
      modifies sockets`context, sockets`timeout, sockets`next, sockets`prev
      ensures Good() && g == h
    {
      hide Repr, Inv, ListsRepr, ClosedFrom, ContextsRepr, BatchRepr, FieldsRepr, Represents, SocketsRepr;
      hide Nowhere, PollType, PollEvents, ListsInv, Disjoint, Planting, Unlinked, SocketIs;
      PlantingParts(b, h, c, s);
      ApartIn(b, c);
      ListsWithin(b.lines);
      LinkSocket(c, s, b.lines, h.closed);
      SocketLinked(h, c, s);
      SocketsAgain(h, s);
      Whole(h);
      g := h;
    }

    predicate Unowned(fd: int)
      reads this`sockets, sockets`prev, sockets`context, sockets`fd
    {
      forall x | x in sockets && !x.IsClosed() :: x.fd != fd
    }

    lemma UnownedHere(fd: int)
      requires Good() && Unowned(fd)
      ensures forall x | x in g.places && x in g.tags && g.places[x].open :: g.tags[x].fd != fd
    {
      hide Inv, ClosedFrom, ContextsRepr, FieldsRepr, BatchRepr, PollType, PollEvents, Context.Valid;
      forall x | x in g.places && x in g.tags && g.places[x].open
        ensures g.tags[x].fd != fd
      {
        ClosedMark(x);
      }
    }

    /** A block from `malloc`. */
    method Malloc(c: Context, ghost lines: map<Context, Line>) returns (s: Socket)
      requires ListsRepr(lines)
      modifies this`sockets
      ensures fresh(s) && s !in old(sockets) && sockets == old(sockets) + {s} && s.context == c && ListsRepr(lines)
    {
      hide Context.Valid;
      s := new Socket(c);
      sockets := sockets + {s};
    }

    /** A poll for `fd` is created, initialised and started; the application gives it a new tag. */
    method NewSocket(c: Context, fd: int, kind: Kind, events: Mask) returns (s: Socket)
      requires SocketsRepr(g.places, g.tags, g.tunings) && ListsRepr(g.lines)
      modifies this`numPolls, this`nextTag, this`sockets, this`kq
      ensures fresh(s) && s !in old(sockets) && sockets == old(sockets) + {s}
      ensures numPolls == old(numPolls) + 1 && nextTag == old(nextTag) + 1
      ensures kq == Kernel.KqueueChange(old(kq), fd, NONE, events, s)
      ensures PollType(s.word) == kind && PollEvents(s.word) == events && s.fd == fd && s.ext == old(nextTag)
      ensures s.listens == (kind == SemiKind && events == READABLE)
      ensures Represents(old(sockets), g.places, g.tags, g.tunings) && ListsRepr(g.lines)
    {
      hide ListsRepr, Represents, Submit, PollType, PollEvents;
      numPolls := numPolls + 1;
      s := Malloc(c, g.lines);
      s.ext := nextTag;
      s.listens := kind == SemiKind && events == READABLE;
      nextTag := nextTag + 1;
      Initialise(s, fd, kind, events);
    }

    /** `asock_poll_init` and `asock_poll_start`. */
    method Initialise(s: Socket, fd: int, kind: Kind, events: Mask)
      modifies s`fd, s`word, this`kq
      ensures kq == Kernel.KqueueChange(old(kq), fd, NONE, events, s)
      ensures PollType(s.word) == kind && PollEvents(s.word) == events && s.fd == fd
    {
      hide Submit, PollType, PollEvents;
      InitDecodes(kind);
      s.fd, s.word := fd, TypeBits(kind);
      PollStart(s, events);
    }

    /** Sockets that neither map touched are still represented. */
    static lemma StillRepresents(block: set<Socket>, b: State, h: State)
      requires Represents(block, b.places, b.tags, b.tunings)
      requires forall x | x in block && x in b.places && x in b.tags && x in b.tunings ::
                 && x in h.places && x in h.tags && x in h.tunings
                 && h.places[x] == b.places[x] && h.tags[x] == b.tags[x] && h.tunings[x] == b.tunings[x]
      ensures Represents(block, h.places, h.tags, h.tunings)
    {
      hide SocketRepr;
    }

    lemma CreatedOthers(c: Context, s: Socket, fd: int, kind: Kind, events: Mask)
      requires c in g.lines && s !in g.places && sockets == g.places.Keys + {s}
      requires Represents(g.places.Keys, g.places, g.tags, g.tunings)
      ensures OthersRepr(AfterCreate(g, c, s, fd, kind, events), s)
    {
      hide Kernel.KqueueChange, SocketRepr;
      var h := AfterCreate(g, c, s, fd, kind, events);
      StillRepresents(g.places.Keys, g, h);
      assert sockets - {s} == g.places.Keys;
    }

    /** A new socket, ready to be linked. */
    method Sow(c: Context, fd: int, kind: Kind, events: Mask) returns (s: Socket)
      requires Good() && c in contexts && Unowned(fd) && Creatable(kind, events)
      modifies this`numPolls, this`nextTag, this`sockets, this`kq
      ensures fresh(s) && sockets == old(sockets) + {s} && c in g.lines
      ensures Planting(g, AfterCreate(g, c, s, fd, kind, events), c, s)
    {
      hide Repr, Inv, Represents, ListsRepr, ClosedFrom, ContextsRepr, BatchRepr, AfterCreate, Unowned;
      hide Nowhere, PollType, PollEvents, Kernel.KqueueChange, ListsInv, PollInv, LifeInv, MaskInv, Creatable;
      UnownedHere(fd);
      Parts();
      InvParts(g);
      ListsWithin(g.lines);
      s := NewSocket(c, fd, kind, events);
      CreateKeeps(g, c, s, fd, kind, events);
      CreateLeaves(g, c, s, fd, kind, events);
      CreatedOthers(c, s, fd, kind, events);
    }

    method Create(c: Context, fd: int, kind: Kind, events: Mask) returns (s: Socket)
      requires Good() && c in contexts && Unowned(fd) && Creatable(kind, events)
      modifies this, sockets, contexts
      ensures Good() && fresh(s) && sockets == old(sockets) + {s} && contexts == old(contexts)
      ensures c in old(g).lines && g == AfterCreate(old(g), c, s, fd, kind, events)
    {
      hide Good, Inv, AfterCreate, Unowned, Creatable, Planting;
      s := Sow(c, fd, kind, events);
      Plant(g, AfterCreate(g, c, s, fd, kind, events), c, s);
    }

    /** `realloc` moves the block: a copy is in memory now, and the old block is not. */
    method Move(p: Socket, ghost lines: map<Context, Line>) returns (t: Socket)
      requires p in sockets && ListsRepr(lines) && Nowhere(lines, p)
      modifies this`sockets
      ensures fresh(t) && t !in old(sockets) && sockets == old(sockets) - {p} + {t} && ListsRepr(lines)
      ensures t.fd == p.fd && t.word == p.word && t.ext == p.ext && t.listens == p.listens && t.context == p.context
    {
      hide Nowhere, Context.Valid;
      NotListed(p, lines);
      t := new Socket(p.context);
      t.fd, t.word, t.timeout, t.ext, t.listens := p.fd, p.word, p.timeout, p.ext, p.listens;
      t.prev, t.next := p.prev, p.next;
      sockets := sockets - {p} + {t};
    }

    /** `asock_poll_resize`: `realloc` may also leave the block where it is. */
    method Resize(p: Socket, ghost lines: map<Context, Line>) returns (t: Socket)
      requires p in sockets && ListsRepr(lines) && Nowhere(lines, p)
      requires BatchRepr(g.pending) && AtMostTwice(g.pending)
      modifies this`kq, this`sockets, ready
      ensures t == p || (fresh(t) && t !in old(sockets))
      ensures sockets == old(sockets) - {p} + {t} && ListsRepr(lines)
      ensures t.fd == p.fd && t.word == p.word && t.ext == p.ext && t.listens == p.listens && t.context == p.context
      ensures var events := PollEvents(p.word);
              if t != p && events != NONE
              then kq == Kernel.KqueueChange(old(kq), p.fd, NONE, events, t) &&
                  BatchRepr(Retarget(g.pending, p, ToSocket(t)))
              else kq == old(kq) && BatchRepr(g.pending)
      ensures !Current(g.pending, t) || t == p
    {
      hide Submit, RetargetUpTo, Retarget, AtMostTwice, PollEvents, Nowhere, ListsRepr;
      var moves: bool := *;
      var events := PollEvents(p.word);
      if moves {
        t := Move(p, lines);
        if events != NONE {
          TwoHitsSuffice(g.pending, p, ToSocket(t));
          KqueueChange(t.fd, NONE, events, t);
          UpdatePending(p, ToSocket(t));
        }
      } else {
        t := p;
      }
    }

    /** Whether `s` may move: what is registered for it is cached, or it is in no later entry. */
    predicate MayMove(s: Socket)
      reads s`fd, s`word, this`kq, this`current, this`numReady, ready
    {
      && Registered(kq, s.fd).IsSubset(PollEvents(s.word))
      && (PollEvents(s.word) == NONE ==> forall i | 1 <= i < |Pending()| :: Pending()[i].target != ToSocket(s))
    }

    /** A listener in its own accept loop: the entry being dispatched is its own. */
    predicate Accepting(s: Socket)
      reads s`listens, this`current, this`numReady, ready
    {
      s.listens && Current(Pending(), s)
    }

    lemma MayMoveNow(s: Socket)
      requires Good() && s in sockets && !s.IsClosed() && !Accepting(s) && MayMove(s)
      ensures IsLive(g, s) && Movable(g, s) && !Pinned(g, s)
    {
      hide Inv, ListsRepr, ClosedFrom, ContextsRepr, PollEvents, PollType;
      Live(s);
      ClosedMark(s);
    }

    lemma AdoptedOthers(c: Context, s: Socket, t: Socket)
      requires IsLive(g, s) && c in g.lines && (t == s || t !in g.places) && sockets == g.places.Keys - {s} + {t}
      requires Represents(g.places.Keys - {s}, g.places, g.tags, g.tunings)
      ensures OthersRepr(AfterAdopt(g, c, s, t), t)
    {
      hide SocketRepr, Kernel.KqueueChange, Retarget;
      var h := AfterAdopt(g, c, s, t);
      StillRepresents(g.places.Keys - {s}, g, h);
      assert sockets - {t} == g.places.Keys - {s};
    }

    lemma FewerRepresented(s: Socket)
      requires SocketsRepr(g.places, g.tags, g.tunings)
      ensures Represents(g.places.Keys - {s}, g.places, g.tags, g.tunings)
    {
      hide SocketRepr;
    }

    /** Takes `s` out of its list and resizes it. */
    method Uproot(s: Socket, ghost rest: map<Context, Line>) returns (t: Socket)
      requires Good() && s in sockets && OpenIn(g, s.context, s) && rest == Removed(g, s).lines
      modifies this`kq, this`sockets, ready, sockets`next, sockets`prev
      modifies contexts`head, contexts`cursor, contexts`list, contexts`done, contexts`todo
      ensures t == s || (fresh(t) && t !in old(sockets))
      ensures sockets == old(sockets) - {s} + {t}
      ensures ListsRepr(rest) && ClosedFrom(closedHead, g.closed)
      ensures t.fd == s.fd && t.word == s.word && t.ext == s.ext && t.listens == s.listens && t.context == s.context
      ensures var events := PollEvents(s.word);
              if t != s && events != NONE
              then kq == Kernel.KqueueChange(old(kq), s.fd, NONE, events, t) &&
                  BatchRepr(Retarget(g.pending, s, ToSocket(t)))
              else kq == old(kq) && BatchRepr(g.pending)
      ensures !Current(g.pending, t) || t == s
    {
      hide Repr, Inv, Represents, ListsRepr, ClosedFrom, ContextsRepr, BatchRepr, Current;
      hide Nowhere, PollType, PollEvents, Kernel.KqueueChange, Retarget, AtMostTwice;
      hide ListsInv, PollInv, LifeInv, MaskInv;
      Live(s);
      Parts();
      InvParts(g);
      ListsWithin(g.lines);
      RemovedNowhere(s);
      UnlinkSocket(s.context, s);
      t := Resize(s, rest);
    }

    lemma RemovedNowhere(s: Socket)
      requires IsLive(g, s) && ListsInv(g) && PollInv(g)
      ensures Nowhere(Removed(g, s).lines, s) && AtMostTwice(g.pending)
    {
      hide LinesOk, PlacesOk, ContextsOk, Nowhere, ClosedOk, AtMostTwice;
      DropLines(g.places, g.lines, s);
    }

    /** `s` is an open socket that may be moved to another context. */
    static ghost predicate MayLeave(b: State, s: Socket) {
      IsLive(b, s) && b.places[s].open && !Pinned(b, s) && Movable(b, s)
    }

    lemma MayTransfer(c: Context, s: Socket)
      requires Good() && s in sockets && c in contexts && !s.IsClosed() && !Accepting(s) && MayMove(s)
      ensures MayLeave(g, s) && OpenIn(g, s.context, s) && IsLive(g, s) && c in g.lines
      ensures SocketIs(s, g.places[s], g.tags[s], g.tunings[s])
    {
      hide Inv, MayMove, Accepting, Pinned, Movable, PollType, PollEvents;
      hide SocketsRepr, ClosedFrom, ContextsRepr, FieldsRepr, BatchRepr;
      ClosedMark(s);
      Live(s);
      MayMoveNow(s);
    }

    lemma MayTransferTo(c: Context, s: Socket, t: Socket)
      requires MayLeave(g, s) && c in g.lines && Inv(g)
      requires t == s || (t !in g.places && !Current(g.pending, t))
      ensures MayAdopt(g, c, s, t)
      ensures ListsInv(Removed(g, s)) && t !in Removed(g, s).places && Removed(g, s).closed == g.closed
    {
      hide Inv, ListsInv, Movable;
      InvParts(g);
      RemoveKeepsLists(g, s);
    }

    lemma AdoptedUnlinked(c: Context, s: Socket, t: Socket)
      requires IsLive(g, s) && c in g.lines && SocketIs(s, g.places[s], g.tags[s], g.tunings[s])
      requires t.fd == s.fd && t.ext == s.ext && t.listens == s.listens && t.word == s.word
      ensures Unlinked(AfterAdopt(g, c, s, t), c, t)
    {
      hide Kernel.KqueueChange, Retarget, PollType, PollEvents;
    }

    lemma AdoptedFields(c: Context, s: Socket, t: Socket, table: map<Filter, Socket>)
      requires IsLive(g, s) && c in g.lines && SocketIs(s, g.places[s], g.tags[s], g.tunings[s]) && table == g.filters
      requires mapping == g.mapping && lastWriteFailed == g.failed && numPolls == g.count && nextTag == g.nextId
      requires queues == g.queues
      requires var events := PollEvents(s.word);
               if t != s && events != NONE
               then kq == Kernel.KqueueChange(table, s.fd, NONE, events, t) &&
                   BatchRepr(Retarget(g.pending, s, ToSocket(t)))
               else kq == table && BatchRepr(g.pending)
      ensures FieldsRepr(AfterAdopt(g, c, s, t)) && BatchRepr(AfterAdopt(g, c, s, t).pending)
    {
      hide Kernel.KqueueChange, Retarget, PollType, PollEvents, BatchRepr;
    }

    /** `asock_context_adopt_socket` up to where the socket, now at `t`, is linked again. */
    method Transfer(c: Context, s: Socket) returns (t: Socket)
      requires Good() && s in sockets && c in contexts && !s.IsClosed() && !Accepting(s) && MayMove(s)
      modifies this`kq, this`sockets, ready, sockets`next, sockets`prev
      modifies contexts`head, contexts`cursor, contexts`list, contexts`done, contexts`todo
      ensures sockets == old(sockets) - {s} + {t} && (t == s || (fresh(t) && t !in old(sockets)))
      ensures IsLive(g, s) && c in g.lines && MayAdopt(g, c, s, t)
      ensures Planting(Removed(g, s), AfterAdopt(g, c, s, t), c, t)
    {
      hide Repr, Inv, Represents, ListsRepr, ClosedFrom, ContextsRepr, BatchRepr, AfterAdopt, MayMove, Accepting;
      hide Nowhere, PollType, PollEvents, Kernel.KqueueChange, Retarget, Current;
      hide ListsInv, PollInv, LifeInv, MaskInv;
      hide MayAdopt, MayLeave, OpenIn, Planting, Unlinked, OthersRepr, IsLive, Removed, SocketIs;
      MayTransfer(c, s);
      Parts();
      FewerRepresented(s);
      ghost var table := kq;
      t := Uproot(s, Removed(g, s).lines);
      MayTransferTo(c, s, t);
      AdoptKeeps(g, c, s, t);
      AdoptLeaves(g, c, s, t);
      AdoptedOthers(c, s, t);
      AdoptedUnlinked(c, s, t);
      AdoptedFields(c, s, t, table);
      PlantingWhole(Removed(g, s), AfterAdopt(g, c, s, t), c, t);
    }

    /** `asock_context_adopt_socket` */
    method Adopt(c: Context, s: Socket) returns (t: Socket)
      requires Good() && s in sockets && c in contexts
      requires !s.IsClosed() ==> !Accepting(s) && MayMove(s)
      modifies this, ready, sockets, contexts
      ensures Good() && contexts == old(contexts) && sockets == old(sockets) - {s} + {t}
      ensures t == s || (fresh(t) && t !in old(sockets))
      ensures if old(s.IsClosed()) then t == s && g == old(g)
              else MayAdopt(old(g), c, s, t) && g == AfterAdopt(old(g), c, s, t)
    {
      hide Good, Inv, MayMove, Accepting, Planting, AfterAdopt, MayAdopt, PollType, PollEvents, IsLive, Removed;
      if s.IsClosed() {
        t := s;
      } else {
        t := Transfer(c, s);
        Plant(Removed(g, s), AfterAdopt(g, c, s, t), c, t);
      }
    }

    // ---------- what dispatch does to one socket ----------

    /** An event is noted in the journal: a callback is about to be called. */
    ghost method Note(s: Socket, e: Event)
      requires Good() && s in sockets && IsLive(g, s) && e.id == g.tags[s].id
      requires Inv(Noted(g, e))
      modifies this`g
      ensures Good() && g == Noted(old(g), e)
    {
      hide Repr, Inv, Around, Retuned, PollType, PollEvents, Noted;
      Live(s);
      GoodAround(s);
      NotedLeaves(g, s, e);
      GoodAgain(g, Noted(g, e), s);
      g := Noted(g, e);
    }

    /** The peer's first FIN was received: on_end is about to be called. */
    method EndReading(s: Socket)
      requires Good() && s in sockets && !s.IsClosed() && PollType(s.word) == SocketKind
      modifies s`word, this`kq, this`g
      ensures IsLive(old(g), s) && Good() && g == AfterEnd(old(g), s)
    {
      hide Repr, Inv, Around, Retuned, PollType, PollEvents, AfterEnd, Kernel.KqueueChange;
      ClosedMark(s);
      Live(s);
      GoodAround(s);
      EndKeeps(g, s);
      EndLeaves(g, s);
      PollChange(s, PollEvents(s.word).And(WRITABLE));
      GoodAgain(g, AfterEnd(g, s), s);
      g := AfterEnd(g, s);
    }

    /** A connecting socket became writable. The change of interest asks for what it already has. */
    method Connected(s: Socket)
      requires Good() && s in sockets && !s.IsClosed()
      requires PollType(s.word) == SemiKind && PollEvents(s.word) == WRITABLE
      modifies s`word, this`kq, this`g
      ensures IsLive(old(g), s) && Good() && g == AfterConnected(old(g), s)
    {
      hide Repr, Inv, Around, Retuned, PollType, PollEvents, AfterConnected, Kernel.KqueueChange;
      ClosedMark(s);
      Live(s);
      GoodAround(s);
      ConnectedKeeps(g, s);
      ConnectedLeaves(g, s);
      PollChange(s, WRITABLE);
      PollSetType(s, SocketKind);
      GoodAgain(g, AfterConnected(g, s), s);
      g := AfterConnected(g, s);
    }

    /** on_writable is about to be called: no write has failed since. */
    method BeginWritable(s: Socket)
      requires Good() && s in sockets && !s.IsClosed()
      requires PollType(s.word) != SemiKind && PollEvents(s.word).writable
      modifies this`lastWriteFailed, this`g
      ensures IsLive(old(g), s) && Good() && g == AfterWritable(old(g), s)
    {
      hide Repr, Inv, Around, Retuned, PollType, PollEvents, AfterWritable;
      ClosedMark(s);
      Live(s);
      GoodAround(s);
      WritableKeeps(g, s);
      WritableLeaves(g, s);
      lastWriteFailed := false;
      GoodAgain(g, AfterWritable(g, s), s);
      g := AfterWritable(g, s);
    }

    /** After on_writable, if no write failed or the socket was shut down: stop polling for writable. */
    method Drain(s: Socket)
      requires Good() && s in sockets && !s.IsClosed() && PollType(s.word) != SemiKind
      requires (!lastWriteFailed || PollType(s.word) == ShutdownKind) && LastTold(g.log, s.ext)
      modifies s`word, this`kq, this`g
      ensures IsLive(old(g), s) && Good() && g == AfterDrain(old(g), s)
    {
      hide Repr, Inv, Around, Retuned, PollType, PollEvents, AfterDrain, Kernel.KqueueChange, Failing;
      ClosedMark(s);
      Live(s);
      GoodAround(s);
      NoCallbackKind(s);
      DrainKeeps(g, s);
      DrainLeaves(g, s);
      PollChange(s, PollEvents(s.word).And(READABLE));
      GoodAgain(g, AfterDrain(g, s), s);
      g := AfterDrain(g, s);
    }

    lemma NoCallbackKind(s: Socket)
      requires Inv(g) && IsLive(g, s) && g.places[s].open
      ensures g.tunings[s].kind != CallbackKind
    {
      hide ListsInv, LifeInv, MaskInv, PollInv;
      TunedAt(g, s);
    }

    // ---------- contexts ----------

    lemma HeadKnown()
      requires ContextsRepr(g.passed, g.ahead) && ContextsOk(g.lines, g.passed, g.ahead) && ListsRepr(g.lines)
      ensures head != null ==> head in contexts
    {
    }

    /** `asock_context_create` and `asock_loop_link` */
    method CreateContext() returns (c: Context)
      requires Good()
      modifies this, contexts
      ensures Good() && fresh(c) && contexts == old(contexts) + {c} && sockets == old(sockets)
      ensures c !in old(g).lines && g == AfterContext(old(g), c)
    {
      hide Repr, Inv, SocketsRepr, ListsRepr, ClosedFrom, BatchRepr, ListsInv, PollInv, LifeInv, MaskInv, ContextsRepr;
      hide ContextsOk;
      Parts();
      InvParts(g);
      ListsWithin(g.lines);
      HeadIsKnown();
      c := NewContext();
      assert c !in g.lines;
      ContextKeeps(g, c);
      assert g.lines[c := Line([], [])] == AfterContext(g, c).lines;
      LinkContext(c);
      Whole(AfterContext(g, c));
      g := AfterContext(g, c);
    }

    lemma HeadIsKnown()
      requires ContextsRepr(g.passed, g.ahead) && ListsInv(g) && ListsRepr(g.lines)
      ensures head != null ==> head in contexts
    {
      hide LinesOk, PlacesOk, ClosedOk, ContextsRepr, ContextsOk, ListsRepr;
      HeadKnown();
    }

    /** A context fresh from `malloc`, with no sockets. */
    method NewContext() returns (c: Context)
      requires ListsRepr(g.lines)
      modifies this`contexts
      ensures fresh(c) && c !in old(contexts) && contexts == old(contexts) + {c}
      ensures ListsRepr(g.lines[c := Line([], [])])
    {
      hide Context.Valid;
      c := new Context();
      contexts := contexts + {c};
    }

    /** `asock_loop_link` */
    method LinkContext(c: Context)
      requires ContextsRepr(g.passed, g.ahead) && c !in g.passed && c !in g.ahead
      modifies this`head, c`next, c`prev, (if head == null then {} else {head})`prev
      ensures ContextsRepr([c] + g.passed, g.ahead)
    {
      hide ContextsLinked;
      ghost var order := g.passed + g.ahead;
      c.next := head;
      c.prev := null;
      if head != null {
        head.prev := c;
      }
      head := c;
      assert ([c] + g.passed) + g.ahead == [c] + order;
      assert c !in order && ContextsLinked(order);
      PrependLinked(c, order);
    }

    static lemma PrependLinked(c: Context, order: seq<Context>)
      requires ContextsLinked(order) && c.next == ContextAt(order, 0)
      ensures ContextsLinked([c] + order)
    {
      var all := [c] + order;
      forall i, j | 0 <= i < j < |all| && j == i + 1
        ensures all[i].next == all[j]
      {
        assert all[j] == order[i];
        if i > 0 {
          assert all[i] == order[i - 1];
        }
      }
    }

    /** `asock_timer_create`, and the like for other callback polls. */
    method CreateCallbackPoll(fallthrough: bool)
      requires Good()
      modifies this`numPolls, this`g
      ensures Good() && g == if fallthrough then old(g) else AfterCallbackPoll(old(g))
      ensures numPolls == old(numPolls) + if fallthrough then 0 else 1
      ensures g.others == old(g).others + if fallthrough then 0 else 1
    {
      hide Repr, Inv, SocketsRepr, ListsRepr, ClosedFrom, ContextsRepr, BatchRepr;
      if !fallthrough {
        Parts();
        CallbackPollStep(g);
        numPolls := numPolls + 1;
        Whole(AfterCallbackPoll(g));
        g := AfterCallbackPoll(g);
      }
    }

    // ---------- freeing ----------

    /** `asock_poll_free`: the block at the head of the close list is released. */
    method FreeBlock(s: Socket)
      requires s in sockets && ListsRepr(g.lines) && Nowhere(g.lines, s)
      modifies this`numPolls, this`sockets
      ensures numPolls == old(numPolls) - 1 && sockets == old(sockets) - {s} && ListsRepr(g.lines)
    {
      hide Context.Valid, Nowhere;
      NotListed(s, g.lines);
      numPolls := numPolls - 1;
      sockets := sockets - {s};
    }

    /** Memory in the middle of freeing: as `g` says, but for the head of the close list. */
    ghost predicate Freeing(s: Socket?)
      reads this, ready, sockets, contexts, g.closed, g.passed, g.ahead
    {
      && SocketsRepr(g.places, g.tags, g.tunings) && ListsRepr(g.lines) && ClosedFrom(s, g.closed)
      && ContextsRepr(g.passed, g.ahead) && FieldsRepr(g) && BatchRepr(g.pending)
      && Inv(g)
    }

    lemma FreeFacts(s: Socket)
      requires g.closed != [] && ListsInv(g) && ClosedFrom(s, g.closed) && SocketsRepr(g.places, g.tags, g.tunings)
      ensures s == g.closed[0] && s in sockets && Nowhere(g.lines, s)
      ensures ClosedFrom(s.next, g.closed[1..])
    {
      hide LinesOk, PlacesOk, ContextsOk, Represents;
      AbsentNowhere(g.places, g.lines, s);
      hide Nowhere;
      var rest := g.closed[1..];
      assert forall i | 0 <= i < |rest| :: rest[i] == g.closed[i + 1];
    }

    lemma FreedSockets()
      requires g.closed != [] && g.closed[0] in g.tags && SocketsRepr(g.places, g.tags, g.tunings)
      ensures var h := AfterFree(g);
              Represents(sockets - {g.closed[0]}, h.places, h.tags, h.tunings) &&
                  sockets - {g.closed[0]} == h.places.Keys
    {
      hide SocketRepr;
      var h, s := AfterFree(g), g.closed[0];
      assert h.places.Keys == g.places.Keys - {s};
    }

    method FreeOne(s: Socket) returns (next: Socket?)
      requires Freeing(s)
      modifies this`numPolls, this`sockets, this`g
      ensures old(g).closed != [] && old(g).closed[0] in old(g).tags && g == AfterFree(old(g)) && Freeing(next)
      ensures |g.closed| == |old(g).closed| - 1 && sockets <= old(sockets)
    {
      hide Inv, Represents, ListsRepr, ClosedFrom, ContextsRepr, BatchRepr, AfterFree;
      hide ListsInv, PollInv, LifeInv, MaskInv;
      hide Nowhere;
      assert g.closed != [] by {
        ClosedNotEmpty(s);
      }
      InvParts(g);
      FreeFacts(s);
      FreeKeeps(g);
      FreedSockets();
      FreeLeaves();
      next := s.next;
      FreeBlock(s);
      g := AfterFree(g);
    }

    static lemma NoneFrom(closed: seq<Socket>)
      requires ClosedFrom(null, closed)
      ensures closed == []
    {
    }

    lemma ClosedNotEmpty(s: Socket)
      requires ClosedFrom(s, g.closed)
      ensures g.closed != []
    {
    }

    lemma FreeLeaves()
      requires g.closed != [] && g.closed[0] in g.tags
      ensures var h := AfterFree(g);
              && h.lines == g.lines && h.closed == g.closed[1..] && h.passed == g.passed && h.ahead == g.ahead
              && h.filters == g.filters && h.pending == g.pending && h.mapping == g.mapping
              && h.failed == g.failed && h.count == g.count - 1 && h.nextId == g.nextId && h.queues == g.queues
    {
    }

    /** `asock_socket_free_closed` */
    method FreeClosed()
      requires Good()
      modifies this
      ensures Freeable(old(g)) && Good() && g == AfterFlush(old(g))
      ensures contexts == old(contexts) && sockets <= old(sockets)
    {
      hide Inv, SocketsRepr, ListsRepr, ClosedFrom, ContextsRepr, BatchRepr, AfterFree, FieldsRepr;
      InvFreeable(g);
      var s := closedHead;
      while s != null
        invariant Freeing(s) && contexts == old(contexts) && sockets <= old(sockets)
        invariant Freeable(g) && AfterFlush(g) == AfterFlush(old(g))
        decreases |g.closed|
      {
        s := FreeOne(s);
        InvFreeable(g);
      }
      NoneFrom(g.closed);
      closedHead := null;
    }

    // ---------- the sweep's iterators ----------

    lemma IteratorAt()
      requires Good()
      ensures cursor == ContextAt(g.ahead, 0)
      ensures forall c | c in contexts :: c in g.lines && c.cursor == At(g.lines[c].todo, 0)
      ensures g.ahead != [] ==> g.ahead[0] in contexts
    {
      hide SocketsRepr, ClosedFrom, FieldsRepr, BatchRepr, LinesOk, PlacesOk, ClosedOk, PollInv, LifeInv, MaskInv;
    }

    method Restart(ghost passed: seq<Context>)
      requires ContextsRepr(passed, [])
      modifies this`cursor
      ensures ContextsRepr([], passed)
    {
      hide ContextsLinked;
      assert passed + [] == passed && [] + passed == passed;
      cursor := head;
    }

    method SweepBegin()
      requires Good() && g.ahead == []
      modifies this`cursor, this`g
      ensures Good() && g == AfterSweepStart(old(g)) && Idle(g)
    {
      hide Repr, Inv, SocketsRepr, ListsRepr, ClosedFrom, BatchRepr, Idle, ContextsRepr;
      Parts();
      SweepStartKeeps(g);
      assert g.passed + [] == g.passed;
      Restart(g.passed);
      Whole(AfterSweepStart(g));
      g := AfterSweepStart(g);
    }

    method PassBegin(c: Context)
      requires Good() && Idle(g) && g.ahead != [] && c == g.ahead[0] && c in contexts
      modifies this`g, c`cursor, c`done, c`todo
      ensures c in old(g).lines && Good() && g == AfterPassStart(old(g), c)
    {
      hide Repr, Inv, SocketsRepr, ClosedFrom, BatchRepr, ContextsRepr, Idle, Context.Valid;
      Parts();
      PassStartKeeps(g, c);
      assert c.Valid();
      c.StartPass();
      Whole(AfterPassStart(g, c));
      g := AfterPassStart(g, c);
    }

    method StepOn(c: Context, s: Socket)
      requires Good() && c in contexts && c in g.lines && g.lines[c].todo != [] && s == g.lines[c].todo[0]
      modifies this`g, c`cursor, c`done, c`todo
      ensures Good() && g == AfterStep(old(g), c)
    {
      hide Repr, Inv, SocketsRepr, ListsRepr, ClosedFrom, BatchRepr, ContextsRepr, Context.Valid;
      Parts();
      StepKeeps(g, c);
      AdvanceList(c, s);
      Whole(AfterStep(g, c));
      g := AfterStep(g, c);
    }

    /** `context->iterator = s->next` */
    method AdvanceList(c: Context, s: Socket)
      requires ListsRepr(g.lines) && c in contexts && c in g.lines && g.lines[c].todo != [] && s == g.lines[c].todo[0]
      modifies c`cursor, c`done, c`todo
      ensures ListsRepr(g.lines[c := g.lines[c].Step()])
    {
      hide Context.Valid;
      assert c.Valid();
      c.Advance(s);
    }

    method PassEnd()
      requires Good() && Idle(g) && g.ahead != [] && cursor != null
      modifies this`cursor, this`g
      ensures Good() && g == AfterPassEnd(old(g)) && Idle(g)
    {
      hide Inv, SocketsRepr, ListsRepr, ClosedFrom, BatchRepr, Idle;
      PassEndKeeps(g);
      ghost var h := AfterPassEnd(g);
      assert h.passed + h.ahead == g.passed + g.ahead;
      assert (g.passed + g.ahead)[|g.passed|] == g.ahead[0] == cursor;
      assert h.ahead != [] ==> (g.passed + g.ahead)[|g.passed| + 1] == h.ahead[0];
      cursor := cursor.next;
      g := h;
    }

    /** `s->timeout && --(s->timeout) == 0` */
    method Visit(s: Socket) returns (fires: bool)
      requires Good() && s in sockets && !s.IsClosed()
      modifies s`timeout, this`g
      ensures IsLive(old(g), s) && Good() && g == AfterVisit(old(g), s)
      ensures fires <==> old(s.timeout) == 1
    {
      hide Repr, Inv, Around, Retuned, PollType, PollEvents, AfterVisit;
      ClosedMark(s);
      Live(s);
      GoodAround(s);
      VisitKeeps(g, s);
      VisitLeaves(g, s);
      fires := s.timeout == 1;
      if s.timeout != 0 {
        s.timeout := s.timeout - 1;
      }
      GoodAgain(g, AfterVisit(g, s), s);
      g := AfterVisit(g, s);
    }

    // ---------- the ready array ----------

    /** A new loop; its write mark starts out with an unknown value. */
    constructor (mapping: Mapping)
      ensures Good() && this.mapping == mapping && fresh(ready) && g == Blank(mapping, g.failed)
    {
      this.mapping := mapping;
      head, cursor, closedHead := null, null, null;
      numPolls, numReady, current, nextTag := 0, 0, 0, 0;
      kq, sockets, contexts, queues := map[], {}, {}, Queues(map[], 0);
      var untouched: bool := *;
      lastWriteFailed := untouched;
      ready := new Entry[READY_POLLS](_ => Entry(Nothing, ReadSide, false));
      g := Blank(mapping, untouched);
      new;
      hide Inv, Repr;
      BlankKeeps(mapping, lastWriteFailed);
      BlankRepr();
    }

    lemma BlankRepr()
      requires ready.Length == READY_POLLS && numPolls == 0 && numReady == 0 && current == 0 && nextTag == 0
      requires queues == Queues(map[], 0)
      requires head == null && cursor == null && closedHead == null && kq == map[] && sockets == {} && contexts == {}
      ensures Repr(Blank(mapping, lastWriteFailed))
    {
    }

    /** The filter that an entry for a socket reports. */
    ghost function FilterOf(e: Entry): Filter
      requires e.target.ToSocket? && e.target.socket in g.tags
      reads this`g
    {
      Filter(g.tags[e.target.socket].fd, e.side)
    }

    /** The entries before `n` report registered filters, none of them twice, and none in `left`. */
    ghost predicate Filled(n: nat, left: set<Filter>)
      requires n <= ready.Length
      reads this`g, ready
    {
      && (forall i | 0 <= i < n && ready[i].target.ToSocket? ::
        IsOpen(g.places, ready[i].target.socket) && ready[i].target.socket in g.tags && FilterOf(ready[i]) !in left)
      && (forall i, j | 0 <= i < j < n && ready[i].target.ToSocket? && ready[j].target.ToSocket? &&
        ready[i].target.socket in g.tags && ready[j].target.socket in g.tags ::
            FilterOf(ready[i]) != FilterOf(ready[j]))
    }

    /**
     `kevent` reports any registered filters, each at most once, and any timers and user
     events, up to the size of the array.
     */
    method Fill() returns (n: nat)
      requires ready.Length == READY_POLLS && kq == g.filters && FiltersOk(g.places, g.tags, g.filters)
      modifies ready
      ensures n <= READY_POLLS && Filled(n, {})
    {
      hide IsOpen;
      var left := kq.Keys;
      n := 0;
      while n < READY_POLLS
        invariant n <= READY_POLLS && left <= kq.Keys && Filled(n, left)
      {
        var more: bool, other: bool, flag: bool := *, *, *;
        if !more {
          break;
        }
        if other {
          ready[n] := Entry(ToCallback(if flag then SweepTimer else UserCallback), ReadSide, false);
        } else if left != {} {
          var f :| f in left;
          left := left - {f};
          ready[n] := Entry(ToSocket(kq[f]), f.side, flag);
        } else {
          break;
        }
        n := n + 1;
      }
    }

    lemma FilledBatch(n: nat)
      requires n <= ready.Length && Filled(n, {})
      ensures AtMostTwice(ready[..n]) && AllOpen(g.places, ready[..n])
    {
    }

    /** `kevent`: a batch, or an error, which is as good as an empty batch. */
    method TakeBatch() returns (ghost batch: seq<Entry>)
      requires ready.Length == READY_POLLS && kq == g.filters && FiltersOk(g.places, g.tags, g.filters)
      modifies this`numReady, this`current, ready
      ensures BatchRepr(batch) && AtMostTwice(batch) && AllOpen(g.places, batch)
      ensures current == 0 && |batch| == if numReady < 0 then 0 else numReady
    {
      hide Filled, AtMostTwice, AllOpen, FiltersOk;
      var n := Fill();
      FilledBatch(n);
      NoBatch();
      var fails: bool := *;
      numReady := if fails then -1 else n;
      current := 0;
      batch := if fails then [] else ready[..n];
    }

    /** The wait of one round, in which connections may come in. */
    method Wait()
      requires Good()
      modifies this`numReady, this`current, this`queues, this`g, ready
      ensures Good() && AllOpen(g.places, g.pending) && g == old(g).(pending := g.pending, queues := g.queues)
      ensures current == 0 && |g.pending| == if numReady < 0 then 0 else numReady
    {
      hide Repr, Inv, SocketsRepr, ListsRepr, ClosedFrom, ContextsRepr, BatchRepr, AtMostTwice, AllOpen, FiltersOk;
      FiltersNow();
      Parts();
      ReadySize(g.pending);
      ghost var batch := TakeBatch();
      BatchKeeps(g, batch);
      queues := *;
      QueuesKeep(g.(pending := batch), queues);
      Whole(g.(pending := batch, queues := queues));
      g := g.(pending := batch, queues := queues);
    }

    /** `accept`: a descriptor that no open socket has, or -1. On a descriptor that does not listen it always fails. */
    method Accept(ls: Socket) returns (fd: int)
      requires Good() && ls in sockets
      modifies this`queues, this`g
      ensures Good()
      ensures if fd == -1 then g == AfterRefusal(old(g), ls.fd, ls.listens)
              else ls.listens && old(g).queues.Waiting(ls.fd) > 0 && Unowned(fd) && g == AfterAccept(old(g), ls.fd)
    {
      hide Inv, SocketsRepr, ListsRepr, ClosedFrom, ContextsRepr, BatchRepr, Unowned;
      Parts();
      fd := -1;
      if ls.listens && queues.Waiting(ls.fd) > 0 {
        fd := *;
        if fd < 0 || !Unowned(fd) {
          fd := -1;
          queues := queues.Failed();
        } else {
          queues := queues.Taken(ls.fd);
        }
        QueuesKeep(g, queues);
        Whole(g.(queues := queues));
        g := g.(queues := queues);
      }
    }

    /** A callback gets control. */
    ghost method GiveControl(hook: Hook)
      requires Good()
      modifies this`g
      ensures Good() && g == AfterCall(old(g), hook) && Rely(old(g), g)
    {
      hide Inv, SocketsRepr, ListsRepr, ClosedFrom, ContextsRepr, BatchRepr, Rely;
      CallStep(g, hook);
      g := AfterCall(g, hook);
    }

    lemma ReadySize(pending: seq<Entry>)
      requires BatchRepr(pending)
      ensures ready.Length == READY_POLLS
    {
    }

    lemma FiltersNow()
      requires Inv(g)
      ensures FiltersOk(g.places, g.tags, g.filters)
    {
      hide ListsInv, LifeInv, MaskInv, DescriptorsOk, InterestOk, PendingOk;
    }

    lemma NoBatch()
      ensures AtMostTwice([]) && AllOpen(g.places, [])
    {
    }

    /** The loop moves on to the next entry of the batch. */
    method NextEntry()
      requires Good() && g.pending != []
      modifies this`current, this`g
      ensures Good() && AllOpen(g.places, g.pending) && g == old(g).(pending := old(g).pending[1..])
      ensures current == old(current) + 1
    {
      hide Inv, SocketsRepr, ListsRepr, ClosedFrom, ContextsRepr, AllOpen;
      NextEntryKeeps(g);
      current := current + 1;
      g := g.(pending := g.pending[1..]);
    }
  }
}
