/**
 Sockets and contexts as they lie in memory, and the intrusive list of sockets that each
 context heads.
 */
module Memory {
  import opened PollWord
  import opened Sequences

  /**
   The `prev` field. It holds null, a socket, or, by a pointer cast, the socket's own
   context, which marks the socket as closed.
   */
  datatype Prev = Nobody | Behind(socket: Socket) | Owner(owner: Context)

  class Socket {
    var fd: int
    var word: Word
    var context: Context
    var prev: Prev
    var next: Socket?
    var timeout: nat
    // Whether the block is that of a listener and the descriptor one that listens.
    var listens: bool
    // The application's extension area, which moves with the socket when it is reallocated.
    var ext: nat

    /** A block fresh from `malloc`; no field but the owner has a known value. */
    constructor (context: Context)
      ensures this.context == context
    {
      this.context := context;
    }

    predicate IsClosed()
      reads this`prev, this`context
    {
      prev == Owner(context)
    }
  }

  /** The element at `i`, or null past the end. */
  ghost function At(s: seq<Socket>, i: nat): Socket? {
    if i < |s| then s[i] else null
  }

  /** The comparison `s->prev == s->next`. */
  predicate SamePointer(p: Prev, n: Socket?) {
    match p
    case Nobody => n == null
    case Behind(q) => n == q
    case Owner(_) => false
  }

  class Context {
    var head: Socket?
    var cursor: Socket?
    var prev: Context?
    var next: Context?

    // The sockets in order; those in `todo` are still ahead of a sweep's iterator, which
    // stands at the first of them.
    ghost var list: seq<Socket>
    ghost var done: seq<Socket>
    ghost var todo: seq<Socket>

    constructor ()
      ensures Valid() && list == []
    {
      head := null;
      cursor := null;
      next := null;
      list := [];
      done := [];
      todo := [];
    }

    ghost predicate Valid()
      reads this`head, this`cursor, this`list, this`done, this`todo, list`next, list`prev
    {
      Linked(list) && Distinct(list) && head == At(list, 0) && list == done + todo && cursor == At(todo, 0)
    }

    static ghost predicate Linked(list: seq<Socket>)
      reads list`next, list`prev
    {
      && (list != [] ==> list[0].prev == Nobody && list[|list| - 1].next == null)
      && (forall i, j | 0 <= i < j < |list| && j == i + 1 :: list[i].next == list[j] && list[j].prev == Behind(list[i]))
    }

    /** Prepends `s`; a sweep in progress never reaches it, because it enters before the iterator. */
    method Link(s: Socket)
      requires Valid() && s !in list
      modifies this`head, this`list, this`done, s`context, s`timeout, s`next, s`prev
      modifies (if head == null then {} else {head})`prev
      ensures Valid() && list == [s] + old(list) && done == [s] + old(done)
      ensures s.context == this && s.timeout == 0
    {
      s.context := this;
      s.timeout := 0;
      s.next := head;
      s.prev := Nobody;
      if head != null {
        head.prev := Behind(s);
      }
      head := s;
      list := [s] + list;
      done := [s] + done;
    }

    /** Deletes `s` wherever it stands, stepping the iterator past it first. */
    method Unlink(s: Socket)
      requires Valid() && s in list
      modifies this`head, this`cursor, this`list, this`done, this`todo
      modifies list`next, list`prev
      ensures Valid() && list == Without(old(list), s)
      ensures done == Without(old(done), s) && todo == Without(old(todo), s)
    {
      hide Linked, LinkedAcross, Distinct, Without;
      ghost var i: nat :| i < |list| && list[i] == s;
      StepPast(s, i);
      Bypass(s, i);
      CutIs(list, i, done, todo);
      CutLinked(list, i);
      list, done, todo := Without(list, s), Without(done, s), Without(todo, s);
    }

    /** The test `s->prev == s->next` holds exactly for the only socket of a list. */
    lemma SoleMember(s: Socket)
      requires Valid() && s in list
      ensures SamePointer(s.prev, s.next) <==> list == [s]
    {
      var i :| 0 <= i < |list| && list[i] == s;
      assert s.prev == (if i == 0 then Nobody else Behind(list[i - 1])) && s.next == At(list, i + 1);
    }

    /** Moves a sweep's iterator off `s`, which stands at position `i`. */
    method StepPast(s: Socket, ghost i: nat)
      requires Linked(list) && i < |list| && list[i] == s
      modifies this`cursor
      ensures cursor == if old(cursor) == s then At(list, i + 1) else old(cursor)
    {
      if s == cursor {
        assert s.next == At(list, i + 1);
        cursor := s.next;
      }
    }

    /** Joins the neighbours of `s`, which stands at position `i`, to each other. */
    method Bypass(s: Socket, ghost i: nat)
      requires Linked(list) && Distinct(list) && head == At(list, 0) && i < |list| && list[i] == s
      modifies this`head, list`next, list`prev
      ensures LinkedAcross(list, i)
      ensures head == if i == 0 then At(list, 1) else list[0]
    {
      assert s.prev == (if i == 0 then Nobody else Behind(list[i - 1])) && s.next == At(list, i + 1);
      if SamePointer(s.prev, s.next) {
        head := null;
      } else {
        if s.prev != Nobody {
          s.prev.socket.next := s.next;
        } else {
          head := s.next;
        }
        if s.next != null {
          s.next.prev := s.prev;
        }
      }
    }

    /** `list` is linked, except that the neighbours of position `i` already name each other. */
    static ghost predicate LinkedAcross(list: seq<Socket>, i: nat)
      requires i < |list|
      reads list`next, list`prev
    {
      && (forall j, k | 0 <= j < k < |list| && k == j + 1 && j != i && k != i ::
        list[j].next == list[k] && list[k].prev == Behind(list[j]))
      && (0 < i ==> list[0].prev == Nobody && list[i - 1].next == At(list, i + 1))
      && (i + 1 < |list| ==> list[|list| - 1].next == null &&
                             list[i + 1].prev == if i == 0 then Nobody else Behind(list[i - 1]))
    }

    static lemma CutLinked(list: seq<Socket>, i: nat)
      requires i < |list| && Distinct(list) && LinkedAcross(list, i)
      ensures Linked(Without(list, list[i]))
    {
      WithoutAt(list, i);
      var cut := Without(list, list[i]);
      forall j, k | 0 <= j < k < |cut| && k == j + 1
        ensures cut[j].next == cut[k] && cut[k].prev == Behind(cut[j])
      {
        if k < i {
          assert cut[j] == list[j] && cut[k] == list[k];
        } else if k == i {
          assert cut[j] == list[j] && cut[k] == list[k + 1];
        } else {
          assert cut[j] == list[j + 1] && cut[k] == list[k + 1];
        }
      }
    }

    /** Cutting position `i` out of a duplicate-free list, seen from its two halves. */
    static lemma CutIs(list: seq<Socket>, i: nat, done: seq<Socket>, todo: seq<Socket>)
      requires list == done + todo && Distinct(list) && i < |list|
      ensures Distinct(Without(list, list[i]))
      ensures Without(list, list[i]) == Without(done, list[i]) + Without(todo, list[i])
      ensures At(Without(list, list[i]), 0) == if i == 0 then At(list, 1) else list[0]
      ensures At(Without(todo, list[i]), 0) == if At(todo, 0) == list[i] then At(list, i + 1) else At(todo, 0)
    {
      WithoutAt(list, i);
      DistinctCut(list, i);
      WithoutConcat(done, todo, list[i]);
      assert todo == list[|done|..];
      if i != |done| && todo != [] {
        assert todo[0] == list[|done|];
        assert Without(todo, list[i])[0] == todo[0];
      } else if i == |done| {
        WithoutAt(todo, 0);
        assert Without(todo, list[i]) == list[i + 1..];
      }
    }

    /** A sweep starts over the list. */
    method StartPass()
      requires Valid()
      modifies this`cursor, this`done, this`todo
      ensures Valid() && done == [] && todo == old(done) + old(todo)
    {
      hide Linked, Distinct;
      cursor := head;
      done, todo := [], list;
    }

    /** The sweep moves on to the socket after the one it stands at. */
    method Advance(s: Socket)
      requires Valid() && todo != [] && s == todo[0]
      modifies this`cursor, this`done, this`todo
      ensures Valid() && done == old(done) + [s] && todo == old(todo)[1..]
    {
      assert list[|done|] == s && s.next == At(list, |done| + 1);
      cursor := s.next;
      assert todo == [s] + todo[1..];
      done, todo := done + [s], todo[1..];
    }
  }
}
