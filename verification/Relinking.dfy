/**
 Operations that move sockets between lists, and into and out of memory, keep what the
 intrusive lists keep.
 */
module Relinking {
  import opened Kernel
  import opened Memory
  import opened Sequences
  import opened State

  ghost predicate Nowhere(lines: map<Context, Line>, s: Socket) {
    forall c | c in lines :: !lines[c].Has(s)
  }

  // ---------- single lists ----------

  /** `x` was linked after all of `list`. */
  ghost predicate Above(places: map<Socket, Place>, x: Socket, list: seq<Socket>) {
    forall y | y in list :: x in places && y in places && places[x].stamp > places[y].stamp
  }

  lemma SortedTail(places: map<Socket, Place>, list: seq<Socket>)
    requires Sorted(places, list) && list != []
    ensures Sorted(places, list[1..])
    ensures Above(places, list[0], list[1..])
  {
    var rest := list[1..];
    forall i, j | 0 <= i < j < |rest|
      ensures rest[i] in places && rest[j] in places && places[rest[i]].stamp > places[rest[j]].stamp
    {
      assert rest[i] == list[i + 1] && rest[j] == list[j + 1];
    }
    forall x | x in rest
      ensures list[0] in places && x in places && places[list[0]].stamp > places[x].stamp
    {
      var i :| 0 <= i < |rest| && rest[i] == x;
      assert list[i + 1] == x;
    }
  }

  lemma SortedPrepend(places: map<Socket, Place>, x: Socket, list: seq<Socket>)
    requires Sorted(places, list) && Above(places, x, list)
    ensures Sorted(places, [x] + list)
  {
    forall i, j | 0 <= i < j < |[x] + list|
      ensures var l := [x] + list; l[i] in places && l[j] in places && places[l[i]].stamp > places[l[j]].stamp
    {
      assert ([x] + list)[j] == list[j - 1];
      if i > 0 {
        assert ([x] + list)[i] == list[i - 1];
      } else {
        assert list[j - 1] in list;
      }
    }
  }

  lemma {:induction false} SortedWithout(places: map<Socket, Place>, list: seq<Socket>, s: Socket)
    requires Sorted(places, list)
    ensures Sorted(places, Without(list, s))
  {
    if list != [] {
      SortedTail(places, list);
      SortedWithout(places, list[1..], s);
      WithoutMembers(list[1..], s);
      if list[0] != s {
        SortedPrepend(places, list[0], Without(list[1..], s));
      }
    }
  }

  lemma LineWithout(places: map<Socket, Place>, c: Context, line: Line, s: Socket)
    requires LineOk(places, c, line)
    ensures LineOk(places, c, line.Drop(s)) && !line.Drop(s).Has(s)
    ensures LosesOnly(line.done, line.Drop(s).done, s) && LosesOnly(line.todo, line.Drop(s).todo, s)
  {
    hide Sorted, Without;
    SortedWithout(places, line.done, s);
    SortedWithout(places, line.todo, s);
    WithoutMembers(line.done, s);
    WithoutMembers(line.todo, s);
  }

  lemma LineFrame(before: map<Socket, Place>, after: map<Socket, Place>, c: Context, line: Line)
    requires LineOk(before, c, line)
    requires forall x | line.Has(x) && x in before :: x in after && after[x] == before[x]
    ensures LineOk(after, c, line)
  {
    assert forall x | x in line.done :: line.Has(x) && x in before;
    assert forall x | x in line.todo :: line.Has(x) && x in before;
  }

  lemma LinePush(places: map<Socket, Place>, c: Context, line: Line, t: Socket, clock: nat)
    requires LineOk(places, c, line) && !line.Has(t)
    requires forall x | line.Has(x) && x in places :: places[x].stamp < clock
    ensures LineOk(places[t := Place(c, true, clock)], c, line.Push(t))
  {
    var after := places[t := Place(c, true, clock)];
    LineFrame(places, after, c, line);
    assert forall x | x in line.done :: line.Has(x) && x in places;
    assert forall x | x in line.todo :: line.Has(x) && x in places;
  }

  // ---------- all lists ----------

  lemma DropLines(places: map<Socket, Place>, lines: map<Context, Line>, s: Socket)
    requires LinesOk(places, lines) && s in places && places[s].ctx in lines
    ensures var rest := lines[places[s].ctx := lines[places[s].ctx].Drop(s)];
            && LinesOk(places, rest) && Nowhere(rest, s)
            && LosesOnly(lines[places[s].ctx].done, rest[places[s].ctx].done, s)
            && LosesOnly(lines[places[s].ctx].todo, rest[places[s].ctx].todo, s)
  {
    hide Sorted, Without;
    var k := places[s].ctx;
    LineWithout(places, k, lines[k], s);
    var rest := lines[k := lines[k].Drop(s)];
    forall c | c in lines && c != k
      ensures !lines[c].Has(s)
    {
      assert LineOk(places, c, lines[c]);
    }
  }

  lemma LinesFrame(before: map<Socket, Place>, after: map<Socket, Place>, lines: map<Context, Line>, s: Socket)
    requires LinesOk(before, lines) && Nowhere(lines, s)
    requires forall x | x in before && x != s :: x in after && after[x] == before[x]
    ensures LinesOk(after, lines)
  {
    hide LineOk;
    forall c | c in lines
      ensures LineOk(after, c, lines[c])
    {
      LineFrame(before, after, c, lines[c]);
    }
  }

  lemma PushLines(places: map<Socket, Place>, lines: map<Context, Line>, c: Context, t: Socket, clock: nat)
    requires LinesOk(places, lines) && c in lines && Nowhere(lines, t)
    requires forall x | x in places && x != t :: places[x].stamp < clock
    ensures LinesOk(places[t := Place(c, true, clock)], lines[c := lines[c].Push(t)])
  {
    hide LineOk;
    var after := places[t := Place(c, true, clock)];
    LinesFrame(places, after, lines, t);
    LinePush(places, c, lines[c], t, clock);
  }

  lemma PushHas(lines: map<Context, Line>, c: Context, t: Socket)
    requires c in lines
    ensures forall k, x | k in lines ::
              lines[c := lines[c].Push(t)][k].Has(x) <==> lines[k].Has(x) || (k == c && x == t)
  {
    forall k, x | k in lines
      ensures lines[c := lines[c].Push(t)][k].Has(x) <==> lines[k].Has(x) || (k == c && x == t)
    {
      if k == c {
        assert x in [t] + lines[c].done <==> x == t || x in lines[c].done;
      }
    }
  }

  /** A socket that is not in memory, or not open, is in no list. */
  lemma AbsentNowhere(places: map<Socket, Place>, lines: map<Context, Line>, t: Socket)
    requires LinesOk(places, lines) && !IsOpen(places, t)
    ensures Nowhere(lines, t)
  {
    hide Sorted;
    forall c | c in lines
      ensures !lines[c].Has(t)
    {
      assert LineOk(places, c, lines[c]);
    }
  }

  // ---------- the operations ----------

  lemma ContextsKept(lines: map<Context, Line>, after: map<Context, Line>, passed: seq<Context>, ahead: seq<Context>)
    requires ContextsOk(lines, passed, ahead) && after.Keys == lines.Keys
    requires forall c | c in lines && lines[c].todo == [] :: after[c].todo == []
    ensures ContextsOk(after, passed, ahead)
  {
    hide Distinct;
    assert forall c :: c in after <==> c in after.Keys;
    assert forall c :: c in lines <==> c in lines.Keys;
  }

  lemma CloseKeepsLists(g: State, s: Socket)
    requires ListsInv(g) && IsLive(g, s) && g.places[s].open
    ensures ListsInv(AfterCloseQuietly(g, s))
  {
    var h := AfterCloseQuietly(g, s);
    hide LinesOk, ContextsOk, Nowhere, Hangup, Retarget;
    var rest := h.lines;
    DropLines(g.places, g.lines, s);
    LinesFrame(g.places, h.places, rest, s);
    ClosePlaces(g, s);
    CloseClosed(g, s);
    DropContexts(g, s);
  }

  lemma ClosePlaces(g: State, s: Socket)
    requires LinesOk(g.places, g.lines) && PlacesOk(g.places, g.lines, g.clock) && IsLive(g, s)
    ensures var h := AfterCloseQuietly(g, s); PlacesOk(h.places, h.lines, h.clock)
  {
    hide LinesOk, Hangup, Retarget;
    DropLines(g.places, g.lines, s);
  }

  lemma CloseClosed(g: State, s: Socket)
    requires ClosedOk(g.places, g.closed) && IsLive(g, s) && g.places[s].open
    ensures var h := AfterCloseQuietly(g, s); ClosedOk(h.places, h.closed)
  {
    hide Hangup, Retarget;
    var h := AfterCloseQuietly(g, s);
    assert s !in g.closed;
    assert forall i | 0 < i < |h.closed| :: h.closed[i] == g.closed[i - 1];
  }

  lemma DropContexts(g: State, s: Socket)
    requires ContextsOk(g.lines, g.passed, g.ahead) && IsLive(g, s)
    ensures var k := g.places[s].ctx; ContextsOk(g.lines[k := g.lines[k].Drop(s)], g.passed, g.ahead)
  {
    hide ContextsOk;
    var k := g.places[s].ctx;
    WithoutMembers(g.lines[k].todo, s);
    ContextsKept(g.lines, g.lines[k := g.lines[k].Drop(s)], g.passed, g.ahead);
  }

  lemma PushContexts(lines: map<Context, Line>, passed: seq<Context>, ahead: seq<Context>, c: Context, t: Socket)
    requires ContextsOk(lines, passed, ahead) && c in lines
    ensures ContextsOk(lines[c := lines[c].Push(t)], passed, ahead)
  {
    hide ContextsOk;
    ContextsKept(lines, lines[c := lines[c].Push(t)], passed, ahead);
  }

  /** Linking a socket that was in no list and not on the close list, with the newest stamp. */
  lemma PushKeeps(g: State, h: State, c: Context, t: Socket)
    requires ListsInv(g) && c in g.lines && t !in g.places
    requires h.places == g.places[t := Place(c, true, g.clock)] && h.lines == g.lines[c := g.lines[c].Push(t)]
    requires h.closed == g.closed && h.clock == g.clock + 1 && h.passed == g.passed && h.ahead == g.ahead
    ensures ListsInv(h)
  {
    hide LinesOk, ContextsOk;
    AbsentNowhere(g.places, g.lines, t);
    PushLines(g.places, g.lines, c, t, g.clock);
    PushContexts(g.lines, g.passed, g.ahead, c, t);
    PushHas(g.lines, c, t);
    hide Nowhere, Distinct;
  }

  lemma CreateKeepsLists(g: State, c: Context, s: Socket, fd: int, kind: PollWord.Kind, events: PollWord.Mask)
    requires ListsInv(g) && c in g.lines && s !in g.places
    ensures ListsInv(AfterCreate(g, c, s, fd, kind, events))
  {
    hide ListsInv;
    PushKeeps(g, AfterCreate(g, c, s, fd, kind, events), c, s);
  }

  /** What is left while an adopted socket is in no list. */
  function Removed(g: State, s: Socket): State
    requires IsLive(g, s)
  {
    var k := g.places[s].ctx;
    g.(places := g.places - {s}, lines := g.lines[k := g.lines[k].Drop(s)])
  }

  lemma RemoveKeepsLists(g: State, s: Socket)
    requires ListsInv(g) && IsLive(g, s) && g.places[s].open
    ensures ListsInv(Removed(g, s))
  {
    hide LinesOk, ContextsOk, Nowhere, Distinct;
    var h := Removed(g, s);
    DropLines(g.places, g.lines, s);
    LinesFrame(g.places, h.places, h.lines, s);
    DropContexts(g, s);
  }

  lemma AdoptKeepsLists(g: State, c: Context, s: Socket, t: Socket)
    requires ListsInv(g) && IsLive(g, s) && g.places[s].open && c in g.lines && (t == s || t !in g.places)
    ensures ListsInv(AfterAdopt(g, c, s, t))
  {
    hide ListsInv;
    RemoveKeepsLists(g, s);
    PushKeeps(Removed(g, s), AfterAdopt(g, c, s, t), c, t);
  }

  lemma FreeKeepsLists(g: State)
    requires ListsInv(g) && g.closed != [] && g.closed[0] in g.tags
    ensures ListsInv(AfterFree(g))
  {
    hide LinesOk, ContextsOk, Distinct;
    var s := g.closed[0];
    AbsentNowhere(g.places, g.lines, s);
    LinesFrame(g.places, AfterFree(g).places, g.lines, s);
    FreeClosed(g);
    hide Nowhere, ClosedOk;
  }

  lemma FreeClosed(g: State)
    requires ClosedOk(g.places, g.closed) && g.closed != []
    ensures ClosedOk(g.places - {g.closed[0]}, g.closed[1..])
  {
    var rest := g.closed[1..];
    assert forall i | 0 <= i < |rest| :: rest[i] == g.closed[i + 1];
  }

  lemma NewContext(lines: map<Context, Line>, passed: seq<Context>, ahead: seq<Context>, c: Context)
    requires ContextsOk(lines, passed, ahead) && c !in lines
    ensures ContextsOk(lines[c := Line([], [])], [c] + passed, ahead)
  {
    assert ([c] + passed) + ahead == [c] + (passed + ahead);
    DistinctPrepend(c, passed + ahead);
    hide Distinct;
  }

  lemma ContextKeepsLists(g: State, c: Context)
    requires ListsInv(g) && c !in g.lines
    ensures ListsInv(AfterContext(g, c))
  {
    hide ContextsOk, LineOk, ClosedOk;
    NewContext(g.lines, g.passed, g.ahead, c);
    EmptyLine(g.places, c);
  }

  lemma EmptyLine(places: map<Socket, Place>, c: Context)
    ensures LineOk(places, c, Line([], []))
  {
  }
}
