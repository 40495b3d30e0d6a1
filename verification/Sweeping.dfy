/**
 The timeout sweep on values: its steps keep the invariant, and one pass over a context
 sees every socket that stays linked exactly once, whatever callbacks do in between.
 */
module Sweeping {
  import opened Batch
  import opened Interference
  import opened Journal
  import opened Masks
  import opened Memory
  import opened Relinking
  import opened Retuning
  import opened Sequences
  import opened State

  // ---------- the steps ----------

  ghost predicate Idle(g: State) {
    forall c | c in g.lines :: g.lines[c].todo == []
  }

  /** Invariants other than those of the lists do not see the sweep's iterators. */
  lemma IteratorsOnly(g: State, h: State)
    requires Inv(g) && ListsInv(h)
    requires h == g.(lines := h.lines, passed := h.passed, ahead := h.ahead)
    ensures Inv(h)
  {
    hide ListsInv, KeysOk, CountOk, IdsOk, HistoryOk, JournalOk, DescriptorsOk, FiltersOk, InterestOk, PendingOk;
    hide MaskInv;
    MasksStay(g, h);
  }

  lemma OutsideIsIdle(g: State)
    requires ListsInv(g) && g.ahead == []
    ensures Idle(g)
  {
    hide LinesOk, PlacesOk, ClosedOk, Distinct;
  }

  lemma SweepStartKeeps(g: State)
    requires Inv(g) && g.ahead == []
    ensures Inv(AfterSweepStart(g)) && Idle(AfterSweepStart(g))
  {
    hide LinesOk, PlacesOk, ClosedOk, Distinct, PollInv, LifeInv, MaskInv;
    assert [] + (g.passed + g.ahead) == g.passed + g.ahead;
    IteratorsOnly(g, AfterSweepStart(g));
  }

  lemma RelineKeeps(g: State, c: Context, line: Line)
    requires ListsInv(g) && c in g.lines && LineOk(g.places, c, line)
    requires forall x | g.lines[c].Has(x) :: line.Has(x)
    requires line.todo != [] ==> g.ahead != [] && g.ahead[0] == c
    ensures ListsInv(g.(lines := g.lines[c := line]))
  {
    hide LineOk, ClosedOk, Distinct;
  }

  lemma PassStartKeeps(g: State, c: Context)
    requires Inv(g) && g.ahead != [] && g.ahead[0] == c && Idle(g)
    ensures c in g.lines && Inv(AfterPassStart(g, c))
    ensures AfterPassStart(g, c).lines[c] == Line([], g.lines[c].done)
  {
    hide PlacesOk, ClosedOk, Distinct, PollInv, LifeInv, MaskInv, Sorted;
    assert LineOk(g.places, c, g.lines[c]);
    assert g.lines[c].done + g.lines[c].todo == g.lines[c].done;
    SortedEmpty(g.places);
    RelineKeeps(g, c, Line([], g.lines[c].done));
    IteratorsOnly(g, AfterPassStart(g, c));
  }

  lemma SortedEmpty(places: map<Socket, Place>)
    ensures Sorted(places, [])
  {
  }

  lemma StepLine(places: map<Socket, Place>, c: Context, line: Line)
    requires LineOk(places, c, line) && line.todo != []
    ensures LineOk(places, c, line.Step())
  {
    var s, rest := line.todo[0], line.todo[1..];
    assert s in line.todo && forall x | x in rest :: x in line.todo;
    SortedTail(places, line.todo);
    SortedAppend(places, line.done, s);
    hide Sorted;
  }

  /** `x` was linked before all of `list`. */
  ghost predicate Below(places: map<Socket, Place>, x: Socket, list: seq<Socket>) {
    forall y | y in list :: x in places && y in places && places[y].stamp > places[x].stamp
  }

  lemma SortedAppend(places: map<Socket, Place>, list: seq<Socket>, s: Socket)
    requires Sorted(places, list) && Below(places, s, list)
    ensures Sorted(places, list + [s])
  {
    forall i, j | 0 <= i < j < |list + [s]|
      ensures var l := list + [s]; l[i] in places && l[j] in places && places[l[i]].stamp > places[l[j]].stamp
    {
      assert (list + [s])[i] == list[i];
      if j < |list| {
        assert (list + [s])[j] == list[j];
      }
    }
  }

  lemma StepKeeps(g: State, c: Context)
    requires Inv(g) && c in g.lines && g.lines[c].todo != []
    ensures Inv(AfterStep(g, c))
  {
    hide PlacesOk, ClosedOk, Distinct, PollInv, LifeInv, MaskInv, LineOk;
    StepLine(g.places, c, g.lines[c]);
    StepHas(g.lines[c]);
    RelineKeeps(g, c, g.lines[c].Step());
    IteratorsOnly(g, AfterStep(g, c));
  }

  lemma StepHas(line: Line)
    requires line.todo != []
    ensures forall x | line.Has(x) :: line.Step().Has(x)
  {
    forall x | line.Has(x)
      ensures line.Step().Has(x)
    {
      if x in line.todo {
        var i :| 0 <= i < |line.todo| && line.todo[i] == x;
        if i > 0 {
          assert line.todo[1..][i - 1] == x;
        }
      }
    }
  }

  lemma PassEndKeeps(g: State)
    requires Inv(g) && g.ahead != [] && Idle(g)
    ensures Inv(AfterPassEnd(g)) && Idle(AfterPassEnd(g))
  {
    hide LinesOk, PlacesOk, ClosedOk, PollInv, LifeInv, MaskInv, Distinct;
    var h := AfterPassEnd(g);
    assert h.passed + h.ahead == g.passed + g.ahead;
    assert g.ahead == [g.ahead[0]] + h.ahead;
    IteratorsOnly(g, h);
  }

  // ---------- one pass ----------

  ghost predicate Decreasing(v: seq<nat>) {
    forall i, j | 0 <= i < j < |v| :: v[i] > v[j]
  }

  /** The stamps of the sockets in `list`. */
  ghost function Stamps(places: map<Socket, Place>, list: seq<Socket>): set<nat> {
    set x | x in list && x in places :: places[x].stamp
  }

  /**
   Midway through a pass over `c` that began when the clock stood at `start` and the stamps
   in the list were `begun`: what the pass has seen, what is still ahead of it, and that
   nothing linked throughout has been missed.
   */
  ghost predicate Passing(places: map<Socket, Place>, todo: seq<Socket>, c: Context,
                          start: nat, begun: set<nat>, seen: seq<nat>) {
    && Decreasing(seen)
    && (forall v | v in seen :: v in begun)
    && (forall x | x in todo :: x in places && places[x].stamp < start && places[x].stamp in begun)
    && (forall x, v | x in todo && v in seen :: x in places && v > places[x].stamp)
    && (forall x | LinkedIn(places, c, x) && places[x].stamp < start :: x in todo || places[x].stamp in seen)
  }

  lemma PassBegins(g: State, c: Context)
    requires ListsInv(g) && c in g.lines && g.lines[c].done == []
    ensures Passing(g.places, g.lines[c].todo, c, g.clock, Stamps(g.places, g.lines[c].todo), [])
  {
    hide ClosedOk, ContextsOk, Sorted;
    assert LineOk(g.places, c, g.lines[c]);
  }

  lemma DecreasingAppend(seen: seq<nat>, n: nat)
    requires Decreasing(seen) && forall v | v in seen :: v > n
    ensures Decreasing(seen + [n])
  {
    forall i, j | 0 <= i < j < |seen + [n]|
      ensures (seen + [n])[i] > (seen + [n])[j]
    {
      assert seen[i] in seen;
    }
  }

  /** The pass sees the first socket ahead of it and steps past it. */
  lemma PassSees(g: State, c: Context, start: nat, begun: set<nat>, seen: seq<nat>)
    requires ListsInv(g) && c in g.lines && g.lines[c].todo != []
    requires Passing(g.places, g.lines[c].todo, c, start, begun, seen)
    ensures var s := g.lines[c].todo[0];
            && s in g.places
            && Passing(g.places, g.lines[c].todo[1..], c, start, begun, seen + [g.places[s].stamp])
  {
    hide ClosedOk, ContextsOk, PlacesOk, Decreasing;
    var todo := g.lines[c].todo;
    assert LineOk(g.places, c, g.lines[c]);
    SortedTail(g.places, todo);
    assert todo == [todo[0]] + todo[1..];
    assert todo[0] in todo;
    DecreasingAppend(seen, g.places[todo[0]].stamp);
    assert forall x | x in todo[1..] :: x in todo;
  }

  /**
   A callback given while `s` is first ahead leaves `s` first if it is still linked there,
   and otherwise not ahead at all.
   */
  lemma FirstOrGone(a: State, b: State, c: Context)
    requires ListsInv(a) && ListsInv(b) && ListsRely(a, b) && c in a.lines && a.lines[c].todo != []
    ensures c in b.lines && |b.lines[c].todo| <= |a.lines[c].todo|
    ensures var s := a.lines[c].todo[0];
            s in b.lines[c].todo ==> b.lines[c].todo[0] == s
  {
    hide ClosedOk, ContextsOk, PlacesOk, OldLinks, IsSuffix;
    var s := a.lines[c].todo[0];
    var todo := b.lines[c].todo;
    assert LineRely(a.places, a.lines[c], b.places, b.lines[c], c);
    if s in todo && todo[0] != s {
      assert LineOk(a.places, c, a.lines[c]) && LineOk(b.places, c, b.lines[c]);
      SortedFirst(b.places, todo, s);
      assert todo[0] in todo;
      SortedFirst(a.places, a.lines[c].todo, todo[0]);
      assert false;
    }
  }

  lemma SortedFirst(places: map<Socket, Place>, list: seq<Socket>, x: Socket)
    requires Sorted(places, list) && x in list && x != list[0]
    ensures list[0] in places && x in places && places[list[0]].stamp > places[x].stamp
  {
    var i :| 0 <= i < |list| && list[i] == x;
  }

  /** Before stepping, a callback may have run; the pass is as far as it was. */
  lemma PassSurvives(a: State, b: State, c: Context, start: nat, begun: set<nat>, seen: seq<nat>)
    requires ListsInv(a) && ListsRely(a, b) && c in a.lines && start <= a.clock
    requires Passing(a.places, a.lines[c].todo, c, start, begun, seen)
    ensures c in b.lines && Passing(b.places, b.lines[c].todo, c, start, begun, seen)
  {
    hide LinesOk, PlacesOk, ClosedOk, ContextsOk, IsSuffix, Decreasing;
    assert LineRely(a.places, a.lines[c], b.places, b.lines[c], c);
  }

  /** The callback unlinked the socket being seen: it counts as seen all the same. */
  lemma PassLoses(a: State, b: State, c: Context, start: nat, begun: set<nat>, seen: seq<nat>)
    requires ListsInv(a) && ListsInv(b) && ListsRely(a, b) && c in a.lines && a.lines[c].todo != [] && start <= a.clock
    requires Passing(a.places, a.lines[c].todo, c, start, begun, seen)
    requires a.lines[c].todo[0] in a.places
    requires c in b.lines && a.lines[c].todo[0] !in b.lines[c].todo
    ensures Passing(b.places, b.lines[c].todo, c, start, begun, seen + [a.places[a.lines[c].todo[0]].stamp])
  {
    hide LinesOk, PlacesOk, ClosedOk, ContextsOk, IsSuffix, Decreasing, Passing;
    PassSees(a, c, start, begun, seen);
    PassShrinks(a, b, c, start, begun, seen + [a.places[a.lines[c].todo[0]].stamp]);
  }

  lemma PassShrinks(a: State, b: State, c: Context, start: nat, begun: set<nat>, seen: seq<nat>)
    requires ListsInv(a) && ListsRely(a, b) && c in a.lines && a.lines[c].todo != [] && start <= a.clock
    requires Passing(a.places, a.lines[c].todo[1..], c, start, begun, seen)
    requires c in b.lines && a.lines[c].todo[0] !in b.lines[c].todo
    ensures Passing(b.places, b.lines[c].todo, c, start, begun, seen)
  {
    hide LinesOk, PlacesOk, ClosedOk, ContextsOk, IsSuffix, Decreasing;
    var todo := a.lines[c].todo;
    assert todo == [todo[0]] + todo[1..];
    assert LineRely(a.places, a.lines[c], b.places, b.lines[c], c);
  }

  // ---------- the pass as the journal shows it ----------

  /** Seeing a socket is one event, which carries its stamp. */
  lemma VisitSwept(g: State, s: Socket, n: nat)
    requires IsLive(g, s) && n <= |g.log|
    ensures Swept(AfterVisit(g, s).log, n) == Swept(g.log, n) + [g.places[s].stamp]
    ensures n <= |AfterVisit(g, s).log|
  {
    var e := Visited(g.tags[s].id, g.places[s].stamp, g.tunings[s].timeout == 1);
    assert (g.log + [e])[..|g.log|] == g.log;
  }

  /** A callback is not a sweep: what the pass has seen stays as it was. */
  lemma CallbackSwept(a: State, b: State, n: nat)
    requires Rely(a, b) && n <= |a.log|
    ensures Swept(b.log, n) == Swept(a.log, n) && n <= |b.log|
  {
    hide ListsRely, LivesRely;
    SweptAcross(a.log, b.log, n);
  }

  // ---------- the pass by identities ----------

  /** What a pass starts from: the clock, the stamps and identities of the list, and the length of the journal. */
  datatype Start = Start(clock: nat, stamps: set<nat>, ids: set<nat>, length: nat)

  /** The identities of the sockets in `list`. */
  ghost function Ids(tags: map<Socket, Tag>, list: seq<Socket>): set<nat> {
    set x | x in list && x in tags :: tags[x].id
  }

  /** What a pass over `c` starts from in `g`, when the whole list is still ahead. */
  ghost function StartOf(g: State, c: Context): Start
    requires c in g.lines
  {
    Start(g.clock, Stamps(g.places, g.lines[c].done), Ids(g.tags, g.lines[c].done), |g.log|)
  }

  /**
   How often the sockets of the pass have been visited, by identity: those linked when it
   began and still linked, once, unless they are in `rest`; nobody twice; and nobody else.
   */
  ghost predicate Counted(places: map<Socket, Place>, tags: map<Socket, Tag>, log: seq<Event>, c: Context,
                          rest: seq<Socket>, at: Start) {
    && at.length <= |log|
    && (forall x | LinkedIn(places, c, x) && x in tags && places[x].stamp < at.clock ::
      tags[x].id in at.ids && Visits(log, tags[x].id, at.length, |log|) == if x in rest then 0 else 1)
    && (forall id :: Visits(log, id, at.length, |log|) <= if id in at.ids then 1 else 0)
  }

  lemma {:induction false} VisitsAcross(before: seq<Event>, after: seq<Event>, id: nat, n: nat)
    requires Continues(before, after) && n <= |before|
    ensures Visits(after, id, n, |after|) == Visits(before, id, n, |before|)
    decreases |after|
  {
    if |before| == |after| {
      assert before == after;
    } else {
      var front := after[..|after| - 1];
      VisitsAcross(before, front, id, n);
      VisitsPrefix(front, after, id, n, |front|);
    }
  }

  /** Later events do not change how often there were visits before. */
  lemma {:induction false} VisitsPrefix(log: seq<Event>, more: seq<Event>, id: nat, i: nat, j: nat)
    requires log <= more && i <= j <= |log|
    ensures Visits(more, id, i, j) == Visits(log, id, i, j)
    decreases j - i
  {
    if i < j {
      VisitsPrefix(log, more, id, i, j - 1);
      assert more[j - 1] == log[j - 1];
    }
  }

  lemma VisitsOne(log: seq<Event>, e: Event, id: nat, n: nat)
    requires n <= |log|
    ensures Visits(log + [e], id, n, |log + [e]|)
            == Visits(log, id, n, |log|) + if e.Visited? && e.id == id then 1 else 0
  {
    VisitsPrefix(log, log + [e], id, n, |log|);
  }

  lemma CountBegins(g: State, c: Context, at: Start)
    requires ListsInv(g) && KeysOk(g.places, g.tags, g.tunings) && c in g.lines && g.lines[c].done == []
    requires at.clock == g.clock && at.length == |g.log| && at.ids == Ids(g.tags, g.lines[c].todo)
    ensures Counted(g.places, g.tags, g.log, c, g.lines[c].todo, at)
  {
    hide LinesOk, ClosedOk, ContextsOk;
    forall x | LinkedIn(g.places, c, x) && x in g.tags && g.places[x].stamp < at.clock
      ensures x in g.lines[c].todo && g.tags[x].id in at.ids
    {
      assert g.lines[c].Has(x);
    }
  }

  /** The first socket ahead is visited. */
  lemma CountSees(g: State, c: Context, at: Start)
    requires Inv(g) && c in g.lines && g.lines[c].todo != [] && IsLive(g, g.lines[c].todo[0])
    requires Counted(g.places, g.tags, g.log, c, g.lines[c].todo, at)
    requires forall x | x in g.lines[c].todo :: x in g.places && g.places[x].stamp < at.clock
    ensures var h := AfterVisit(g, g.lines[c].todo[0]);
            Counted(h.places, h.tags, h.log, c, g.lines[c].todo[1..], at)
  {
    hide ListsInv, PollInv, KeysOk, CountOk, HistoryOk, JournalOk, MaskInv, Visits;
    var todo := g.lines[c].todo;
    var s, rest := todo[0], todo[1..];
    var h := AfterVisit(g, s);
    var e := Visited(g.tags[s].id, g.places[s].stamp, g.tunings[s].timeout == 1);
    TodoLinked(g, c);
    assert todo == [s] + rest && s in todo;
    forall id
      ensures Visits(h.log, id, at.length, |h.log|) ==
              Visits(g.log, id, at.length, |g.log|) + if e.id == id then 1 else 0
    {
      VisitsOne(g.log, e, id, at.length);
    }
    assert forall x | LinkedIn(g.places, c, x) && x in g.tags && x != s :: g.tags[x].id != e.id;
  }

  lemma TodoLinked(g: State, c: Context)
    requires Inv(g) && c in g.lines && g.lines[c].todo != []
    ensures LinkedIn(g.places, c, g.lines[c].todo[0]) && g.lines[c].todo[0] !in g.lines[c].todo[1..]
  {
    hide PlacesOk, ClosedOk, ContextsOk, PollInv, LifeInv, MaskInv;
    assert LineOk(g.places, c, g.lines[c]);
    SortedTail(g.places, g.lines[c].todo);
    hide Sorted;
    assert g.lines[c].todo[0] in g.lines[c].todo;
  }

  /** Callbacks visit nobody, and link nobody with an old stamp. */
  lemma CountAcross(a: State, b: State, c: Context, before: seq<Socket>, after: seq<Socket>, at: Start)
    requires Counted(a.places, a.tags, a.log, c, before, at) && at.clock <= a.clock
    requires KeepsOld(a, b) && Continues(a.log, b.log)
    requires forall x | LinkedIn(b.places, c, x) && b.places[x].stamp < at.clock :: x in after <==> x in before
    ensures Counted(b.places, b.tags, b.log, c, after, at)
  {
    hide Visits, Continues;
    LongerLog(a.log, b.log);
    forall id
      ensures Visits(b.log, id, at.length, |b.log|) == Visits(a.log, id, at.length, |a.log|)
    {
      VisitsAcross(a.log, b.log, id, at.length);
    }
  }

  lemma LongerLog(before: seq<Event>, after: seq<Event>)
    requires Continues(before, after)
    ensures |before| <= |after|
  {
  }

  lemma TodoOld(places: map<Socket, Place>, todo: seq<Socket>, c: Context, start: nat, begun: set<nat>, seen: seq<nat>)
    requires Passing(places, todo, c, start, begun, seen)
    ensures forall x | x in todo :: x in places && places[x].stamp < start
  {
    hide Decreasing;
  }

  /** The visit of the first socket ahead, before anything else happens. */
  lemma SeesFirst(g: State, c: Context, at: Start)
    requires Inv(g) && MidPass(g, c, at) && g.lines[c].todo != [] && IsLive(g, g.lines[c].todo[0])
    ensures var h := AfterVisit(g, g.lines[c].todo[0]);
            && Inv(h) && h.lines == g.lines && h.clock == g.clock
            && Counted(h.places, h.tags, h.log, c, g.lines[c].todo[1..], at)
  {
    hide ListsInv, PollInv, LifeInv, MaskInv, Swept, Passing, Counted;
    TodoLinked(g, c);
    VisitKeeps(g, g.lines[c].todo[0]);
    TodoOld(g.places, g.lines[c].todo, c, at.clock, at.stamps, Swept(g.log, at.length));
    CountSees(g, c, at);
  }

  /** The socket that was visited is still first ahead: it is not ahead of the next step. */
  lemma CountStays(a: State, b: State, c: Context, at: Start)
    requires Inv(a) && Inv(b) && Rely(a, b) && c in a.lines && c in b.lines && at.clock <= a.clock
    requires a.lines[c].todo != [] && b.lines[c].todo != [] && b.lines[c].todo[0] == a.lines[c].todo[0]
    requires Counted(a.places, a.tags, a.log, c, a.lines[c].todo[1..], at)
    ensures Counted(b.places, b.tags, b.log, c, b.lines[c].todo[1..], at)
  {
    hide ListsInv, PollInv, LifeInv, MaskInv, LivesRely, Counted, IsSuffix, Continues;
    TodoLinked(a, c);
    TodoLinked(b, c);
    var s, before, after := a.lines[c].todo[0], a.lines[c].todo[1..], b.lines[c].todo[1..];
    assert a.lines[c].todo == [s] + before && b.lines[c].todo == [s] + after;
    assert LineRely(a.places, a.lines[c], b.places, b.lines[c], c);
    CountAcross(a, b, c, before, after, at);
  }

  /** The socket that was visited is not ahead any more. */
  lemma CountLoses(a: State, b: State, c: Context, at: Start)
    requires Inv(a) && Inv(b) && Rely(a, b) && c in a.lines && c in b.lines && at.clock <= a.clock
    requires a.lines[c].todo != [] && a.lines[c].todo[0] !in b.lines[c].todo
    requires Counted(a.places, a.tags, a.log, c, a.lines[c].todo[1..], at)
    ensures Counted(b.places, b.tags, b.log, c, b.lines[c].todo, at)
  {
    hide ListsInv, PollInv, LifeInv, MaskInv, LivesRely, Counted, IsSuffix, Continues;
    TodoLinked(a, c);
    var s, before := a.lines[c].todo[0], a.lines[c].todo[1..];
    assert a.lines[c].todo == [s] + before;
    assert LineRely(a.places, a.lines[c], b.places, b.lines[c], c);
    CountAcross(a, b, c, before, b.lines[c].todo, at);
  }

  // ---------- the state of a pass ----------

  /** The state of a pass over `c` at the head of its loop. */
  ghost predicate MidPass(g: State, c: Context, at: Start) {
    && c in g.lines && g.ahead != [] && g.ahead[0] == c
    && at.clock <= g.clock && at.length <= |g.log|
    && Passing(g.places, g.lines[c].todo, c, at.clock, at.stamps, Swept(g.log, at.length))
    && Counted(g.places, g.tags, g.log, c, g.lines[c].todo, at)
  }

  /** What a pass over `c` has done when it is over. */
  ghost predicate PassDone(g: State, c: Context, at: Start) {
    var seen := Swept(g.log, at.length);
    && Decreasing(seen)
    && (forall v | v in seen :: v in at.stamps)
    && (forall x | LinkedIn(g.places, c, x) && g.places[x].stamp < at.clock :: g.places[x].stamp in seen)
    && Counted(g.places, g.tags, g.log, c, [], at)
  }

  lemma MidPassDone(g: State, c: Context, at: Start)
    requires MidPass(g, c, at) && g.lines[c].todo == []
    ensures PassDone(g, c, at)
  {
    hide Swept, Counted;
  }

  /** Only the context being swept has an iterator. */
  lemma PassOverIsIdle(g: State, c: Context)
    requires ListsInv(g) && g.ahead != [] && g.ahead[0] == c && c in g.lines && g.lines[c].todo == []
    ensures Idle(g)
  {
    hide LinesOk, PlacesOk, ClosedOk, Distinct;
  }

  /** The first socket ahead is seen, no callback is due, and the pass steps past it. */
  lemma MidPassQuiet(g: State, c: Context, at: Start)
    requires Inv(g) && MidPass(g, c, at) && g.lines[c].todo != []
    requires IsLive(g, g.lines[c].todo[0])
    ensures var h := AfterVisit(g, g.lines[c].todo[0]);
            c in h.lines && h.lines[c].todo == g.lines[c].todo && MidPass(AfterStep(h, c), c, at)
  {
    hide Swept, Passing, Counted, ListsInv, PollInv, LifeInv, MaskInv;
    VisitSwept(g, g.lines[c].todo[0], at.length);
    PassSees(g, c, at.clock, at.stamps, Swept(g.log, at.length));
    SeesFirst(g, c, at);
  }

  /** A callback ran while the socket was being seen, and left it first: the pass steps past it. */
  lemma MidPassStayed(g: State, b: State, c: Context, at: Start)
    requires Inv(g) && Inv(b) && MidPass(g, c, at) && g.lines[c].todo != []
    requires IsLive(g, g.lines[c].todo[0]) && Rely(AfterVisit(g, g.lines[c].todo[0]), b)
    requires c in b.lines && b.lines[c].todo != [] && b.lines[c].todo[0] == g.lines[c].todo[0]
    ensures MidPass(AfterStep(b, c), c, at)
  {
    hide Swept, Passing, Counted, ListsInv, PollInv, LifeInv, MaskInv, LivesRely;
    var s := g.lines[c].todo[0];
    var a := AfterVisit(g, s);
    VisitSwept(g, s, at.length);
    CallbackSwept(a, b, at.length);
    VisitLists(g, s);
    PassSurvives(a, b, c, at.clock, at.stamps, Swept(g.log, at.length));
    PassSees(b, c, at.clock, at.stamps, Swept(g.log, at.length));
    SeesFirst(g, c, at);
    CountStays(a, b, c, at);
    FirstStamp(a, b, c);
  }

  /** The callback took the socket being seen out of the list: it has been seen all the same. */
  lemma MidPassLeft(g: State, b: State, c: Context, at: Start)
    requires Inv(g) && Inv(b) && MidPass(g, c, at) && g.lines[c].todo != []
    requires IsLive(g, g.lines[c].todo[0]) && Rely(AfterVisit(g, g.lines[c].todo[0]), b)
    requires c in b.lines && g.lines[c].todo[0] !in b.lines[c].todo
    ensures MidPass(b, c, at)
  {
    hide Swept, Passing, Counted, ListsInv, PollInv, LifeInv, MaskInv, LivesRely;
    var s := g.lines[c].todo[0];
    var a := AfterVisit(g, s);
    VisitSwept(g, s, at.length);
    CallbackSwept(a, b, at.length);
    VisitLists(g, s);
    PassLoses(a, b, c, at.clock, at.stamps, Swept(g.log, at.length));
    SeesFirst(g, c, at);
    CountLoses(a, b, c, at);
  }

  lemma VisitLists(g: State, s: Socket)
    requires ListsInv(g) && IsLive(g, s)
    ensures ListsInv(AfterVisit(g, s))
  {
    hide LinesOk, PlacesOk, ClosedOk, ContextsOk;
  }

  lemma FirstStamp(a: State, b: State, c: Context)
    requires ListsRely(a, b) && c in a.lines && c in b.lines && b.lines[c].todo != []
    ensures var s := b.lines[c].todo[0];
            s in a.places && s in b.places && a.places[s].stamp == b.places[s].stamp
  {
    hide OldLinks, IsSuffix;
    assert LineRely(a.places, a.lines[c], b.places, b.lines[c], c);
  }

  /** A sorted list that lost its first member is shorter. */
  lemma LeftIsShorter(a: State, b: State, c: Context)
    requires ListsInv(a) && ListsInv(b) && ListsRely(a, b) && c in a.lines && c in b.lines
    requires a.lines[c].todo != [] && a.lines[c].todo[0] !in b.lines[c].todo
    ensures |b.lines[c].todo| < |a.lines[c].todo|
  {
    hide PlacesOk, ClosedOk, ContextsOk, OldLinks, IsSuffix;
    var before, after := a.lines[c].todo, b.lines[c].todo;
    assert LineRely(a.places, a.lines[c], b.places, b.lines[c], c);
    assert LineOk(b.places, c, b.lines[c]);
    SortedDistinct(b.places, after);
    hide LinesOk;
    assert before == [before[0]] + before[1..];
    DistinctIsShorter(after, before[1..]);
  }

  lemma SortedDistinct(places: map<Socket, Place>, list: seq<Socket>)
    requires Sorted(places, list)
    ensures Distinct(list)
  {
  }

  // ---------- turn by turn ----------

  /** One turn of the inner loop: the first socket ahead was seen, which led to `mid`. */
  datatype Sight = Sight(before: State, mid: State, after: State)

  /** The pass steps past `s` if it is still first ahead. */
  function StepPast(g: State, c: Context, s: Socket): State {
    if c in g.lines && g.lines[c].todo != [] && g.lines[c].todo[0] == s then AfterStep(g, c) else g
  }

  /** A callback runs only for a socket that is due, and only after it was seen. */
  ghost predicate Sees(c: Context, t: Sight) {
    && c in t.before.lines && t.before.lines[c].todo != []
    && var s := t.before.lines[c].todo[0];
    && IsLive(t.before, s)
    && (if t.before.tunings[s].timeout == 1 then Gives(AfterVisit(t.before, s), OnSocket, t.mid)
        else t.mid == AfterVisit(t.before, s))
    && t.after == StepPast(t.mid, c, s)
  }

  /** Turn after turn, each from where the one before ended. */
  ghost predicate Turning(g: State, c: Context, sights: seq<Sight>, h: State) {
    if sights == [] then h == g
    else
      var last := sights[|sights| - 1];
      Sees(c, last) && h == last.after && Turning(g, c, sights[..|sights| - 1], last.before)
  }

  /** Whatever a sweep notes besides visits comes after an on_timeout that it called. */
  ghost predicate Prompted(log: seq<Event>, n: nat) {
    forall i | n <= i < |log| && !log[i].Visited? :: exists j :: n <= j < i && log[j].Visited? && log[j].fired
  }

  lemma PromptedThen(before: seq<Event>, after: seq<Event>, n: nat, m: nat)
    requires before <= after && n <= m <= |before| && Prompted(before, n) && Prompted(after, m) && m == |before|
    ensures Prompted(after, n)
  {
    forall i | n <= i < |after| && !after[i].Visited?
      ensures exists j :: n <= j < i && after[j].Visited? && after[j].fired
    {
      if i < m {
        assert before[i] == after[i];
        var j :| n <= j < i && before[j].Visited? && before[j].fired;
        assert after[j] == before[j];
      } else {
        var j :| m <= j < i && after[j].Visited? && after[j].fired;
      }
    }
  }

  /** A turn notes a visit first, and more only if that called on_timeout. */
  lemma SeesPrompts(c: Context, t: Sight)
    requires Sees(c, t)
    ensures t.before.log <= t.after.log && Prompted(t.after.log, |t.before.log|)
  {
    hide ListsRely, LivesRely;
    var n := |t.before.log|;
    assert t.after.log == t.mid.log;
    assert t.after.log[n].Visited?;
  }

  lemma {:induction false} TurnsPrompt(g: State, c: Context, sights: seq<Sight>, h: State)
    requires Turning(g, c, sights, h)
    ensures g.log <= h.log && Prompted(h.log, |g.log|)
    decreases |sights|
  {
    hide Sees;
    if sights != [] {
      var n := |sights| - 1;
      TurnsPrompt(g, c, sights[..n], sights[n].before);
      SeesPrompts(c, sights[n]);
      PromptedThen(sights[n].before.log, h.log, |g.log|, |sights[n].before.log|);
    }
  }

  // ---------- the batch ----------

  ghost predicate AllOpen(places: map<Socket, Place>, pending: seq<Entry>) {
    forall i | 0 <= i < |pending| :: EntryOk(places, pending[i])
  }

  lemma BatchKeeps(g: State, pending: seq<Entry>)
    requires Inv(g) && AtMostTwice(pending) && AllOpen(g.places, pending)
    ensures Inv(g.(pending := pending))
  {
    hide LinesOk, PlacesOk, ClosedOk, ContextsOk, KeysOk, CountOk, IdsOk, HistoryOk, JournalOk;
    hide DescriptorsOk, FiltersOk, InterestOk, AtMostTwice, EntryOk, MaskInv;
    MasksStay(g, g.(pending := pending));
  }

  /** Connections come in, or are accepted. */
  lemma QueuesKeep(b: State, q: Queues)
    requires Inv(b)
    ensures Inv(b.(queues := q))
  {
    hide LinesOk, PlacesOk, ClosedOk, ContextsOk, DescriptorsOk, FiltersOk, InterestOk, PendingOk;
    hide KeysOk, CountOk, IdsOk, HistoryOk, JournalOk, MaskInv;
    MasksStay(b, b.(queues := q));
  }

  /** Moving on to the next entry: it, and all after it, name open sockets. */
  lemma NextEntryKeeps(g: State)
    requires Inv(g) && g.pending != []
    ensures Inv(g.(pending := g.pending[1..])) && AllOpen(g.places, g.pending[1..])
  {
    hide ListsInv, LifeInv, MaskInv, DescriptorsOk, FiltersOk, InterestOk, EntryOk;
    var rest := g.pending[1..];
    assert AtMostTwice(rest) by {
      AtMostTwiceTail(g.pending);
    }
    hide AtMostTwice;
    assert forall i | 0 <= i < |rest| :: rest[i] == g.pending[i + 1];
    BatchKeeps(g, rest);
  }
}
