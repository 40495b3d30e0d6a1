/**
 What a callback may do to a loop. A callback is any finite sequence of calls into the
 library, so this is the reflexive and transitive relation that every such call satisfies;
 code that runs a callback may rely on nothing else.
 */
module Interference {
  import opened Journal
  import opened Memory
  import opened PollWord
  import opened Sequences
  import opened State

  // ---------- lists ----------

  /**
   Of the sockets ahead of a sweep's iterator, exactly those that were not unlinked are
   still ahead of it, and no others are.
   */
  ghost predicate LineRely(pa: map<Socket, Place>, la: Line, pb: map<Socket, Place>, lb: Line, c: Context) {
    && |lb.todo| <= |la.todo|
    && (forall x | x in lb.todo :: x in la.todo && x in pa && x in pb && pa[x].stamp == pb[x].stamp)
    && (forall x | x in la.todo :: x in pa && LinkedIn(pb, c, x) && pa[x].stamp == pb[x].stamp ==> x in lb.todo)
  }

  ghost predicate LinesRely(pa: map<Socket, Place>, la: map<Context, Line>, pb: map<Socket, Place>,
                            lb: map<Context, Line>) {
    forall c | c in la :: c in lb && LineRely(pa, la[c], pb, lb[c], c)
  }

  /** Whatever is linked with an old stamp was linked so before. */
  ghost predicate OldLinks(pa: map<Socket, Place>, pb: map<Socket, Place>, clock: nat) {
    forall x | IsOpen(pb, x) && pb[x].stamp < clock :: IsOpen(pa, x) && pa[x] == pb[x]
  }

  // ---------- identities ----------

  ghost predicate HasId(tags: map<Socket, Tag>, id: nat) {
    exists y | y in tags :: tags[y].id == id
  }

  /** Nothing leaves memory; it may only move. */
  ghost predicate StaysLive(ta: map<Socket, Tag>, tb: map<Socket, Tag>) {
    forall x | x in ta :: HasId(tb, ta[x].id)
  }

  /** What stays true of one socket across a callback, whether it moved or not. */
  ghost predicate Evolves(a: State, b: State, x: Socket, y: Socket) {
    IsLive(a, x) && IsLive(b, y) ==>
      && b.tags[y] == a.tags[x]
      && (b.tunings[y].kind == SemiKind ==> a.tunings[x].kind == SemiKind)
      && (!a.places[x].open ==> !b.places[y].open)
  }

  ghost predicate AllEvolve(a: State, b: State) {
    forall x, y | x in a.tags && y in b.tags && a.tags[x].id == b.tags[y].id :: Evolves(a, b, x, y)
  }

  /** Closed sockets do not move, nor does a listener in its own accept loop. */
  predicate Pinned(a: State, older x: Socket) {
    IsLive(a, x) && (!a.places[x].open || (a.tags[x].listens && Current(a.pending, x)))
  }

  ghost predicate PinsStay(a: State, b: State) {
    forall x | Pinned(a, x) :: Pinned(b, x) && b.tags[x] == a.tags[x]
  }

  // ---------- the relation ----------

  ghost predicate ListsRely(a: State, b: State) {
    && b.ahead == a.ahead && IsSuffix(a.passed, b.passed) && IsSuffix(a.closed, b.closed)
    && a.clock <= b.clock
    && LinesRely(a.places, a.lines, b.places, b.lines)
    && OldLinks(a.places, b.places, a.clock)
  }

  ghost predicate LivesRely(a: State, b: State) {
    && StaysLive(a.tags, b.tags) && AllEvolve(a, b) && PinsStay(a, b)
  }

  /** What is open with an old stamp has been linked there all along, with the same tag. */
  ghost predicate KeepsOld(a: State, b: State) {
    && a.clock <= b.clock
    && forall x | IsOpen(b.places, x) && b.places[x].stamp < a.clock && x in b.tags ::
      IsOpen(a.places, x) && a.places[x] == b.places[x] && x in a.tags && a.tags[x] == b.tags[x]
  }

  lemma KeepsOldTransitive(a: State, b: State, c: State)
    requires KeepsOld(a, b) && KeepsOld(b, c)
    ensures KeepsOld(a, c)
  {
  }

  /** `x` is open where it was. */
  predicate SamePlace(a: State, b: State, older x: Socket) {
    x in a.places && x in a.tags && x in b.places && x in b.tags && b.places[x] == a.places[x] && b.tags[x] == a.tags[x]
  }

  /** What is open stays where it is, unless the journal says that it was closed or adopted. */
  ghost predicate StaysPut(a: State, b: State) {
    forall x | IsOpen(a.places, x) && x in a.tags :: Left(b.log, |a.log|, a.tags[x].id) || SamePlace(a, b, x)
  }

  lemma StaysPutTransitive(a: State, b: State, c: State)
    requires StaysPut(a, b) && StaysPut(b, c) && a.log <= b.log <= c.log
    ensures StaysPut(a, c)
  {
    hide Left;
    forall x | IsOpen(a.places, x) && x in a.tags
      ensures Left(c.log, |a.log|, a.tags[x].id) || SamePlace(a, c, x)
    {
      LeftSince(b.log, c.log, |a.log|, |b.log|, a.tags[x].id);
    }
  }

  /** Nothing is moved or closed. */
  lemma StaysPutInPlace(a: State, b: State)
    requires b.places == a.places && b.tags == a.tags
    ensures StaysPut(a, b)
  {
    hide Left;
  }

  /** What holds across everything that happens while one entry of the batch is dispatched. */
  ghost predicate SameRun(a: State, b: State) {
    && b.mapping == a.mapping && a.others <= b.others
    && |b.pending| == |a.pending|
    && a.log <= b.log
    && KeepsOld(a, b) && StaysPut(a, b)
  }

  lemma SameRunReflexive(g: State)
    ensures SameRun(g, g)
  {
  }

  lemma SameRunTransitive(a: State, b: State, c: State)
    requires SameRun(a, b) && SameRun(b, c)
    ensures SameRun(a, c)
  {
    hide KeepsOld, StaysPut;
    KeepsOldTransitive(a, b, c);
    StaysPutTransitive(a, b, c);
  }

  ghost predicate RunRely(a: State, b: State) {
    && SameRun(a, b)
    && a.nextId <= b.nextId
    && Continues(a.log, b.log)
    && (a.failed ==> b.failed)
  }

  ghost predicate Rely(a: State, b: State) {
    ListsRely(a, b) && LivesRely(a, b) && RunRely(a, b)
  }

  lemma RelyReflexive(a: State)
    requires Inv(a)
    ensures Rely(a, a)
  {
    hide ListsInv, PollInv, LifeInv, MaskInv, ListsRely, LivesRely, SameRun;
    ListsReflexive(a);
    LifeReflexive(a);
    SameRunReflexive(a);
  }

  lemma ListsReflexive(a: State)
    requires Inv(a)
    ensures ListsRely(a, a)
  {
    hide PlacesOk, ClosedOk, ContextsOk, PollInv, LifeInv, MaskInv, LinesRely;
    LinesReflexive(a.places, a.lines);
  }

  lemma LifeReflexive(a: State)
    requires Inv(a)
    ensures LivesRely(a, a)
  {
    hide ListsInv, PollInv, HistoryOk, JournalOk, MaskInv, LivesRely;
    LivesReflexive(a);
  }

  lemma LinesReflexive(places: map<Socket, Place>, lines: map<Context, Line>)
    requires LinesOk(places, lines)
    ensures LinesRely(places, lines, places, lines)
  {
    hide Sorted;
    forall c | c in lines
      ensures LineRely(places, lines[c], places, lines[c], c)
    {
      assert LineOk(places, c, lines[c]);
    }
  }

  lemma LivesReflexive(a: State)
    requires IdsOk(a.tags, a.nextId)
    ensures LivesRely(a, a)
  {
    forall x | x in a.tags
      ensures HasId(a.tags, a.tags[x].id)
    {
      assert a.tags[x].id == a.tags[x].id;
    }
  }

  lemma LinesTransitive(a: State, b: State, c: State)
    requires ListsInv(a) && ListsRely(a, b) && ListsRely(b, c)
    ensures LinesRely(a.places, a.lines, c.places, c.lines)
  {
    hide LinesOk, ClosedOk, ContextsOk, IsSuffix;
    forall k | k in a.lines
      ensures k in c.lines && LineRely(a.places, a.lines[k], c.places, c.lines[k], k)
    {
      assert LineRely(a.places, a.lines[k], b.places, b.lines[k], k);
      assert LineRely(b.places, b.lines[k], c.places, c.lines[k], k);
    }
  }

  lemma ListsTransitive(a: State, b: State, c: State)
    requires ListsInv(a) && ListsRely(a, b) && ListsRely(b, c)
    ensures ListsRely(a, c)
  {
    LinesTransitive(a, b, c);
    SuffixTransitive(a.passed, b.passed, c.passed);
    SuffixTransitive(a.closed, b.closed, c.closed);
    hide ListsInv, LinesRely, IsSuffix;
  }

  lemma LivesTransitive(a: State, b: State, c: State)
    requires KeysOk(b.places, b.tags, b.tunings) && PlacesOk(b.places, b.lines, b.clock)
    requires LivesRely(a, b) && LivesRely(b, c)
    ensures LivesRely(a, c)
  {
    forall x, y | x in a.tags && y in c.tags && a.tags[x].id == c.tags[y].id
      ensures Evolves(a, c, x, y)
    {
      assert HasId(b.tags, a.tags[x].id);
      var z :| z in b.tags && b.tags[z].id == a.tags[x].id;
      assert Evolves(a, b, x, z) && Evolves(b, c, z, y);
    }
    forall x | x in a.tags
      ensures HasId(c.tags, a.tags[x].id)
    {
      assert HasId(b.tags, a.tags[x].id);
      var z :| z in b.tags && b.tags[z].id == a.tags[x].id;
      assert HasId(c.tags, b.tags[z].id);
    }
  }

  lemma RelyParts(a: State)
    requires Inv(a)
    ensures ListsInv(a) && KeysOk(a.places, a.tags, a.tunings) && PlacesOk(a.places, a.lines, a.clock)
  {
    hide LinesOk, PlacesOk, ClosedOk, ContextsOk, PollInv, KeysOk, CountOk, IdsOk, HistoryOk, JournalOk, MaskInv;
  }

  lemma RelyTransitive(a: State, b: State, c: State)
    requires Inv(a) && Inv(b) && Rely(a, b) && Rely(b, c)
    ensures Rely(a, c)
  {
    hide Continues, SameRun, LivesRely, ListsRely, ListsInv, PollInv, LifeInv, MaskInv;
    RelyParts(a);
    RelyParts(b);
    LivesTransitive(a, b, c);
    ListsTransitive(a, b, c);
    ContinuesTransitive(a.log, b.log, c.log);
    SameRunTransitive(a, b, c);
  }

  // ---------- control ----------

  /** When callbacks of sockets got control. */
  function Heeded(calls: seq<Call>): seq<nat> {
    if calls == [] then []
    else
      var last := calls[|calls| - 1];
      Heeded(calls[..|calls| - 1]) + if last.hook == OnSocket then [last.at] else []
  }

  /**
   Every callback of a socket that the journal says is called got control, right then and
   once, in the same order; and no other did.
   */
  ghost predicate Answered(g: State) {
    Heeded(g.calls) == Due(g.log)
  }

  /** `after` continues `before` by callbacks of sockets only. */
  ghost predicate CallsGrow(before: seq<Call>, after: seq<Call>) {
    before <= after && forall i | |before| <= i < |after| :: after[i].hook == OnSocket
  }

  lemma CallsGrowTransitive(a: seq<Call>, b: seq<Call>, c: seq<Call>)
    requires CallsGrow(a, b) && CallsGrow(b, c)
    ensures CallsGrow(a, c)
  {
    forall i | |a| <= i < |c|
      ensures c[i].hook == OnSocket
    {
      if i < |b| {
        assert c[i] == b[i];
      }
    }
  }

  /** The mark of a failed write is set exactly if it was, or a write fell short. */
  ghost predicate Marks(a: State, b: State) {
    a.log <= b.log && (b.failed <==> a.failed || Fell(b.log, |a.log|))
  }

  lemma MarksTransitive(a: State, b: State, c: State)
    requires Marks(a, b) && Marks(b, c)
    ensures Marks(a, c)
  {
    FellThen(b.log, c.log, |a.log|);
  }

  /**
   What holds across the calls that a callback makes, besides `Rely`: who got control, whether
   a write fell short, and what waits to be accepted.
   */
  ghost predicate Control(a: State, b: State) {
    CallsGrow(a.calls, b.calls) && b.queues == a.queues && Marks(a, b) && (Answered(a) ==> Answered(b))
  }

  lemma ControlReflexive(a: State)
    ensures Control(a, a)
  {
  }

  lemma ControlTransitive(a: State, b: State, c: State)
    requires Control(a, b) && Control(b, c)
    ensures Control(a, c)
  {
    hide CallsGrow, Marks, Answered;
    CallsGrowTransitive(a.calls, b.calls, c.calls);
    MarksTransitive(a, b, c);
  }

  /** Nothing is called. */
  lemma ControlPlain(a: State, b: State)
    requires b.calls == a.calls && b.queues == a.queues && b.failed == a.failed && Unannounced(a.log, b.log)
    ensures Control(a, b)
  {
    DueAcross(a.log, b.log);
  }

  /** The callback gets control in `a`, and makes calls that lead to `b`. */
  ghost predicate Gives(a: State, hook: Hook, b: State) {
    Rely(a, b) && Control(AfterCall(a, hook), b)
  }

  lemma GivesBoth(a: State, hook: Hook, b: State)
    requires Gives(a, hook, b)
    ensures Rely(a, b) && Control(AfterCall(a, hook), b)
  {
  }

  /** The event that ends the journal says that a callback is called, and it gets control. */
  lemma AnsweredAfter(before: State, noted: State)
    requires noted.log != [] && noted.calls == before.calls && noted.queues == before.queues
    requires noted.failed == before.failed
    requires Unannounced(before.log, noted.log[..|noted.log| - 1]) && IsCallback(noted.log[|noted.log| - 1])
    ensures Control(before, AfterCall(noted, OnSocket))
  {
    var front, e := noted.log[..|noted.log| - 1], noted.log[|noted.log| - 1];
    DueAcross(before.log, front);
    DueOne(front, e);
    assert noted.log == front + [e];
    assert AfterCall(noted, OnSocket).calls[..|noted.calls|] == noted.calls;
  }
}
