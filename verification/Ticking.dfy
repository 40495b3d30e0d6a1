/**
 Timeouts over a run: between sweeps nothing is visited, a sweep visits every socket once
 unless a callback takes it away before its turn, and so a timeout of `n` sweeps fires in the
 n-th sweep after it was set.
 */
module Ticking {
  import opened Dispatch
  import opened Interference
  import opened Journal
  import opened Memory
  import opened PollWord
  import opened Retuning
  import opened Sequences
  import opened State
  import opened Steps
  import opened Sweeping
  import opened Timeouts
  import opened Timer
  import opened Turns

  // ---------- visits, counted ----------

  lemma {:induction false} VisitsSum(log: seq<Event>, id: nat, i: nat, j: nat, k: nat)
    requires i <= j <= k <= |log|
    ensures Visits(log, id, i, k) == Visits(log, id, i, j) + Visits(log, id, j, k)
    decreases k - j
  {
    if j < k {
      VisitsSum(log, id, i, j, k - 1);
    }
  }

  /** `after` continues `before`. */
  ghost predicate Longer(before: seq<Event>, after: seq<Event>) {
    before <= after
  }

  lemma LongerTransitive(a: seq<Event>, b: seq<Event>, c: seq<Event>)
    requires Longer(a, b) && Longer(b, c)
    ensures Longer(a, c)
  {
  }

  /** Visits since the journal was `a`, when it has grown to `b` and then to `c`. */
  lemma VisitsThen(a: seq<Event>, b: seq<Event>, c: seq<Event>, id: nat)
    requires Longer(a, b) && Longer(b, c)
    ensures |a| <= |b| <= |c|
    ensures Visits(c, id, |a|, |c|) == Visits(b, id, |a|, |b|) + Visits(c, id, |b|, |c|)
  {
    VisitsSum(c, id, |a|, |b|, |c|);
    VisitsPrefix(b, c, id, |a|, |b|);
  }

  lemma {:induction false} NoneVisited(before: seq<Event>, after: seq<Event>, id: nat, k: nat)
    requires NoVisits(before, after) && |before| <= k <= |after|
    ensures Visits(after, id, |before|, k) == 0
    decreases k
  {
    if |before| < k {
      NoneVisited(before, after, id, k - 1);
    }
  }

  /** If there was one visit, it was at some point, with none before it and none after it. */
  lemma {:induction false} TheVisit(log: seq<Event>, id: nat, i: nat, k: nat) returns (j: nat)
    requires i <= k <= |log| && Visits(log, id, i, k) == 1
    ensures i <= j < k && log[j].Visited? && log[j].id == id && Visits(log, id, i, j) == 0
    ensures forall m | i <= m < k && log[m].Visited? && log[m].id == id :: m == j
    decreases k
  {
    var n := k - 1;
    if log[n].Visited? && log[n].id == id {
      NoneBetween(log, id, i, n);
      j := n;
    } else {
      j := TheVisit(log, id, i, n);
    }
  }

  lemma {:induction false} NoneBetween(log: seq<Event>, id: nat, i: nat, k: nat)
    requires i <= k <= |log| && Visits(log, id, i, k) == 0
    ensures forall m | i <= m < k && log[m].id == id :: !log[m].Visited?
    decreases k
  {
    if i < k {
      NoneBetween(log, id, i, k - 1);
    }
  }

  // ---------- one sweep ----------

  /** `s` is linked into `c` in `h` since before the clock stood at `clock`. */
  ghost predicate LinkedSince(h: State, c: Context, s: Socket, clock: nat) {
    LinkedIn(h.places, c, s) && s in h.tags && h.places[s].stamp < clock
  }

  lemma LinkedBefore(a: State, b: State, c: Context, s: Socket, clock: nat)
    requires KeepsOld(a, b) && LinkedSince(b, c, s, clock) && clock <= a.clock
    ensures LinkedSince(a, c, s, clock) && a.tags[s] == b.tags[s]
  {
  }

  /** A pass visits a socket that stays linked once if it is a pass over its context, and else not at all. */
  lemma PassVisits(p: Pass, c: Context, s: Socket)
    requires PassOver(p) && LinkedSince(p.after, c, s, p.before.clock)
    ensures Longer(p.before.log, p.after.log)
    ensures Visits(p.after.log, p.after.tags[s].id, |p.before.log|, |p.after.log|) == if p.context == c then 1 else 0
  {
    hide Inv, Visits, Decreasing;
    LinkedBefore(p.before, p.after, c, s, p.before.clock);
    if p.context != c {
      NotInOtherList(p.before, p.context, c, s);
    }
  }

  lemma NotInOtherList(g: State, other: Context, c: Context, s: Socket)
    requires Inv(g) && LinkedIn(g.places, c, s) && s in g.tags && other in g.lines && other != c
    ensures g.tags[s].id !in Ids(g.tags, g.lines[other].done)
  {
    hide PlacesOk, ClosedOk, ContextsOk, PollInv, KeysOk, CountOk, HistoryOk, JournalOk, MaskInv, Sorted;
    assert LineOk(g.places, other, g.lines[other]);
  }

  lemma {:induction false} PassesVisit(g: State, passes: seq<Pass>, h: State, c: Context, s: Socket)
    requires Inv(g) && g.ahead == [] && Passes(g, passes, h) && LinkedSince(h, c, s, g.clock) && |passes| <= |g.passed|
    ensures KeepsOld(g, h) && Longer(g.log, h.log)
    ensures Visits(h.log, h.tags[s].id, |g.log|, |h.log|) == if c in g.passed[..|passes|] then 1 else 0
    decreases |passes|
  {
    hide Inv, PassOver, Visits;
    if passes == [] {
      NotYet(g, h, c, s);
    } else {
      var n := |passes| - 1;
      var front, p := passes[..n], passes[n];
      PassOverIs(p);
      PassesInOrder(g, front, p.before);
      PassesInOrder(g, passes, h);
      SincePass(p, h, c, s, g.clock);
      PassesClock(g, front, p.before);
      LinkedBefore(p.before, p.after, c, s, g.clock);
      PassesVisit(g, front, p.before, c, s);
      PassVisits(p, c, s);
      VisitsThen(g.log, p.before.log, p.after.log, h.tags[s].id);
      LongerTransitive(g.log, p.before.log, p.after.log);
      KeepsOldTransitive(g, p.before, p.after);
      EachOnce(g, n, c);
    }
  }

  lemma NotYet(g: State, h: State, c: Context, s: Socket)
    requires h == AfterSweepStart(g) && LinkedSince(h, c, s, g.clock)
    ensures KeepsOld(g, h) && Longer(g.log, h.log) && Visits(h.log, h.tags[s].id, |g.log|, |h.log|) == 0
  {
  }

  lemma PassOverIs(p: Pass)
    requires PassOver(p)
    ensures KeepsOld(p.before, p.after) && p.before.ahead != [] && p.context == p.before.ahead[0]
  {
    hide Inv, PassDone;
  }

  lemma SincePass(p: Pass, h: State, c: Context, s: Socket, clock: nat)
    requires p.after.ahead != [] && h == AfterPassEnd(p.after) && LinkedSince(h, c, s, clock)
    ensures LinkedSince(p.after, c, s, clock) && p.after.tags == h.tags && p.after.log == h.log && KeepsOld(p.after, h)
  {
  }

  lemma {:induction false} PassesClock(g: State, passes: seq<Pass>, h: State)
    requires Passes(g, passes, h)
    ensures g.clock <= h.clock
    decreases |passes|
  {
    hide PassOver;
    if passes != [] {
      var n := |passes| - 1;
      PassesClock(g, passes[..n], passes[n].before);
      PassOverIs(passes[n]);
    }
  }

  /** The contexts of a loop are all different. */
  lemma EachOnce(g: State, n: nat, c: Context)
    requires Inv(g) && g.ahead == [] && n < |g.passed|
    ensures c in g.passed[..n + 1] <==> c in g.passed[..n] || c == g.passed[n]
    ensures !(c in g.passed[..n] && c == g.passed[n])
  {
    hide LinesOk, PlacesOk, ClosedOk, PollInv, LifeInv, MaskInv;
    assert g.passed + [] == g.passed;
    assert g.passed[..n + 1] == g.passed[..n] + [g.passed[n]];
  }

  /** A sweep visits a socket that stays linked once. */
  lemma SweepVisitsLinked(g: State, passes: seq<Pass>, h: State, c: Context, s: Socket)
    requires Inv(g) && g.ahead == [] && SweepOver(g, passes, h) && LinkedSince(h, c, s, g.clock)
    ensures KeepsOld(g, h) && Longer(g.log, h.log)
    ensures Visits(h.log, h.tags[s].id, |g.log|, |h.log|) == 1
  {
    hide Inv, PassOver, Visits, Passes;
    PassesInOrder(g, passes, h);
    PassesVisit(g, passes, h, c, s);
    LinkedBefore(g, h, c, s, g.clock);
    ContextPassed(g, c, s);
    assert g.passed[..|passes|] == g.passed;
  }

  lemma ContextPassed(g: State, c: Context, s: Socket)
    requires Inv(g) && g.ahead == [] && LinkedIn(g.places, c, s)
    ensures c in g.passed
  {
    hide LinesOk, ClosedOk, PollInv, LifeInv, MaskInv;
  }

  // ---------- one sweep, whatever becomes of the socket ----------

  lemma {:induction false} PassesKeep(g: State, passes: seq<Pass>, h: State)
    requires Passes(g, passes, h)
    ensures Longer(g.log, h.log) && StaysPut(g, h)
    decreases |passes|
  {
    hide PassOver, StaysPut, AfterSweepStart, AfterPassEnd;
    if passes == [] {
      StartsInPlace(g);
    } else {
      var n := |passes| - 1;
      var p := passes[n];
      PassesKeep(g, passes[..n], p.before);
      PassKeeps(p);
      StaysPutTransitive(g, p.before, p.after);
      EndsInPlace(p.after);
      StaysPutTransitive(g, p.after, h);
    }
  }

  lemma PassKeeps(p: Pass)
    requires PassOver(p)
    ensures Longer(p.before.log, p.after.log) && StaysPut(p.before, p.after)
  {
    hide Inv, Turning, PassDone, StaysPut;
  }

  lemma StartsInPlace(g: State)
    ensures StaysPut(g, AfterSweepStart(g)) && AfterSweepStart(g).log == g.log
  {
    StaysPutInPlace(g, AfterSweepStart(g));
  }

  lemma EndsInPlace(g: State)
    requires g.ahead != []
    ensures StaysPut(g, AfterPassEnd(g)) && AfterPassEnd(g).log == g.log
  {
    StaysPutInPlace(g, AfterPassEnd(g));
  }

  /** The socket was adopted since the journal had length `n`. */
  ghost predicate Adopted(log: seq<Event>, n: nat, id: nat) {
    exists i :: n <= i < |log| && log[i].id == id && log[i].Relinked?
  }

  /** It was closed, and no sweep had seen it since then. */
  ghost predicate ClosedUnseen(log: seq<Event>, n: nat, id: nat)
    requires n <= |log|
  {
    exists i :: n <= i < |log| && log[i] == Closed(id) && Visits(log, id, n, i) == 0
  }

  lemma {:induction false} NotVisited(log: seq<Event>, id: nat, i: nat, k: nat)
    requires i <= k <= |log| && forall m | i <= m < k && log[m].id == id :: !log[m].Visited?
    ensures Visits(log, id, i, k) == 0
    decreases k
  {
    if i < k {
      NotVisited(log, id, i, k - 1);
    }
  }

  /** A closed socket is not visited. */
  lemma ClosedNotVisited(mapping: Mapping, log: seq<Event>, id: nat, i: nat, k: nat)
    requires Lawful(mapping, log) && i < k <= |log| && log[i] == Closed(id)
    ensures Visits(log, id, k, |log|) == 0
  {
    forall m | k <= m < |log| && log[m].id == id
      ensures !log[m].Visited?
    {
      LawfulAt(mapping, log, i);
      LawfulAt(mapping, log, m);
      TrackStep(log, id, i);
      PhasesAdvance(mapping, log, id, i + 1, m);
    }
    NotVisited(log, id, k, |log|);
  }

  /** A pass visits nobody twice, and nobody whose identity was not in its list when it began. */
  lemma PassAtMost(p: Pass, id: nat)
    requires PassOver(p)
    ensures Longer(p.before.log, p.after.log)
    ensures Visits(p.after.log, id, |p.before.log|, |p.after.log|) <=
            if id in Ids(p.before.tags, p.before.lines[p.context].done) then 1 else 0
  {
    hide Inv, Turning, Decreasing, Visits, KeepsOld, StaysPut;
  }

  lemma PassLawful(p: Pass)
    requires PassOver(p)
    ensures Inv(p.before) && Inv(p.after) && Lawful(p.after.mapping, p.after.log)
  {
    hide Turning, PassDone, SameRun, ListsInv, PollInv, LifeInv, MaskInv;
    LawfulNow(p.after);
  }

  /** One more pass visits a socket that was not adopted only if it is still in the list of `c`, and that is the one. */
  lemma PassVisitsOnce(g: State, front: seq<Pass>, p: Pass, c: Context, s: Socket)
    requires Inv(g) && g.ahead == [] && Passes(g, front, p.before) && PassOver(p) && |front| < |g.passed|
    requires p.context == g.passed[|front|] && IsOpen(g.places, s) && s in g.tags && g.places[s].ctx == c
    requires !Adopted(p.after.log, |g.log|, g.tags[s].id)
    requires Longer(g.log, p.before.log) && Visits(p.before.log, g.tags[s].id, |g.log|, |p.before.log|) <= 1
    ensures Longer(g.log, p.after.log) && Visits(p.after.log, g.tags[s].id, |g.log|, |p.after.log|) <= 1
  {
    hide Inv, PassOver, Passes, Visits, StaysPut, Lawful, Ids;
    var id := g.tags[s].id;
    PassAtMost(p, id);
    PassLawful(p);
    PassesKeep(g, front, p.before);
    VisitsThen(g.log, p.before.log, p.after.log, id);
    LongerTransitive(g.log, p.before.log, p.after.log);
    if Left(p.before.log, |g.log|, id) {
      var i := ClosedOne(p.before.log, p.after.log, |g.log|, id);
      ClosedNotVisited(p.after.mapping, p.after.log, id, i, |p.before.log|);
    } else {
      StillThere(g, p.before, s);
      PassesVisit(g, front, p.before, c, s);
      EachOnce(g, |front|, c);
      if p.context != c {
        InList(p);
        NotInOtherList(p.before, p.context, c, s);
      }
    }
  }

  lemma InList(p: Pass)
    requires PassOver(p)
    ensures p.context in p.before.lines
  {
    hide Inv, Turning, PassDone, SameRun;
  }

  /** A socket that left, and was not adopted, was closed. */
  lemma ClosedOne(before: seq<Event>, after: seq<Event>, n: nat, id: nat) returns (i: nat)
    requires Left(before, n, id) && Longer(before, after) && !Adopted(after, n, id)
    ensures n <= i < |before| && after[i] == Closed(id)
  {
    i :| n <= i < |before| && Leaves(before[i], id);
    assert after[i] == before[i];
  }

  /** A socket that did not leave is where it was. */
  lemma StillThere(g: State, h: State, s: Socket)
    requires Inv(g) && StaysPut(g, h) && IsOpen(g.places, s) && s in g.tags && !Left(h.log, |g.log|, g.tags[s].id)
    ensures SamePlace(g, h, s) && LinkedSince(h, g.places[s].ctx, s, g.clock)
  {
    hide LinesOk, ClosedOk, ContextsOk, PollInv, LifeInv, MaskInv, Left;
  }

  lemma {:induction false} PassesVisitOnce(g: State, passes: seq<Pass>, h: State, c: Context, s: Socket)
    requires Inv(g) && g.ahead == [] && Passes(g, passes, h) && |passes| <= |g.passed|
    requires IsOpen(g.places, s) && s in g.tags && g.places[s].ctx == c
    requires !Adopted(h.log, |g.log|, g.tags[s].id)
    ensures Longer(g.log, h.log) && Visits(h.log, g.tags[s].id, |g.log|, |h.log|) <= 1
    decreases |passes|
  {
    hide Inv, PassOver, Visits;
    if passes == [] {
      NotVisited(h.log, g.tags[s].id, |g.log|, |h.log|);
    } else {
      var n := |passes| - 1;
      var front, p := passes[..n], passes[n];
      PassesInOrder(g, passes, h);
      PassKeeps(p);
      NotAdoptedYet(p.before.log, p.after.log, |g.log|, g.tags[s].id);
      PassesVisitOnce(g, front, p.before, c, s);
      PassVisitsOnce(g, front, p, c, s);
    }
  }

  lemma NotAdoptedYet(before: seq<Event>, after: seq<Event>, n: nat, id: nat)
    requires Longer(before, after) && !Adopted(after, n, id)
    ensures !Adopted(before, n, id)
  {
    assert forall i | n <= i < |before| :: before[i] == after[i];
  }

  lemma SweepLawful(g: State, passes: seq<Pass>, h: State, s: Socket)
    requires Inv(g) && g.ahead == [] && SweepOver(g, passes, h) && IsOpen(g.places, s)
    ensures Lawful(h.mapping, h.log)
  {
    hide Inv, PassOver, Lawful;
    PassesInOrder(g, passes, h);
    ContextPassed(g, g.places[s].ctx, s);
    PassLawful(passes[|passes| - 1]);
  }

  /**
   A sweep visits every socket that was linked when it began and is not adopted meanwhile
   exactly once, whatever its own on_timeout does; and not at all if and only if it is closed
   before its turn comes.
   */
  lemma SweepVisitsOnce(g: State, passes: seq<Pass>, h: State, s: Socket)
    requires Inv(g) && g.ahead == [] && SweepOver(g, passes, h) && IsOpen(g.places, s) && s in g.tags
    requires !Adopted(h.log, |g.log|, g.tags[s].id)
    ensures Longer(g.log, h.log)
    ensures Visits(h.log, g.tags[s].id, |g.log|, |h.log|) == if ClosedUnseen(h.log, |g.log|, g.tags[s].id) then 0 else 1
  {
    hide Inv, Passes, Visits, StaysPut, Lawful, Adopted;
    var id, c := g.tags[s].id, g.places[s].ctx;
    PassesInOrder(g, passes, h);
    PassesKeep(g, passes, h);
    PassesVisitOnce(g, passes, h, c, s);
    SweepLawful(g, passes, h, s);
    if Left(h.log, |g.log|, id) {
      var i := ClosedOne(h.log, h.log, |g.log|, id);
      if ClosedUnseen(h.log, |g.log|, id) {
        i :| |g.log| <= i < |h.log| && h.log[i] == Closed(id) && Visits(h.log, id, |g.log|, i) == 0;
      }
      ClosedNotVisited(h.mapping, h.log, id, i, i + 1);
      VisitsSum(h.log, id, |g.log|, i, i + 1);
      VisitsSum(h.log, id, |g.log|, i + 1, |h.log|);
      CloseIsNoVisit(h.log, id, i);
    } else {
      StillThere(g, h, s);
      SweepVisitsLinked(g, passes, h, c, s);
      assert forall i | |g.log| <= i < |h.log| :: h.log[i] == Closed(id) ==> Leaves(h.log[i], id);
    }
  }

  lemma CloseIsNoVisit(log: seq<Event>, id: nat, i: nat)
    requires i < |log| && log[i] == Closed(id)
    ensures Visits(log, id, i, i + 1) == 0
  {
    assert Visits(log, id, i, i) == 0;
  }

  // ---------- sweep after sweep ----------

  datatype Tick = Tick(before: State, passes: seq<Pass>, after: State)

  /** Whatever happens while no sweep is at work. */
  ghost predicate Quiet(a: State, b: State) {
    KeepsOld(a, b) && StaysPut(a, b) && NoVisits(a.log, b.log)
  }

  lemma QuietReflexive(a: State)
    ensures Quiet(a, a)
  {
  }

  lemma QuietTransitive(a: State, b: State, c: State)
    requires Quiet(a, b) && Quiet(b, c)
    ensures Quiet(a, c)
  {
    hide KeepsOld, StaysPut, NoVisits;
    KeepsOldTransitive(a, b, c);
    NoVisitsTransitive(a.log, b.log, c.log);
    NoVisitsGrow(a.log, b.log);
    NoVisitsGrow(b.log, c.log);
    StaysPutTransitive(a, b, c);
  }

  ghost predicate TickOver(t: Tick) {
    Inv(t.before) && t.before.ahead == [] && SweepOver(t.before, t.passes, t.after)
  }

  /** From `g` to `h` the sweeps were `ticks`, and no others. */
  ghost predicate Ticks(g: State, ticks: seq<Tick>, h: State) {
    if ticks == [] then Quiet(g, h)
    else
      var last := ticks[|ticks| - 1];
      TickOver(last) && Quiet(last.after, h) && Ticks(g, ticks[..|ticks| - 1], last.before)
  }

  lemma QuietVisits(a: State, b: State, c: Context, s: Socket, clock: nat, id: nat)
    requires Quiet(a, b) && LinkedSince(b, c, s, clock) && clock <= a.clock
    ensures LinkedSince(a, c, s, clock) && a.tags[s] == b.tags[s] && Longer(a.log, b.log)
    ensures Visits(b.log, id, |a.log|, |b.log|) == 0
  {
    NoneVisited(a.log, b.log, id, |b.log|);
    LinkedBefore(a, b, c, s, clock);
  }

  lemma {:induction false} TicksClock(g: State, ticks: seq<Tick>, h: State)
    requires Ticks(g, ticks, h)
    ensures g.clock <= h.clock
    decreases |ticks|
  {
    hide Inv, PassOver, NoVisits;
    if ticks != [] {
      var n := |ticks| - 1;
      TicksClock(g, ticks[..n], ticks[n].before);
      PassesClock(ticks[n].before, ticks[n].passes, ticks[n].after);
    }
  }

  /** A socket that stays linked is visited once by each of the sweeps. */
  lemma {:induction false} TicksVisit(g: State, ticks: seq<Tick>, h: State, c: Context, s: Socket)
    requires Ticks(g, ticks, h) && LinkedSince(h, c, s, g.clock)
    ensures LinkedSince(g, c, s, g.clock) && g.tags[s] == h.tags[s] && Longer(g.log, h.log)
    ensures Visits(h.log, h.tags[s].id, |g.log|, |h.log|) == |ticks|
    decreases |ticks|
  {
    hide Inv, PassOver, Visits, Quiet, SweepOver, KeepsOld, LinkedSince, Longer;
    var id := IdOf(h, c, s, g.clock);
    if ticks == [] {
      QuietVisits(g, h, c, s, g.clock, id);
    } else {
      var n := |ticks| - 1;
      var front, t := ticks[..n], ticks[n];
      TicksClock(g, front, t.before);
      SweepClock(t);
      QuietVisits(t.after, h, c, s, g.clock, id);
      SweepSince(t, c, s, g.clock);
      TicksVisit(g, front, t.before, c, s);
      VisitsThen(g.log, t.before.log, t.after.log, id);
      LongerTransitive(g.log, t.before.log, t.after.log);
      VisitsThen(g.log, t.after.log, h.log, id);
      LongerTransitive(g.log, t.after.log, h.log);
    }
  }

  lemma IdOf(h: State, c: Context, s: Socket, clock: nat) returns (id: nat)
    requires LinkedSince(h, c, s, clock)
    ensures s in h.tags && id == h.tags[s].id
  {
    id := h.tags[s].id;
  }

  lemma SweepClock(t: Tick)
    requires TickOver(t)
    ensures t.before.clock <= t.after.clock
  {
    hide Inv, Passes;
    PassesClock(t.before, t.passes, t.after);
  }

  lemma SweepSince(t: Tick, c: Context, s: Socket, clock: nat)
    requires TickOver(t) && LinkedSince(t.after, c, s, clock) && clock <= t.before.clock
    ensures LinkedSince(t.before, c, s, clock) && t.before.tags[s] == t.after.tags[s]
    ensures Longer(t.before.log, t.after.log)
    ensures Visits(t.after.log, t.after.tags[s].id, |t.before.log|, |t.after.log|) == 1
  {
    hide Inv, SweepOver, Visits;
    SweepVisitsLinked(t.before, t.passes, t.after, c, s);
    LinkedBefore(t.before, t.after, c, s, clock);
  }

  // ---------- what a sweep notes comes of its visits ----------

  lemma PassPrompts(p: Pass)
    requires PassOver(p)
    ensures p.before.log <= p.after.log && Prompted(p.after.log, |p.before.log|)
  {
    hide Inv, SameRun, PassDone, Turning;
    TurnsPrompt(AfterPassStart(p.before, p.context), p.context, p.sights, p.after);
  }

  /** In a sweep nothing is noted but visits until it has called an on_timeout. */
  lemma {:induction false} PassesPrompt(g: State, passes: seq<Pass>, h: State)
    requires Passes(g, passes, h)
    ensures g.log <= h.log && Prompted(h.log, |g.log|)
    decreases |passes|
  {
    hide PassOver;
    if passes != [] {
      var n := |passes| - 1;
      var p := passes[n];
      PassesPrompt(g, passes[..n], p.before);
      PassPrompts(p);
      PromptedThen(p.before.log, p.after.log, |g.log|, |p.before.log|);
    }
  }

  // ---------- the sweep in which a timeout fires ----------

  /** What can happen to a timeout: it is counted down, set, or the socket leaves its list. */
  predicate Bears(e: Event, id: nat) {
    e.id == id && (e.Visited? || e.Armed? || e.Closed? || e.Relinked?)
  }

  /** Where that first happens since the journal had length `n`, or the end of the journal. */
  function First(log: seq<Event>, id: nat, n: nat): (i: nat)
    requires n <= |log|
    ensures n <= i <= |log| && (i < |log| ==> Bears(log[i], id))
    ensures forall k | n <= k < i :: !Bears(log[k], id)
    decreases |log| - n
  {
    if n == |log| || Bears(log[n], id) then n else First(log, id, n + 1)
  }

  /** The first thing that happens to the socket in this sweep is that on_timeout is called for it. */
  ghost predicate FiredIn(t: Tick, id: nat) {
    |t.before.log| <= |t.after.log| &&
    var i := First(t.after.log, id, |t.before.log|);
    i < |t.after.log| && t.after.log[i].Visited? && t.after.log[i].fired
  }

  /**
   Before the sweep came to the socket, the on_timeout of another one was called, and after
   that the socket was closed, adopted, or given another timeout.
   */
  ghost predicate Overtaken(t: Tick, id: nat) {
    |t.before.log| <= |t.after.log| &&
    var i := First(t.after.log, id, |t.before.log|);
    && i < |t.after.log| && !t.after.log[i].Visited?
    && exists j :: |t.before.log| <= j < i && t.after.log[j].Visited? && t.after.log[j].fired && t.after.log[j].id != id
  }

  /** Since the journal had length `n` the socket was not closed or adopted, and given no other timeout. */
  ghost predicate Untouched(log: seq<Event>, n: nat, id: nat) {
    forall i | n <= i < |log| && log[i].id == id :: !log[i].Armed? && !log[i].Closed? && !log[i].Relinked?
  }

  /** `s` is open, and its timeout was last set at `m`, to `n` sweeps; it has not been closed or adopted since. */
  ghost predicate ArmedFor(g: State, s: Socket, m: nat, n: nat) {
    && Inv(g) && IsOpen(g.places, s) && s in g.tags
    && m < |g.log| && g.log[m] == Armed(g.tags[s].id, n) && Untouched(g.log, m + 1, g.tags[s].id)
  }

  /** A sweep does something to every socket that was open when it began. */
  lemma SweepMeets(t: Tick, s: Socket)
    requires TickOver(t) && IsOpen(t.before.places, s) && s in t.before.tags
    ensures Longer(t.before.log, t.after.log)
    ensures First(t.after.log, t.before.tags[s].id, |t.before.log|) < |t.after.log|
  {
    hide Inv, Passes, Visits, StaysPut;
    var id, log := t.before.tags[s].id, t.after.log;
    PassesKeep(t.before, t.passes, t.after);
    if Left(log, |t.before.log|, id) {
      var i :| |t.before.log| <= i < |log| && Leaves(log[i], id);
      assert Bears(log[i], id);
    } else {
      StillThere(t.before, t.after, s);
      SweepVisitsLinked(t.before, t.passes, t.after, t.before.places[s].ctx, s);
      var i := TheVisit(log, id, |t.before.log|, |log|);
      assert Bears(log[i], id);
    }
  }

  /** If it is not visited first, a callback was faster. */
  lemma FirstOrOvertaken(t: Tick, id: nat)
    requires TickOver(t) && |t.before.log| <= |t.after.log|
    requires First(t.after.log, id, |t.before.log|) < |t.after.log|
    ensures Overtaken(t, id) <==> !t.after.log[First(t.after.log, id, |t.before.log|)].Visited?
  {
    hide Inv, Passes;
    var i := First(t.after.log, id, |t.before.log|);
    PassesPrompt(t.before, t.passes, t.after);
    if !t.after.log[i].Visited? {
      var j :| |t.before.log| <= j < i && t.after.log[j].Visited? && t.after.log[j].fired;
      assert !Bears(t.after.log[j], id);
    }
  }

  /** The first thing that happens to a timeout after `k` visits is one that fires, or not. */
  lemma FirstFires(before: seq<Event>, mapping: Mapping, log: seq<Event>, id: nat, m: nat, n: nat, k: nat)
    requires m < |before| && before[m] == Armed(id, n) && Lawful(mapping, log)
    requires Longer(before, log) && Untouched(before, m + 1, id) && Visits(before, id, m + 1, |before|) == k
    requires First(log, id, |before|) < |log| && log[First(log, id, |before|)].Visited?
    ensures log[First(log, id, |before|)].fired <==> k + 1 == n
  {
    hide Visits, Lawful;
    var i := First(log, id, |before|);
    forall x | m < x < i && log[x].id == id
      ensures !log[x].Armed? && !log[x].Relinked?
    {
      if x < |before| {
        assert log[x] == before[x];
      } else {
        assert !Bears(log[x], id);
      }
    }
    forall x | |before| <= x < i && log[x].id == id
      ensures !log[x].Visited?
    {
      assert !Bears(log[x], id);
    }
    NotVisited(log, id, |before|, i);
    VisitsSum(log, id, m + 1, |before|, i);
    VisitsPrefix(before, log, id, m + 1, |before|);
    FiresAtNthVisit(mapping, log, m, i);
  }

  lemma {:induction false} TicksKeep(g: State, ticks: seq<Tick>, h: State)
    requires Ticks(g, ticks, h)
    ensures Longer(g.log, h.log) && StaysPut(g, h)
    decreases |ticks|
  {
    hide Inv, StaysPut, Quiet;
    if ticks == [] {
      QuietKeeps(g, h);
    } else {
      var n := |ticks| - 1;
      var t := ticks[n];
      TicksKeep(g, ticks[..n], t.before);
      PassesKeep(t.before, t.passes, t.after);
      StaysPutTransitive(g, t.before, t.after);
      QuietKeeps(t.after, h);
      StaysPutTransitive(g, t.after, h);
    }
  }

  lemma QuietKeeps(a: State, b: State)
    requires Quiet(a, b)
    ensures Longer(a.log, b.log) && StaysPut(a, b)
  {
    hide KeepsOld, StaysPut;
  }

  /** From the state before the k-th sweep on. */
  lemma {:induction false} TicksUpTo(g: State, ticks: seq<Tick>, h: State, k: nat)
    requires Ticks(g, ticks, h) && k < |ticks|
    ensures Ticks(g, ticks[..k], ticks[k].before) && TickOver(ticks[k])
    decreases |ticks|
  {
    hide TickOver, Quiet;
    var n := |ticks| - 1;
    if k < n {
      TicksUpTo(g, ticks[..n], ticks[n].before, k);
      assert ticks[..n][..k] == ticks[..k];
    }
  }

  /** A socket that is left alone is still linked, and each sweep has visited it once. */
  lemma ArmedStays(g: State, ticks: seq<Tick>, h: State, s: Socket, m: nat, n: nat)
    requires ArmedFor(g, s, m, n) && Ticks(g, ticks, h) && Untouched(h.log, |g.log|, g.tags[s].id)
    ensures SamePlace(g, h, s) && Longer(g.log, h.log)
    ensures |g.log| <= |h.log| && Untouched(h.log, m + 1, g.tags[s].id)
    ensures Visits(h.log, g.tags[s].id, m + 1, |h.log|) ==
            Visits(g.log, g.tags[s].id, m + 1, |g.log|) + |ticks|
  {
    hide Inv, Ticks, Visits, StaysPut;
    var id := g.tags[s].id;
    TicksKeep(g, ticks, h);
    StillThere(g, h, s);
    TicksVisit(g, ticks, h, g.places[s].ctx, s);
    VisitsSum(h.log, id, m + 1, |g.log|, |h.log|);
    VisitsPrefix(g.log, h.log, id, m + 1, |g.log|);
    assert forall i | m + 1 <= i < |g.log| :: h.log[i] == g.log[i];
  }

  /**
   A timeout is set to `n` sweeps at `m`, in a sweep or outside. Take a state `g` outside of a
   sweep, and any of the sweeps that follow on it, before which the socket was not closed,
   adopted or given another timeout; what happens to it in that sweep and after is left open.
   Then on_timeout is called for it if and only if that is the n-th visit, the ones between
   `m` and `g` included, and no on_timeout of another socket did one of these things to it
   before its turn.
   */
  lemma FiresInNthSweep(g: State, ticks: seq<Tick>, h: State, s: Socket, m: nat, n: nat, k: nat)
    requires ArmedFor(g, s, m, n) && Ticks(g, ticks, h) && k < |ticks|
    requires Untouched(ticks[k].before.log, |g.log|, g.tags[s].id)
    ensures FiredIn(ticks[k], g.tags[s].id) <==>
            Visits(g.log, g.tags[s].id, m + 1, |g.log|) + k + 1 == n && !Overtaken(ticks[k], g.tags[s].id)
  {
    hide Inv, Visits, Ticks, SweepOver, Untouched, Lawful, Overtaken;
    var t, id := ticks[k], g.tags[s].id;
    TicksUpTo(g, ticks, h, k);
    ArmedStays(g, ticks[..k], t.before, s, m, n);
    SweepMeets(t, s);
    FirstOrOvertaken(t, id);
    SweepLawful(t.before, t.passes, t.after, s);
    if t.after.log[First(t.after.log, id, |t.before.log|)].Visited? {
      FirstFires(t.before.log, t.after.mapping, t.after.log, id, m, n, Visits(g.log, id, m + 1, |g.log|) + k);
    }
  }

  /** When the k-th sweep after arming takes place, if the first takes place `lead` seconds after it. */
  function TickTime(lead: real, k: nat): real {
    lead + (k * GRANULARITY) as real
  }

  lemma JustArmed(g: State, s: Socket, n: nat)
    requires IsLive(g, s)
    ensures var h := AfterTimeout(g, s, n);
            && h.tags == g.tags && h.places == g.places && |h.log| == |g.log| + 1
            && h.log[|g.log|] == Armed(g.tags[s].id, n) && Visits(h.log, g.tags[s].id, |g.log| + 1, |h.log|) == 0
            && Untouched(h.log, |g.log| + 1, g.tags[s].id)
  {
  }

  /**
   `asock_socket_timeout` outside of a sweep, with sweeps at ideal distances from then on: a
   sweep in which on_timeout is called takes place more than `seconds - 5` and at most
   `seconds + 3` seconds later. One of the sweeps in that time is the one that calls it,
   unless the socket is closed, adopted or given another timeout before its turn.
   */
  lemma FiresInWindow(g0: State, ticks: seq<Tick>, h: State, s: Socket, seconds: nat, lead: real, k: nat)
    requires 1 <= seconds && 0.0 < lead <= GRANULARITY as real && Inv(g0) && IsLive(g0, s) && g0.places[s].open
    requires Ticks(AfterTimeout(g0, s, Sweeps(seconds)), ticks, h) && k < |ticks|
    requires Untouched(ticks[k].before.log, |g0.log| + 1, g0.tags[s].id)
    ensures FiredIn(ticks[k], g0.tags[s].id) ==> seconds as real - 5.0 < TickTime(lead, k) <= seconds as real + 3.0
    ensures k + 1 == Sweeps(seconds) ==> FiredIn(ticks[k], g0.tags[s].id) || Overtaken(ticks[k], g0.tags[s].id)
  {
    hide Inv, Ticks, FiredIn, Overtaken, Untouched, Sweeps;
    var g := AfterTimeout(g0, s, Sweeps(seconds));
    TimeoutStep(g0, s, Sweeps(seconds));
    SweepsExact(seconds);
    Window(seconds, lead);
    JustArmed(g0, s, Sweeps(seconds));
    FiresInNthSweep(g, ticks, h, s, |g0.log|, Sweeps(seconds), k);
  }

  /** The journal at the end of a sweep is lawful. */
  lemma TickLawful(t: Tick)
    requires TickOver(t)
    ensures Longer(t.before.log, t.after.log) && exists m: Mapping :: Lawful(m, t.after.log)
  {
    hide Inv, PassOver, StaysPut, Lawful;
    PassesKeep(t.before, t.passes, t.after);
    if t.passes == [] {
      InvParts(t.before);
      LawfulNow(t.before);
    } else {
      PassLawful(t.passes[|t.passes| - 1]);
    }
  }

  /**
   `asock_socket_timeout` with zero seconds sets the countdown to 0. From then on no sweep calls
   on_timeout for the socket, until it is given another timeout.
   */
  lemma ZeroTurnsOff(g0: State, ticks: seq<Tick>, h: State, s: Socket, k: nat, j: nat)
    requires IsLive(g0, s) && Ticks(AfterTimeout(g0, s, 0), ticks, h) && k < |ticks|
    requires |ticks[k].before.log| <= j < |ticks[k].after.log|
    requires forall i | |g0.log| < i < j && ticks[k].after.log[i].id == g0.tags[s].id :: !ticks[k].after.log[i].Armed?
    ensures var e := ticks[k].after.log[j]; !(e.Visited? && e.id == g0.tags[s].id && e.fired)
  {
    hide Inv, SweepOver, Quiet, Lawful;
    var g, t := AfterTimeout(g0, s, 0), ticks[k];
    TicksUpTo(g, ticks, h, k);
    TicksKeep(g, ticks[..k], t.before);
    TickLawful(t);
    LongerTransitive(g.log, t.before.log, t.after.log);
    JustArmed(g0, s, 0);
    var m: Mapping :| Lawful(m, t.after.log);
    assert t.after.log[|g0.log|] == g.log[|g0.log|];
    OffNeverFires(m, t.after.log, |g0.log|, j);
  }

  // ---------- the sweeps of a run ----------

  /** The sweeps among the steps of a batch. */
  function TicksOf(steps: seq<Step>): seq<Tick> {
    if steps == [] then []
    else
      var last := steps[|steps| - 1];
      TicksOf(steps[..|steps| - 1]) + if IsSweep(last) then [Tick(last.before, last.passes, last.after)] else []
  }

  predicate IsSweep(s: Step) {
    s.before.pending != [] && s.before.pending[0].target == ToCallback(SweepTimer)
  }

  function TicksOfRounds(rounds: seq<Round>): seq<Tick> {
    if rounds == [] then []
    else TicksOfRounds(rounds[..|rounds| - 1]) + TicksOf(rounds[|rounds| - 1].steps)
  }

  lemma TicksThen(g: State, ticks: seq<Tick>, a: State, b: State)
    requires Ticks(g, ticks, a) && Quiet(a, b)
    ensures Ticks(g, ticks, b)
  {
    hide TickOver, Quiet;
    QuietTransitive(if ticks == [] then g else ticks[|ticks| - 1].after, a, b);
  }

  lemma {:induction false} TicksJoin(g: State, first: seq<Tick>, a: State, second: seq<Tick>, h: State)
    requires Ticks(g, first, a) && Ticks(a, second, h)
    ensures Ticks(g, first + second, h)
    decreases |second|
  {
    hide TickOver, Quiet;
    if second == [] {
      assert first + second == first;
      TicksThen(g, first, a, h);
    } else {
      var n := |second| - 1;
      TicksJoin(g, first, a, second[..n], second[n].before);
      assert (first + second)[..|first| + n] == first + second[..n];
    }
  }

  lemma RelyQuiet(a: State, b: State)
    requires Rely(a, b)
    ensures Quiet(a, b)
  {
    hide ListsRely, LivesRely, KeepsOld;
  }

  lemma GivesQuiet(a: State, hook: Hook, b: State)
    requires Gives(a, hook, b)
    ensures Quiet(a, b)
  {
    hide Rely, Control, Quiet;
    RelyQuiet(a, b);
  }

  lemma CalmQuiet(a: State, b: State)
    requires Calm(a, b)
    ensures Quiet(a, b)
  {
    hide KeepsOld, NoVisits;
  }

  lemma MovedOnQuiet(g: State)
    requires g.pending != []
    ensures Quiet(g, MovedOn(g))
  {
  }

  /** A step that is not a sweep visits nobody. */
  lemma StepQuiet(s: Step)
    requires StepOver(s) && !IsSweep(s)
    ensures Quiet(s.before, s.after)
  {
    hide Inv, Gives, Dispatches, SweepOver, Quiet;
    QuietReflexive(s.before);
    var e := s.before.pending[0];
    match e.target
    case Nothing =>
    case ToCallback(cb) =>
      GivesQuiet(s.before, OnTimer, s.after);
    case ToSocket(x) =>
      var events := EventsOf(e.side).And(s.before.tunings[x].interest);
      if events != NONE || e.error {
        DispatchesCalm(s.before, x, e.error, events, s.turn, s.after);
        CalmQuiet(s.before, s.after);
      }
  }

  lemma SweepStep(s: Step)
    requires StepOver(s) && IsSweep(s)
    ensures TickOver(Tick(s.before, s.passes, s.after)) && s.after.pending != []
  {
    hide Inv, Passes, Gives, Dispatches;
  }

  lemma StepIs(s: Step)
    requires StepOver(s)
    ensures s.after.pending != []
  {
    hide Inv, Handles;
  }

  lemma {:induction false} StepTicks(g: State, steps: seq<Step>, h: State)
    requires Works(g, steps, h)
    ensures Ticks(g, TicksOf(steps), h)
    decreases |steps|
  {
    hide StepOver, TickOver, Quiet, IsSweep;
    if steps == [] {
      QuietReflexive(g);
    } else {
      var n := |steps| - 1;
      var front, last := steps[..n], steps[n];
      StepTicks(g, front, last.before);
      StepIs(last);
      MovedOnQuiet(last.after);
      if IsSweep(last) {
        SweepStep(last);
        var tick := Tick(last.before, last.passes, last.after);
        assert (TicksOf(front) + [tick])[..|TicksOf(front)|] == TicksOf(front);
      } else {
        StepQuiet(last);
        assert TicksOf(front) + [] == TicksOf(front);
        TicksThen(g, TicksOf(front), last.before, last.after);
        TicksThen(g, TicksOf(front), last.after, h);
      }
    }
  }

  lemma {:induction false} FlushQuiet(g: State)
    requires Freeable(g)
    ensures Quiet(g, AfterFlush(g))
    decreases |g.closed|
  {
    hide Quiet;
    if g.closed == [] {
      QuietReflexive(g);
    } else {
      FreeQuiet(g);
      FlushQuiet(AfterFree(g));
      QuietTransitive(g, AfterFree(g), AfterFlush(g));
    }
  }

  lemma FreeQuiet(g: State)
    requires Freeable(g) && g.closed != []
    ensures Quiet(g, AfterFree(g)) && Freeable(AfterFree(g)) && |AfterFree(g).closed| == |g.closed| - 1
  {
    hide KeepsOld, StaysPut, Freeable;
    FreePlaces(g);
    FreeShorter(g);
  }

  /** The socket that is freed was not open. */
  lemma FreePlaces(g: State)
    requires Freeable(g) && g.closed != []
    ensures g.closed[0] in g.tags && KeepsOld(g, AfterFree(g)) && StaysPut(g, AfterFree(g))
  {
    hide Distinct, Left;
    assert g.closed[0] in g.closed;
  }

  lemma FreeShorter(g: State)
    requires Freeable(g) && g.closed != []
    ensures g.closed[0] in g.tags && Freeable(AfterFree(g))
  {
    var s, h := g.closed[0], AfterFree(g);
    assert s in g.closed && g.closed == [s] + h.closed;
    assert forall i | 0 <= i < |h.closed| :: h.closed[i] == g.closed[i + 1] != s;
  }

  lemma WaitQuiet(g: State, batch: seq<Entry>, queues: Queues)
    ensures Quiet(g, Waited(g, batch, queues))
  {
  }

  lemma RoundTicks(r: Round)
    requires RoundOver(r)
    ensures Ticks(r.before, TicksOf(r.steps), r.after)
  {
    hide Gives, AtMostTwice, AllOpen, Works, Freeable, AfterFlush, Quiet, Ticks, TicksOf;
    var waited := Waited(r.quiet, r.batch, r.queues);
    GivesQuiet(r.before, OnPre, r.quiet);
    WaitQuiet(r.quiet, r.batch, r.queues);
    QuietTransitive(r.before, r.quiet, waited);
    StepTicks(waited, r.steps, r.worked);
    QuietTicks(r.before, waited, TicksOf(r.steps), r.worked);
    EndOfRound(r.worked, r.after);
    TicksThen(r.before, TicksOf(r.steps), r.worked, r.after);
  }

  lemma EndOfRound(worked: State, after: State)
    requires Freeable(worked) && Gives(AfterFlush(worked), OnPost, after)
    ensures Quiet(worked, after)
  {
    hide Gives, Freeable, AfterFlush, Quiet;
    FlushQuiet(worked);
    GivesQuiet(AfterFlush(worked), OnPost, after);
    QuietTransitive(worked, AfterFlush(worked), after);
  }

  lemma {:induction false} QuietTicks(a: State, b: State, ticks: seq<Tick>, h: State)
    requires Quiet(a, b) && Ticks(b, ticks, h)
    ensures Ticks(a, ticks, h)
    decreases |ticks|
  {
    hide TickOver, Quiet;
    if ticks == [] {
      QuietTransitive(a, b, h);
    } else {
      QuietTicks(a, b, ticks[..|ticks| - 1], ticks[|ticks| - 1].before);
    }
  }

  /** The sweeps of a run are those that its batches dispatch, in order, and it visits nobody else. */
  lemma {:induction false} RunTicks(g: State, rounds: seq<Round>, h: State)
    requires Runs(g, rounds, h)
    ensures Ticks(g, TicksOfRounds(rounds), h)
    decreases |rounds|
  {
    hide RoundOver, TickOver, Quiet;
    if rounds == [] {
      QuietReflexive(g);
    } else {
      var n := |rounds| - 1;
      RunTicks(g, rounds[..n], rounds[n].before);
      RoundTicks(rounds[n]);
      TicksJoin(g, TicksOfRounds(rounds[..n]), rounds[n].before, TicksOf(rounds[n].steps), h);
    }
  }

  /**
   The same from within a round: `g` is a state in a step of a batch, which ended in
   `stepped`; then come the rest of the batch, the end of the round, and more rounds.
   */
  lemma RunTicksFrom(g: State, stepped: State, rest: seq<Step>, worked: State, after: State, rounds: seq<Round>,
                     h: State)
    requires Quiet(g, stepped) && stepped.pending != [] && Works(MovedOn(stepped), rest, worked)
    requires Freeable(worked) && Gives(AfterFlush(worked), OnPost, after) && Runs(after, rounds, h)
    ensures Ticks(g, TicksOf(rest) + TicksOfRounds(rounds), h)
  {
    hide Gives, Works, Runs, Freeable, AfterFlush, Quiet, Ticks, TicksOf, TicksOfRounds;
    MovedOnQuiet(stepped);
    QuietTransitive(g, stepped, MovedOn(stepped));
    StepTicks(MovedOn(stepped), rest, worked);
    QuietTicks(g, MovedOn(stepped), TicksOf(rest), worked);
    EndOfRound(worked, after);
    TicksThen(g, TicksOf(rest), worked, after);
    RunTicks(after, rounds, h);
    TicksJoin(g, TicksOf(rest), after, TicksOfRounds(rounds), h);
  }
}
