/** The search through the ready array that gives up after two hits. */
module Batch {
  import opened Kernel
  import opened Memory
  import opened State

  /** The first `k` entries for `s` now have the target `t`. */
  function RetargetUpTo(entries: seq<Entry>, s: Socket, t: Target, k: nat): seq<Entry> {
    if entries == [] || k == 0 then entries
    else if entries[0].target == ToSocket(s) then
      [entries[0].(target := t)] + RetargetUpTo(entries[1..], s, t, k - 1)
    else
      [entries[0]] + RetargetUpTo(entries[1..], s, t, k)
  }

  function Hits(entries: seq<Entry>, s: Socket): nat {
    if entries == [] then 0
    else (if entries[0].target == ToSocket(s) then 1 else 0) + Hits(entries[1..], s)
  }

  lemma RetargetCons(e: Entry, rest: seq<Entry>, s: Socket, t: Target)
    ensures Retarget([e] + rest, s, t) == [if e.target == ToSocket(s) then e.(target := t)
            else e] + Retarget(rest, s, t)
  {
  }

  lemma {:induction false} NoHits(entries: seq<Entry>, s: Socket)
    ensures Hits(entries, s) == 0 <==> forall i | 0 <= i < |entries| :: entries[i].target != ToSocket(s)
  {
    if entries != [] {
      NoHits(entries[1..], s);
      assert forall i | 0 < i < |entries| :: entries[i] == entries[1..][i - 1];
    }
  }

  /** Giving up after `k` hits rewrites every entry if and only if there are no more than `k`. */
  lemma {:induction false} BoundedSearchIsComplete(entries: seq<Entry>, s: Socket, t: Target, k: nat)
    requires t != ToSocket(s)
    ensures RetargetUpTo(entries, s, t, k) == Retarget(entries, s, t) <==> Hits(entries, s) <= k
  {
    if entries != [] {
      var e, rest := entries[0], entries[1..];
      assert entries == [e] + rest;
      RetargetCons(e, rest, s, t);
      if k == 0 {
        NoHits(entries, s);
        if i :| 0 <= i < |entries| && entries[i].target == ToSocket(s) {
          assert Retarget(entries, s, t)[i] != entries[i];
        } else {
          assert Retarget(entries, s, t) == entries;
        }
      } else if e.target == ToSocket(s) {
        BoundedSearchIsComplete(rest, s, t, k - 1);
        ConsInjective(e.(target := t), RetargetUpTo(rest, s, t, k - 1), Retarget(rest, s, t));
      } else {
        BoundedSearchIsComplete(rest, s, t, k);
        ConsInjective(e, RetargetUpTo(rest, s, t, k), Retarget(rest, s, t));
      }
    }
  }

  lemma ConsInjective<T>(x: T, a: seq<T>, b: seq<T>)
    ensures [x] + a == [x] + b <==> a == b
  {
    if [x] + a == [x] + b {
      assert ([x] + a)[1..] == a && ([x] + b)[1..] == b;
    }
  }

  lemma AtMostTwiceTail(entries: seq<Entry>)
    requires AtMostTwice(entries) && entries != []
    ensures AtMostTwice(entries[1..])
    ensures forall i | 0 < i < |entries| && entries[0].target.ToSocket? && entries[i].target == entries[0].target ::
              entries[i].side != entries[0].side
  {
    forall i, j | 0 <= i < j < |entries[1..]| && entries[1..][i].target.ToSocket? &&
                  entries[1..][i].target == entries[1..][j].target
      ensures entries[1..][i].side != entries[1..][j].side
    {
      assert entries[1..][i] == entries[i + 1] && entries[1..][j] == entries[j + 1];
    }
  }

  /** If all entries for `s` are for the same filter, there is at most one. */
  lemma {:induction false} OneSideOneHit(entries: seq<Entry>, s: Socket, side: Side)
    requires AtMostTwice(entries)
    requires forall i | 0 <= i < |entries| && entries[i].target == ToSocket(s) :: entries[i].side == side
    ensures Hits(entries, s) <= 1
  {
    if entries != [] {
      AtMostTwiceTail(entries);
      assert forall i | 0 <= i < |entries[1..]| :: entries[1..][i] == entries[i + 1];
      OneSideOneHit(entries[1..], s, side);
      if entries[0].target == ToSocket(s) {
        NoHits(entries[1..], s);
      }
    }
  }

  /** One poll holds at most two filters, so two hits are all there can be. */
  lemma {:induction false} TwoHitsAtMost(entries: seq<Entry>, s: Socket)
    requires AtMostTwice(entries)
    ensures Hits(entries, s) <= 2
  {
    if entries != [] {
      AtMostTwiceTail(entries);
      TwoHitsAtMost(entries[1..], s);
      if entries[0].target == ToSocket(s) {
        assert forall i | 0 <= i < |entries[1..]| :: entries[1..][i] == entries[i + 1];
        OneSideOneHit(entries[1..], s, if entries[0].side == ReadSide then WriteSide else ReadSide);
      }
    }
  }

  lemma TwoHitsSuffice(entries: seq<Entry>, s: Socket, t: Target)
    requires AtMostTwice(entries) && t != ToSocket(s)
    ensures RetargetUpTo(entries, s, t, 2) == Retarget(entries, s, t)
  {
    TwoHitsAtMost(entries, s);
    BoundedSearchIsComplete(entries, s, t, 2);
  }

  lemma {:induction false} SameLength(entries: seq<Entry>, s: Socket, t: Target, k: nat)
    ensures |RetargetUpTo(entries, s, t, k)| == |entries|
  {
    if entries != [] && k != 0 {
      SameLength(entries[1..], s, t, k);
      SameLength(entries[1..], s, t, k - 1);
    }
  }

  /** One step of the search towards `all`, with `k` hits and the entries from `n` on left. */
  lemma SearchStep(entries: seq<Entry>, all: seq<Entry>, s: Socket, t: Target, k: nat, n: nat)
    requires n < |entries| == |all| && k > 0 && RetargetUpTo(entries[n..], s, t, k) == all[n..]
    ensures var e := entries[n];
            if e.target == ToSocket(s)
            then all[n] == e.(target := t) && RetargetUpTo(entries[n + 1..], s, t, k - 1) == all[n + 1..]
            else all[n] == e && RetargetUpTo(entries[n + 1..], s, t, k) == all[n + 1..]
  {
    assert entries[n..][1..] == entries[n + 1..];
    assert all[n] == all[n..][0];
    assert all[n + 1..] == all[n..][1..];
  }

  /** When the search ends, what it has not looked at is as it should be. */
  lemma SearchEnd(entries: seq<Entry>, all: seq<Entry>, s: Socket, t: Target, k: nat, n: nat)
    requires n <= |entries| == |all| && RetargetUpTo(entries[n..], s, t, k) == all[n..]
    requires n == |entries| || k == 0
    ensures forall j | n <= j < |all| :: all[j] == entries[j]
  {
    assert all[n..] == entries[n..];
    assert forall j | n <= j < |all| :: all[j] == all[n..][j - n] && entries[j] == entries[n..][j - n];
  }
}
