/**
 Operations keep what ties a socket's interest and its filters to the history of the run:
 frames for the part of the invariant that says so.
 */
module Masks {
  import opened Journal
  import opened Kernel
  import opened Memory
  import opened State

  /** `x` is an open socket in both states, with the same identity and interest. */
  ghost predicate SameInterest(g: State, h: State, x: Socket) {
    && IsOpen(g.places, x) && x in g.tags && x in g.tunings && x in h.tags && x in h.tunings
    && g.tags[x] == h.tags[x] && g.tunings[x].interest == h.tunings[x].interest
  }

  /** Only the filters of `fd` and the history of `id`, both of which are those of `t`, have changed. */
  ghost predicate OnlyPollOf(g: State, h: State, t: Socket, fd: int, id: nat) {
    && h.mapping == g.mapping && OtherDescriptorsUntouched(g.filters, h.filters, fd)
    && (forall other | other != id :: PollOf(g.mapping, h.log, other) == PollOf(g.mapping, g.log, other))
    && (forall x | IsOpen(h.places, x) && x != t && x in h.tags && x in h.tunings ::
      SameInterest(g, h, x) && (h.tags[x].fd != fd || h.filters == g.filters) && h.tags[x].id != id)
  }

  lemma MasksFrame(g: State, h: State, t: Socket, fd: int, id: nat)
    requires MaskInv(g) && OnlyPollOf(g, h, t, fd, id)
    requires IsOpen(h.places, t) && t in h.tags && t in h.tunings ==>
                PollOf(h.mapping, h.log, h.tags[t].id)
                == Poll(h.tunings[t].interest, Registered(h.filters, h.tags[t].fd))
    ensures MaskInv(h)
  {
    hide PollOf, IsOpen;
    forall x | IsOpen(h.places, x) && x in h.tags && x in h.tunings
      ensures PollOf(h.mapping, h.log, h.tags[x].id) == Poll(h.tunings[x].interest, Registered(h.filters, h.tags[x].fd))
    {
      if x != t {
        assert SameInterest(g, h, x);
        assert Registered(h.filters, h.tags[x].fd) == Registered(g.filters, g.tags[x].fd);
      }
    }
  }

  lemma MaskAt(g: State, s: Socket)
    requires MaskInv(g) && IsLive(g, s) && g.places[s].open
    ensures PollOf(g.mapping, g.log, g.tags[s].id) == Poll(g.tunings[s].interest, Registered(g.filters, g.tags[s].fd))
  {
    hide PollOf;
  }

  /** Nothing that bears on interest or filters has changed. */
  lemma MasksStay(g: State, h: State)
    requires MaskInv(g) && h.mapping == g.mapping && h.log == g.log && h.places == g.places
    requires h.tags == g.tags && h.tunings == g.tunings && h.filters == g.filters
    ensures MaskInv(h)
  {
    hide PollOf;
  }
}
