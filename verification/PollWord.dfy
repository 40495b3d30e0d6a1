/**
 The poll word: four bits that hold a poll's type and the events it is interested in,
 and the two ways in which interest bits are written into it.
 */
module PollWord {

  /** A set of events, the masks built from ASOCK_SOCKET_READABLE and ASOCK_SOCKET_WRITABLE. */
  datatype Mask = Mask(readable: bool, writable: bool) {
    function And(m: Mask): Mask {
      Mask(readable && m.readable, writable && m.writable)
    }

    predicate IsSubset(m: Mask) {
      (readable ==> m.readable) && (writable ==> m.writable)
    }
  }

  const NONE := Mask(false, false)
  const READABLE := Mask(true, false)
  const WRITABLE := Mask(false, true)
  const BOTH := Mask(true, true)

  datatype Kind = SocketKind | ShutdownKind | SemiKind | CallbackKind

  /** How `asock_poll_change` stores a mask: the source crosses the two bits. */
  datatype Mapping = AsWritten | AsIntended

  type Word = bv4

  const OUT: Word := 4
  const IN: Word := 8

  function TypeBits(k: Kind): Word {
    match k
    case SocketKind => 0
    case ShutdownKind => 1
    case SemiKind => 2
    case CallbackKind => 3
  }

  function PollType(w: Word): Kind {
    var t := w & 3;
    if t == 0 then SocketKind else if t == 1 then ShutdownKind else if t == 2 then SemiKind else CallbackKind
  }

  function PollEvents(w: Word): Mask {
    Mask(w & IN != 0, w & OUT != 0)
  }

  function StartWord(w: Word, events: Mask): Word {
    TypeBits(PollType(w)) | (if events.readable then IN else 0) | (if events.writable then OUT else 0)
  }

  function ChangeWord(mapping: Mapping, w: Word, events: Mask): Word {
    match mapping
    case AsWritten =>
      TypeBits(PollType(w)) | (if events.writable then IN else 0) | (if events.readable then OUT else 0)
    case AsIntended =>
      StartWord(w, events)
  }

  function SetTypeWord(w: Word, k: Kind): Word {
    TypeBits(k) | (w & 12)
  }

  /** The interest that a later `PollEvents` reads back after a change to `events`. */
  function Stored(mapping: Mapping, events: Mask): Mask {
    match mapping
    case AsWritten => Mask(events.writable, events.readable)
    case AsIntended => events
  }

  lemma InitDecodes(k: Kind)
    ensures PollType(TypeBits(k)) == k && PollEvents(TypeBits(k)) == NONE
  {
  }

  lemma StartDecodes(w: Word, events: Mask)
    ensures PollType(StartWord(w, events)) == PollType(w)
    ensures PollEvents(StartWord(w, events)) == events
  {
  }

  lemma ChangeDecodes(mapping: Mapping, w: Word, events: Mask)
    ensures PollType(ChangeWord(mapping, w, events)) == PollType(w)
    ensures PollEvents(ChangeWord(mapping, w, events)) == Stored(mapping, events)
  {
  }

  lemma SetTypeDecodes(w: Word, k: Kind)
    ensures PollType(SetTypeWord(w, k)) == k
    ensures PollEvents(SetTypeWord(w, k)) == PollEvents(w)
  {
  }

  lemma WrittenAgreesOnSymmetricMasks(w: Word, events: Mask)
    ensures ChangeWord(AsWritten, w, events) == ChangeWord(AsIntended, w, events) <==> events == NONE || events == BOTH
  {
  }
}
