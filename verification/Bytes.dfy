/** Bytes, and where a line ends. */
module Bytes {
  import opened Prelude

  type Byte = b: int | 0 <= b < 256

  const NEWLINE: Byte := 10

  /** Where the first newline is. */
  function Position(bytes: seq<Byte>): (at: Option<nat>)
    ensures at.Some? ==> at.value < |bytes| && bytes[at.value] == NEWLINE && NEWLINE !in bytes[..at.value]
    ensures at.None? ==> NEWLINE !in bytes
  {
    if bytes == [] then None
    else if bytes[0] == NEWLINE then Some(0)
    else match Position(bytes[1..])
      case None => assert bytes == [bytes[0]] + bytes[1..]; None
      case Some(at) => assert bytes[..at + 1] == [bytes[0]] + bytes[1..][..at]; Some(at + 1)
  }

  lemma {:induction false} PositionConcat(bytes: seq<Byte>, more: seq<Byte>)
    requires Position(bytes).Some?
    ensures Position(bytes + more) == Position(bytes)
  {
    if bytes[0] != NEWLINE {
      assert (bytes + more)[1..] == bytes[1..] + more;
      PositionConcat(bytes[1..], more);
    }
  }

  lemma {:induction false} PositionFirst(bytes: seq<Byte>, more: seq<Byte>)
    requires NEWLINE !in bytes
    ensures Position(bytes + [NEWLINE] + more) == Some(|bytes|)
  {
    var all := bytes + [NEWLINE] + more;

    if bytes != [] {
      assert all[1..] == bytes[1..] + [NEWLINE] + more;
      PositionFirst(bytes[1..], more);
    }
  }
}
