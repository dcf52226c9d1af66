/** The bounded line reader of src/sources/process.rs. */
module Lines {
  import opened Bytes

  const MAX_LINE_BYTES := 16 * 1024 * 1024

  /** The bytes that arrive before a read gives none. */
  function Arrived(chunks: seq<seq<Byte>>): seq<Byte> {
    if chunks == [] || chunks[0] == [] then [] else chunks[0] + Arrived(chunks[1..])
  }

  function Together(chunks: seq<seq<Byte>>): seq<Byte> {
    if chunks == [] then [] else chunks[0] + Together(chunks[1..])
  }

  /** Every chunk up to the first empty one arrives, whole and in order, and nothing after it does. */
  lemma {:induction false} ArrivedExactly(chunks: seq<seq<Byte>>, later: seq<seq<Byte>>)
    requires forall chunk :: chunk in chunks ==> chunk != []
    ensures Arrived(chunks) == Together(chunks) && Arrived(chunks + [[]] + later) == Together(chunks)
  {
    var all := chunks + [[]] + later;

    if chunks == [] {
      assert all[0] == [];
    } else {
      assert chunks[0] in chunks && forall chunk :: chunk in chunks[1..] ==> chunk in chunks;
      assert all[0] == chunks[0] && all[1..] == chunks[1..] + [[]] + later;
      ArrivedExactly(chunks[1..], later);
    }
  }

  function Sent(line: string): seq<string> {
    if line == "" then [] else [line]
  }

  /** The lines meant: of the newline-terminated lines before the first that is too long, the
      ones that are not blank. `trimmed` stands for the lossy text without surrounding space. */
  function LinesOf(trimmed: seq<Byte> -> string, bytes: seq<Byte>): seq<string>
    decreases |bytes|
  {
    match Position(bytes)
    case None => []
    case Some(at) =>
      if at > MAX_LINE_BYTES then []
      else Sent(trimmed(bytes[..at])) + LinesOf(trimmed, bytes[at + 1..])
  }

  lemma {:induction false} FirstLine(trimmed: seq<Byte> -> string, line: seq<Byte>, more: seq<Byte>)
    requires NEWLINE !in line
    ensures LinesOf(trimmed, line + [NEWLINE] + more) ==
            if |line| > MAX_LINE_BYTES then [] else Sent(trimmed(line)) + LinesOf(trimmed, more)
  {
    PositionFirst(line, more);
    var all := line + [NEWLINE] + more;
    assert all[..|line|] == line && all[|line| + 1..] == more;
  }

  /** A fragment that is too long ends everything, whatever comes later. */
  lemma {:induction false} TooLong(trimmed: seq<Byte> -> string, fragment: seq<Byte>, later: seq<Byte>)
    requires NEWLINE !in fragment && |fragment| > MAX_LINE_BYTES
    ensures LinesOf(trimmed, fragment + later) == []
  {
    var all := fragment + later;
    forall k | 0 <= k < |fragment| ensures all[k] != NEWLINE {
      assert all[k] == fragment[k] && fragment[k] in fragment;
    }
  }

  lemma {:induction false} Unfinished(trimmed: seq<Byte> -> string, bytes: seq<Byte>)
    requires NEWLINE !in bytes
    ensures LinesOf(trimmed, bytes) == []
  {
  }

  function Framed(raws: seq<seq<Byte>>): seq<Byte> {
    if raws == [] then [] else raws[0] + [NEWLINE] + Framed(raws[1..])
  }

  function NonBlank(trimmed: seq<Byte> -> string, raws: seq<seq<Byte>>): seq<string> {
    if raws == [] then []
    else
      var line, rest := trimmed(raws[0]), NonBlank(trimmed, raws[1..]);
      if line == "" then rest else [line] + rest
  }

  lemma {:induction false} NoneFramed(more: seq<Byte>)
    ensures Framed([]) + more == more
  {
  }

  lemma {:induction false} FramedFirst(raws: seq<seq<Byte>>, more: seq<Byte>)
    requires raws != []
    ensures Framed(raws) + more == raws[0] + [NEWLINE] + (Framed(raws[1..]) + more)
  {
  }

  /** What the definition means: short lines come out trimmed, in order and without the blank
      ones, up to a line or fragment that is too long or not ended. */
  lemma {:induction false} LinesExact(trimmed: seq<Byte> -> string, raws: seq<seq<Byte>>, rest: seq<Byte>,
                                      later: seq<Byte>)
    requires forall raw :: raw in raws ==> NEWLINE !in raw && |raw| <= MAX_LINE_BYTES
    requires NEWLINE !in rest && (|rest| > MAX_LINE_BYTES || later == [])
    ensures LinesOf(trimmed, Framed(raws) + (rest + later)) == NonBlank(trimmed, raws)
  {
    hide Framed, LinesOf;

    if raws == [] {
      NoneFramed(rest + later);

      if |rest| > MAX_LINE_BYTES {
        TooLong(trimmed, rest, later);
      } else {
        assert rest + later == rest;
        Unfinished(trimmed, rest);
      }
    } else {
      assert raws[0] in raws && forall raw :: raw in raws[1..] ==> raw in raws;
      var more := Framed(raws[1..]) + (rest + later);
      FramedFirst(raws, rest + later);
      FirstLine(trimmed, raws[0], more);
      LinesExact(trimmed, raws[1..], rest, later);
    }
  }

  lemma Regroup(whole: seq<string>, sent: seq<string>, line: seq<string>, more: seq<string>)
    requires whole == sent + (line + more)
    ensures whole == sent + line + more
  {
  }

  class Reader {
    const trimmed: seq<Byte> -> string
    const room: nat
    var buffer: seq<Byte>
    var sent: seq<string>

    /** The receiver takes `room` lines and then goes away. */
    constructor (trimmed: seq<Byte> -> string, room: nat)
      ensures this.trimmed == trimmed && this.room == room && buffer == [] && sent == []
    {
      this.trimmed := trimmed;
      this.room := room;
      buffer := [];
      sent := [];
    }

    ghost predicate Valid()
      reads this
    {
      |buffer| <= MAX_LINE_BYTES && NEWLINE !in buffer && |sent| <= room
    }

    method Emit() returns (ok: bool)
      requires Valid()
      modifies this
      ensures Valid() && buffer == []
      ensures var line := Sent(trimmed(old(buffer)));
              && ok == (|old(sent)| + |line| <= room)
              && sent == old(sent) + if ok then line else []
      ensures !ok ==> |sent| == room
    {
      var line := trimmed(buffer);
      buffer := [];

      if line == "" {
        return true;
      }

      if |sent| < room {
        sent := sent + [line];
        return true;
      }

      return false;
    }

    /** One pass over a chunk. While it answers true, the lines still to be sent are those of
        what is buffered followed by whatever comes. */
    method Take(chunk: seq<Byte>, ghost later: seq<Byte>) returns (ok: bool)
      requires Valid()
      modifies this
      ensures Valid()
      ensures ok ==>
                old(sent) + LinesOf(trimmed, old(buffer) + chunk + later) == sent + LinesOf(trimmed, buffer + later)
      ensures !ok ==> Cut(sent, room, old(sent) + LinesOf(trimmed, old(buffer) + chunk + later))
    {
      hide LinesOf, Sent;
      var start := 0;
      ghost var whole := sent + LinesOf(trimmed, buffer + chunk + later);
      assert buffer + chunk[0..] + later == buffer + chunk + later;

      for index := 0 to |chunk|
        invariant 0 <= start <= index && Valid()
        invariant NEWLINE !in chunk[start..index]
        invariant whole == sent + LinesOf(trimmed, buffer + chunk[start..] + later)
      {
        if chunk[index] != NEWLINE {
          continue;
        }

        ghost var line := buffer + chunk[start..index];
        assert buffer + chunk[start..] + later == line + [NEWLINE] + (chunk[index + 1..] + later);
        FirstLine(trimmed, line, chunk[index + 1..] + later);

        if |buffer| + (index - start) > MAX_LINE_BYTES {
          return false;
        }

        buffer := buffer + chunk[start..index];
        ghost var before := sent;
        var emitted := Emit();
        Regroup(whole, before, Sent(trimmed(line)), LinesOf(trimmed, chunk[index + 1..] + later));

        if !emitted {
          return false;
        }

        start := index + 1;
        assert buffer + chunk[start..] + later == chunk[index + 1..] + later;
      }

      if |buffer| + (|chunk| - start) > MAX_LINE_BYTES {
        TooLong(trimmed, buffer + chunk[start..], later);
        return false;
      }

      buffer := buffer + chunk[start..];
      return true;
    }

    /** The whole of `read_lines`: however the bytes are cut into chunks, what is sent is the
        lines meant, or as many as the receiver takes; and the buffer never outgrows a line. */
    method ReadLines(chunks: seq<seq<Byte>>)
      requires Valid() && buffer == [] && sent == []
      modifies this
      ensures Valid() && Cut(sent, room, LinesOf(trimmed, Arrived(chunks)))
    {
      hide LinesOf;
      var i := 0;
      assert chunks[0..] == chunks && buffer + Arrived(chunks) == Arrived(chunks);
      assert sent + LinesOf(trimmed, Arrived(chunks)) == LinesOf(trimmed, Arrived(chunks));

      while i < |chunks| && chunks[i] != []
        invariant 0 <= i <= |chunks| && Valid()
        invariant LinesOf(trimmed, Arrived(chunks)) == sent + LinesOf(trimmed, buffer + Arrived(chunks[i..]))
      {
        ghost var later := Arrived(chunks[i + 1..]);
        assert chunks[i..][1..] == chunks[i + 1..];
        assert buffer + chunks[i] + later == buffer + Arrived(chunks[i..]);
        var ok := Take(chunks[i], later);

        if !ok {
          return;
        }

        i := i + 1;
      }

      assert buffer + Arrived(chunks[i..]) == buffer;
      Unfinished(trimmed, buffer);
    }
  }


  /** Everything, or as much as the receiver took. */
  predicate Cut(sent: seq<string>, room: nat, lines: seq<string>) {
    sent <= lines && (sent == lines || |sent| == room)
  }
}
