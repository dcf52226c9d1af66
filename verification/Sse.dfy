/** The incremental event-stream parser and its printer, from src/rpc.rs. The dialect is the
    code's own: only '\n' ends a line, comments are fields, and an event the stream leaves
    unfinished is given at the end. */
module Sse {
  import opened Prelude
  import opened Bytes

  datatype SseEvent = SseEvent(fields: seq<string>, data: seq<string>) {
    predicate IsEmpty() {
      fields == [] && data == []
    }
  }

  const NOTHING := SseEvent([], [])

  // ----- text and bytes

  /** What is used of `String::from_utf8_lossy`: it keeps newlines where they are. */
  ghost predicate KeepsNewlines(decode: seq<Byte> -> string) {
    forall raw: seq<Byte> :: NEWLINE !in raw ==>
      '\n' !in decode(raw) && decode(raw + [NEWLINE]) == decode(raw) + "\n"
  }

  /** What is used of UTF-8: texts encode piece by piece, a newline is one byte that occurs
      nowhere else, and decoding gives the text back. */
  ghost predicate Encodes(encode: string -> seq<Byte>, decode: seq<Byte> -> string) {
    && (forall text, more :: encode(text + more) == encode(text) + encode(more))
    && (forall text :: decode(encode(text)) == text)
    && (forall text :: '\n' !in text ==> NEWLINE !in encode(text))
    && encode("\n") == [NEWLINE]
  }

  function TrimEnd(text: string, c: char): string {
    if text != [] && text[|text| - 1] == c then TrimEnd(text[..|text| - 1], c) else text
  }

  lemma {:induction false} TrimEndTrims(text: string, c: char)
    ensures var r := TrimEnd(text, c);
            r <= text && (r != [] ==> r[|r| - 1] != c) && forall k :: |r| <= k < |text| ==> text[k] == c
  {
    if text != [] && text[|text| - 1] == c {
      TrimEndTrims(text[..|text| - 1], c);
    }
  }

  // ----- the parser, as a function

  datatype Parsed = Parsed(rest: seq<Byte>, event: SseEvent, events: seq<SseEvent>)

  /** The event a line leaves open. */
  function Held(event: SseEvent, line: string): SseEvent {
    if line == "" then NOTHING
    else if "data:" <= line then
      var data := line[5..];
      event.(data := event.data + [if " " <= data then data[1..] else data])
    else event.(fields := event.fields + [line])
  }

  /** The events a line completes: a blank line ends a non-empty event. */
  function Completed(event: SseEvent, line: string): seq<SseEvent> {
    if line == "" && !event.IsEmpty() then [event] else []
  }

  function LineOf(decode: seq<Byte> -> string, raw: seq<Byte>): string {
    TrimEnd(TrimEnd(decode(raw), '\n'), '\r')
  }

  /** Every complete line of `bytes` is read; the rest waits. */
  function Drained(decode: seq<Byte> -> string, bytes: seq<Byte>, event: SseEvent): Parsed
    decreases |bytes|
  {
    match Position(bytes)
    case None => Parsed(bytes, event, [])
    case Some(at) =>
      var line := LineOf(decode, bytes[..at + 1]);
      var later := Drained(decode, bytes[at + 1..], Held(event, line));
      later.(events := Completed(event, line) + later.events)
  }

  /** What `finish` gives. */
  function Finished(decode: seq<Byte> -> string, rest: seq<Byte>, event: SseEvent): seq<SseEvent> {
    var text := decode(rest);
    var line := TrimEnd(text, '\r');
    if text == "" then (if event.IsEmpty() then [] else [event])
    else Completed(event, line) + (if Held(event, line).IsEmpty() then [] else [Held(event, line)])
  }

  /** All the events of a byte stream. */
  function EventsOf(decode: seq<Byte> -> string, bytes: seq<Byte>): seq<SseEvent> {
    var all := Drained(decode, bytes, NOTHING);
    all.events + Finished(decode, all.rest, all.event)
  }

  class SseParser {
    const decode: seq<Byte> -> string
    var buffer: seq<Byte>
    var event: SseEvent

    constructor (decode: seq<Byte> -> string)
      ensures this.decode == decode && buffer == [] && event == NOTHING
    {
      this.decode := decode;
      buffer := [];
      event := NOTHING;
    }

    method Line(line: string, events: seq<SseEvent>) returns (more: seq<SseEvent>)
      modifies this`event
      ensures more == events + Completed(old(event), line)
      ensures event == Held(old(event), line)
    {
      more := events;

      if line == "" {
        if !event.IsEmpty() {
          more := more + [event];
          event := NOTHING;
        }

        return;
      }

      if "data:" <= line {
        var data := line[5..];
        event := event.(data := event.data + [if " " <= data then data[1..] else data]);
      } else {
        event := event.(fields := event.fields + [line]);
      }
    }

    method Feed(chunk: seq<Byte>) returns (events: seq<SseEvent>)
      modifies this
      ensures Parsed(buffer, event, events) == Drained(decode, old(buffer) + chunk, old(event))
    {
      hide Position, LineOf, Held, Completed;
      buffer := buffer + chunk;
      events := [];
      ghost var whole := Drained(decode, buffer, event);
      var position := Position(buffer);

      while position.Some?
        invariant position == Position(buffer)
        invariant var later := Drained(decode, buffer, event); whole == later.(events := events + later.events)
        decreases |buffer|
      {
        var raw := buffer[..position.value + 1];
        buffer := buffer[position.value + 1..];
        var line := LineOf(decode, raw);
        Assoc(events, Completed(event, line), Drained(decode, buffer, Held(event, line)).events);
        events := Line(line, events);
        position := Position(buffer);
      }
    }

    method Finish() returns (events: seq<SseEvent>)
      modifies this
      ensures events == Finished(decode, old(buffer), old(event))
      ensures buffer == [] && event == NOTHING
    {
      var rest := decode(buffer);
      buffer := [];
      events := [];

      if rest != "" {
        events := Line(TrimEnd(rest, '\r'), events);
      }

      if !event.IsEmpty() {
        events := events + [event];
        event := NOTHING;
      }
    }
  }

  // ----- chunks

  /** What the upstream gives: bytes, or an error that the stream carries on from. */
  datatype Chunk = Bytes(bytes: seq<Byte>) | Broken(error: string)

  datatype Item = Event(event: SseEvent) | Failure(error: string)

  function Items(events: seq<SseEvent>): seq<Item> {
    seq(|events|, i requires 0 <= i < |events| => Event(events[i]))
  }

  function AllBytes(chunks: seq<Chunk>): seq<Byte> {
    if chunks == [] then []
    else
      AllBytes(chunks[..|chunks| - 1]) +
        match chunks[|chunks| - 1] { case Bytes(bytes) => bytes case Broken(_) => [] }
  }

  function AllErrors(chunks: seq<Chunk>): seq<string> {
    if chunks == [] then []
    else AllErrors(chunks[..|chunks| - 1]) + match chunks[|chunks| - 1] { case Bytes(_) => [] case Broken(e) => [e] }
  }

  function EventsIn(items: seq<Item>): seq<SseEvent> {
    if items == [] then []
    else (if items[0].Event? then [items[0].event] else []) + EventsIn(items[1..])
  }

  function ErrorsIn(items: seq<Item>): seq<string> {
    if items == [] then []
    else (if items[0].Failure? then [items[0].error] else []) + ErrorsIn(items[1..])
  }

  lemma Assoc<T>(a: seq<T>, b: seq<T>, c: seq<T>)
    ensures a + (b + c) == a + b + c
  {
  }

  lemma {:induction false} InConcat(items: seq<Item>, more: seq<Item>)
    ensures EventsIn(items + more) == EventsIn(items) + EventsIn(more)
    ensures ErrorsIn(items + more) == ErrorsIn(items) + ErrorsIn(more)
  {
    if items == [] {
      assert items + more == more;
    } else {
      InConcat(items[1..], more);
      assert (items + more)[1..] == items[1..] + more;
      Assoc(if items[0].Event? then [items[0].event] else [], EventsIn(items[1..]), EventsIn(more));
      Assoc(if items[0].Failure? then [items[0].error] else [], ErrorsIn(items[1..]), ErrorsIn(more));
    }
  }

  lemma {:induction false} InItems(events: seq<SseEvent>)
    ensures EventsIn(Items(events)) == events && ErrorsIn(Items(events)) == []
  {
    if events != [] {
      assert Items(events)[1..] == Items(events[1..]);
      InItems(events[1..]);
    }
  }

  lemma {:induction false} InFailure(error: string)
    ensures EventsIn([Failure(error)]) == [] && ErrorsIn([Failure(error)]) == [error]
  {
    assert [Failure(error)][1..] == [];
  }

  lemma {:induction false} FirstLine(decode: seq<Byte> -> string, bytes: seq<Byte>, event: SseEvent)
    ensures match Position(bytes)
            case None => Drained(decode, bytes, event) == Parsed(bytes, event, [])
            case Some(at) =>
              var line := LineOf(decode, bytes[..at + 1]);
              var later := Drained(decode, bytes[at + 1..], Held(event, line));
              Drained(decode, bytes, event) == later.(events := Completed(event, line) + later.events)
  {
  }

  /** Reading some bytes and then more is reading them all: nothing before the cut is looked at
      again but the unfinished line. */
  lemma {:induction false} DrainedConcat(decode: seq<Byte> -> string, bytes: seq<Byte>, more: seq<Byte>,
                                         event: SseEvent)
    ensures var first := Drained(decode, bytes, event);
            var second := Drained(decode, first.rest + more, first.event);
            Drained(decode, bytes + more, event) == second.(events := first.events + second.events)
    decreases |bytes|
  {
    hide Position, LineOf, Held, Completed, Drained;
    var at := Position(bytes);
    FirstLine(decode, bytes, event);

    if at.Some? {
      var line := LineOf(decode, bytes[..at.value + 1]);
      var rest := bytes[at.value + 1..];
      var later := Drained(decode, rest, Held(event, line));
      var second := Drained(decode, later.rest + more, later.event);
      PositionConcat(bytes, more);
      FirstLine(decode, bytes + more, event);
      assert (bytes + more)[..at.value + 1] == bytes[..at.value + 1];
      assert (bytes + more)[at.value + 1..] == rest + more;
      DrainedConcat(decode, rest, more, Held(event, line));
      Assoc(Completed(event, line), later.events, second.events);
    }
  }

  lemma {:induction false} NothingRead(decode: seq<Byte> -> string)
    ensures Drained(decode, [], NOTHING) == Parsed([], NOTHING, [])
    ensures EventsIn([]) == [] && ErrorsIn([]) == []
  {
  }

  /** The error of chunk `i` comes after the events that its predecessors complete, and after their
      errors. */
  ghost predicate Placed(decode: seq<Byte> -> string, chunks: seq<Chunk>, items: seq<Item>, i: nat)
    requires i < |chunks|
  {
    chunks[i].Broken? ==>
      exists j ::
        && 0 <= j < |items| && items[j] == Failure(chunks[i].error)
        && EventsIn(items[..j]) == Drained(decode, AllBytes(chunks[..i]), NOTHING).events
        && ErrorsIn(items[..j]) == AllErrors(chunks[..i])
  }

  lemma {:induction false} StillPlaced(decode: seq<Byte> -> string, chunks: seq<Chunk>, items: seq<Item>,
                                       more: seq<Item>, i: nat)
    requires i < |chunks| && Placed(decode, chunks, items, i)
    ensures Placed(decode, chunks, items + more, i)
  {
    hide Drained;

    if chunks[i].Broken? {
      var j :| 0 <= j < |items| && items[j] == Failure(chunks[i].error)
               && EventsIn(items[..j]) == Drained(decode, AllBytes(chunks[..i]), NOTHING).events
               && ErrorsIn(items[..j]) == AllErrors(chunks[..i]);
      assert (items + more)[..j] == items[..j];
    }
  }

  lemma {:induction false} NoError(decode: seq<Byte> -> string, chunks: seq<Chunk>, items: seq<Item>, i: nat)
    requires i < |chunks| && chunks[i].Bytes?
    ensures Placed(decode, chunks, items, i)
  {
  }

  lemma {:induction false} PlacedNow(decode: seq<Byte> -> string, chunks: seq<Chunk>, items: seq<Item>, i: nat)
    requires i < |chunks| && chunks[i].Broken?
    requires EventsIn(items) == Drained(decode, AllBytes(chunks[..i]), NOTHING).events
    requires ErrorsIn(items) == AllErrors(chunks[..i])
    ensures Placed(decode, chunks, items + [Failure(chunks[i].error)], i)
  {
    var all := items + [Failure(chunks[i].error)];
    assert all[..|items|] == items;
  }

  /** The stream of `sse_events`. However the bytes are cut, and wherever errors fall between
      them, the events are those of the whole byte stream, and every error is passed on. */
  method SseEvents(decode: seq<Byte> -> string, chunks: seq<Chunk>) returns (items: seq<Item>)
    ensures EventsIn(items) == EventsOf(decode, AllBytes(chunks))
    ensures ErrorsIn(items) == AllErrors(chunks)
    ensures forall i :: 0 <= i < |chunks| ==> Placed(decode, chunks, items, i)
  {
    hide Drained, Finished, EventsIn, ErrorsIn, Items, Placed;
    var parser := new SseParser(decode);
    items := [];
    var i := 0;
    assert chunks[..0] == [];
    NothingRead(decode);

    while i < |chunks|
      invariant 0 <= i <= |chunks| && fresh(parser) && parser.decode == decode
      invariant Drained(decode, AllBytes(chunks[..i]), NOTHING) == Parsed(parser.buffer, parser.event, EventsIn(items))
      invariant ErrorsIn(items) == AllErrors(chunks[..i])
      invariant forall k :: 0 <= k < i ==> Placed(decode, chunks, items, k)
    {
      assert chunks[..i + 1][..i] == chunks[..i];

      match chunks[i] {
        case Bytes(bytes) =>
          DrainedConcat(decode, AllBytes(chunks[..i]), bytes, NOTHING);
          var events := parser.Feed(bytes);
          InItems(events);
          InConcat(items, Items(events));
          forall k | 0 <= k < i { StillPlaced(decode, chunks, items, Items(events), k); }
          NoError(decode, chunks, items + Items(events), i);
          items := items + Items(events);
        case Broken(error) =>
          PlacedNow(decode, chunks, items, i);
          forall k | 0 <= k < i { StillPlaced(decode, chunks, items, [Failure(error)], k); }
          InConcat(items, [Failure(error)]);
          InFailure(error);
          assert AllBytes(chunks[..i]) + [] == AllBytes(chunks[..i]);
          assert EventsIn(items) + [] == EventsIn(items);
          items := items + [Failure(error)];
      }

      i := i + 1;
    }

    assert chunks[..i] == chunks;
    var events := parser.Finish();
    InItems(events);
    InConcat(items, Items(events));
    forall k | 0 <= k < |chunks| { StillPlaced(decode, chunks, items, Items(events), k); }
    items := items + Items(events);
  }

  // ----- what the parser can produce

  /** A field is one non-empty line that doesn't read as data. */
  predicate CleanField(field: string) {
    field != "" && '\n' !in field && field[|field| - 1] != '\r' && !("data:" <= field)
  }

  predicate CleanData(data: string) {
    '\n' !in data && (data != "" ==> data[|data| - 1] != '\r')
  }

  ghost predicate Clean(event: SseEvent) {
    && (forall field :: field in event.fields ==> CleanField(field))
    && forall data :: data in event.data ==> CleanData(data)
  }

  lemma {:induction false} TrimOneNewline(text: string)
    requires '\n' !in text
    ensures TrimEnd(text + "\n", '\n') == text
  {
    assert (text + "\n")[..|text|] == text;
    assert text != [] ==> text[|text| - 1] in text;
  }

  lemma {:induction false} HeldClean(event: SseEvent, line: string)
    requires Clean(event) && '\n' !in line && (line != "" ==> line[|line| - 1] != '\r')
    ensures Clean(Held(event, line))
    ensures forall done :: done in Completed(event, line) ==> Clean(done) && !done.IsEmpty()
  {
  }

  lemma {:induction false} LineClean(decode: seq<Byte> -> string, raw: seq<Byte>)
    requires KeepsNewlines(decode) && NEWLINE !in raw
    ensures LineOf(decode, raw + [NEWLINE]) == TrimEnd(decode(raw), '\r')
    ensures var line := TrimEnd(decode(raw), '\r'); '\n' !in line && (line != "" ==> line[|line| - 1] != '\r')
  {
    TrimOneNewline(decode(raw));
    TrimEndTrims(decode(raw), '\r');
  }

  lemma {:induction false} DrainedClean(decode: seq<Byte> -> string, bytes: seq<Byte>, event: SseEvent)
    requires KeepsNewlines(decode) && Clean(event)
    ensures var all := Drained(decode, bytes, event);
            && Clean(all.event) && NEWLINE !in all.rest
            && forall done :: done in all.events ==> Clean(done) && !done.IsEmpty()
    decreases |bytes|
  {
    var at := Position(bytes);

    if at.Some? {
      assert bytes[..at.value + 1] == bytes[..at.value] + [NEWLINE];
      LineClean(decode, bytes[..at.value]);
      var line := LineOf(decode, bytes[..at.value + 1]);
      HeldClean(event, line);
      DrainedClean(decode, bytes[at.value + 1..], Held(event, line));
    }
  }

  /** Whatever the bytes, an event is never empty, and its lines are clean. */
  lemma {:induction false} EventsClean(decode: seq<Byte> -> string, bytes: seq<Byte>)
    requires KeepsNewlines(decode)
    ensures forall event :: event in EventsOf(decode, bytes) ==> Clean(event) && !event.IsEmpty()
  {
    DrainedClean(decode, bytes, NOTHING);
    var all := Drained(decode, bytes, NOTHING);
    LineClean(decode, all.rest);
    HeldClean(all.event, TrimEnd(decode(all.rest), '\r'));
  }

  // ----- the printer

  function Join(lines: seq<string>): string {
    if lines == [] then ""
    else if |lines| == 1 then lines[0]
    else lines[0] + "\n" + Join(lines[1..])
  }

  /** The data line of the printed event: `filter` stands for `filter_json`, which gives nothing
      when the data isn't JSON. */
  function FilteredData(filter: string -> Option<string>, event: SseEvent): seq<string> {
    if event.data == [] then []
    else match filter(Join(event.data)) case None => [] case Some(json) => [json]
  }

  function FilterEvent(filter: string -> Option<string>, event: SseEvent): string {
    var data := FilteredData(filter, event);
    var lines := event.fields + if data == [] then [] else ["data: " + data[0]];
    if lines == [] then "" else Join(lines) + "\n\n"
  }

  /** The event that is meant: the same fields, and the filtered data as one line. */
  function Filtered(filter: string -> Option<string>, event: SseEvent): SseEvent {
    SseEvent(event.fields, FilteredData(filter, event))
  }

  function Printed(filter: string -> Option<string>, events: seq<SseEvent>): string {
    if events == [] then "" else FilterEvent(filter, events[0]) + Printed(filter, events[1..])
  }

  function AllFiltered(filter: string -> Option<string>, events: seq<SseEvent>): seq<SseEvent> {
    if events == [] then []
    else
      var first := Filtered(filter, events[0]);
      (if first.IsEmpty() then [] else [first]) + AllFiltered(filter, events[1..])
  }

  /** Compact JSON is one line. */
  ghost predicate OneLine(filter: string -> Option<string>) {
    forall text :: filter(text).Some? ==> CleanData(filter(text).value)
  }

  ghost predicate Codec(encode: string -> seq<Byte>, decode: seq<Byte> -> string) {
    KeepsNewlines(decode) && Encodes(encode, decode)
  }

  /** A printed line reads back as itself. */
  lemma {:induction false} ReadLine(
    encode: string -> seq<Byte>, decode: seq<Byte> -> string, line: string, more: string, event: SseEvent)
    requires Codec(encode, decode) && CleanData(line)
    ensures var later := Drained(decode, encode(more), Held(event, line));
            Drained(decode, encode(line + "\n" + more), event) ==
            later.(events := Completed(event, line) + later.events)
  {
    var raw := encode(line);
    var bytes := encode(line + "\n" + more);
    assert bytes == raw + [NEWLINE] + encode(more);
    PositionFirst(raw, encode(more));
    assert bytes[..|raw| + 1] == raw + [NEWLINE];
    assert bytes[|raw| + 1..] == encode(more);
    LineClean(decode, raw);
    TrimNothing(line);
  }

  lemma {:induction false} TrimNothing(line: string)
    requires CleanData(line)
    ensures TrimEnd(line, '\r') == line
  {
  }

  /** Fields read back one by one. */
  lemma {:induction false} ReadFields(
    encode: string -> seq<Byte>, decode: seq<Byte> -> string, fields: seq<string>, more: string, event: SseEvent)
    requires Codec(encode, decode) && forall field :: field in fields ==> CleanField(field)
    ensures Drained(decode, encode(Terminated(fields) + more), event) ==
            Drained(decode, encode(more), event.(fields := event.fields + fields))
    decreases |fields|
  {
    hide Codec, Drained;

    if fields == [] {
      assert Terminated(fields) + more == more;
      assert event.fields + fields == event.fields;
    } else {
      assert fields[0] in fields;
      assert Terminated(fields) + more == fields[0] + "\n" + (Terminated(fields[1..]) + more);
      ReadLine(encode, decode, fields[0], Terminated(fields[1..]) + more, event);
      var next := Held(event, fields[0]);
      ReadFields(encode, decode, fields[1..], more, next);
      assert next.fields + fields[1..] == event.fields + fields;
    }
  }

  function Terminated(lines: seq<string>): string {
    if lines == [] then "" else lines[0] + "\n" + Terminated(lines[1..])
  }

  lemma {:induction false} JoinTerminated(lines: seq<string>)
    requires lines != []
    ensures Join(lines) + "\n" == Terminated(lines)
  {
    if |lines| > 1 {
      JoinTerminated(lines[1..]);
    } else {
      assert Terminated(lines[1..]) == "";
    }
  }

  lemma {:induction false} TerminatedConcat(lines: seq<string>, more: seq<string>)
    ensures Terminated(lines + more) == Terminated(lines) + Terminated(more)
  {
    if lines == [] {
      assert lines + more == more;
    } else {
      assert (lines + more)[1..] == lines[1..] + more;
      TerminatedConcat(lines[1..], more);
    }
  }

  /** A printed event as its lines and a blank one. */
  lemma {:induction false} PrintedText(filter: string -> Option<string>, event: SseEvent, more: string)
    requires !Filtered(filter, event).IsEmpty()
    ensures var data := FilteredData(filter, event);
            FilterEvent(filter, event) + more ==
            Terminated(event.fields) + ((if data == [] then "" else "data: " + data[0] + "\n") + ("\n" + more))
  {
    var data := FilteredData(filter, event);
    var last := if data == [] then [] else ["data: " + data[0]];
    JoinTerminated(event.fields + last);
    TerminatedConcat(event.fields, last);
    assert Terminated(last) == if data == [] then "" else "data: " + data[0] + "\n";
    var text := Join(event.fields + last);
    assert text + "\n\n" + more == (text + "\n") + ("\n" + more);
    Assoc(Terminated(event.fields), Terminated(last), "\n" + more);
  }

  /** One printed event, read from a parser that holds nothing. */
  lemma {:induction false} ReadEvent(
    encode: string -> seq<Byte>, decode: seq<Byte> -> string, filter: string -> Option<string>,
    event: SseEvent, more: string)
    requires Codec(encode, decode) && OneLine(filter) && Clean(event)
    ensures var meant := Filtered(filter, event);
            var later := Drained(decode, encode(more), NOTHING);
            Drained(decode, encode(FilterEvent(filter, event) + more), NOTHING) ==
            later.(events := (if meant.IsEmpty() then [] else [meant]) + later.events)
  {
    hide Codec, FilterEvent, Drained, Terminated, Join;
    var meant := Filtered(filter, event);
    var data := meant.data;

    if meant.IsEmpty() {
      PrintsNothing(filter, event, more);
    } else {
      var ending := "\n" + more;
      var line := if data == [] then "" else "data: " + data[0] + "\n";
      PrintedText(filter, event, more);
      ReadFields(encode, decode, event.fields, line + ending, NOTHING);
      assert NOTHING.fields + event.fields == event.fields;

      if data == [] {
        assert line + ending == ending;
      } else {
        assert line + ending == "data: " + data[0] + "\n" + ending;
        ReadData(encode, decode, data[0], ending, SseEvent(event.fields, []));
      }

      assert ending == "" + "\n" + more;
      ReadLine(encode, decode, "", more, meant);
    }
  }

  lemma {:induction false} PrintsNothing(filter: string -> Option<string>, event: SseEvent, more: string)
    requires Filtered(filter, event).IsEmpty()
    ensures FilterEvent(filter, event) + more == more
  {
    assert event.fields + [] == [];
  }

  lemma {:induction false} ReadData(
    encode: string -> seq<Byte>, decode: seq<Byte> -> string, json: string, more: string, event: SseEvent)
    requires Codec(encode, decode) && CleanData(json) && event.data == []
    ensures Drained(decode, encode("data: " + json + "\n" + more), event) ==
            Drained(decode, encode(more), event.(data := [json]))
  {
    hide Codec, Drained, LineText, Held, Completed;
    var line := LineText(Data(json, true));
    DataText(json);
    LineTextClean(Data(json, true));
    HeldExactly(event, Data(json, true), false);
    ReadLine(encode, decode, line, more, event);
    NoEvents(Drained(decode, encode(more), Held(event, line)));
  }

  lemma {:induction false} DataText(json: string)
    ensures LineText(Data(json, true)) == "data: " + json
    ensures forall event: SseEvent | event.data == [] ::
              Joined(event, Says([Ended(Data(json, true), false)])) == event.(data := [json])
  {
    SaysOne(Ended(Data(json, true), false));
    assert "data:" + " " + json == "data: " + json;
    assert [] + [json] == [json];
    assert forall event: SseEvent :: event.fields + [] == event.fields;
  }

  lemma {:induction false} ReadPrinted(
    encode: string -> seq<Byte>, decode: seq<Byte> -> string, filter: string -> Option<string>, events: seq<SseEvent>)
    requires Codec(encode, decode) && OneLine(filter)
    requires forall event :: event in events ==> Clean(event)
    ensures Drained(decode, encode(Printed(filter, events)), NOTHING) ==
            Parsed([], NOTHING, AllFiltered(filter, events))
  {
    if events == [] {
      assert encode("" + "") == encode("") + encode("");
      assert encode("") == [];
    } else {
      ReadEvent(encode, decode, filter, events[0], Printed(filter, events[1..]));
      ReadPrinted(encode, decode, filter, events[1..]);
    }
  }

  // ----- what comes out of the printer

  /** The lines of a text. */
  function SplitLines(text: string): (lines: seq<string>)
    ensures lines != []
  {
    if text == "" then [""]
    else
      var rest := SplitLines(text[1..]);
      if text[0] == '\n' then [""] + rest else [[text[0]] + rest[0]] + rest[1..]
  }

  lemma {:induction false} SplitFirst(line: string, more: string)
    requires '\n' !in line
    ensures SplitLines(line + "\n" + more) == [line] + SplitLines(more)
    ensures SplitLines(line) == [line]
  {
    var text := line + "\n" + more;

    if line == "" {
      assert text[1..] == more;
    } else {
      SplitFirst(line[1..], more);
      assert text[1..] == line[1..] + "\n" + more;
      assert line == [line[0]] + line[1..];
    }
  }

  lemma {:induction false} JoinSplits(lines: seq<string>)
    requires lines != [] && forall line :: line in lines ==> '\n' !in line
    ensures SplitLines(Join(lines)) == lines
  {
    hide SplitLines;
    assert lines[0] in lines;
    SplitFirst(lines[0], Join(lines[1..]));

    if |lines| == 1 {
      assert lines == [lines[0]];
    } else {
      assert Join(lines) == lines[0] + "\n" + Join(lines[1..]);
      assert forall line :: line in lines[1..] ==> line in lines;
      JoinSplits(lines[1..]);
      assert lines == [lines[0]] + lines[1..];
    }
  }

  /** The same fields; and for data, what the filter makes of the text whose lines the data are. */
  ghost predicate IsFiltered(filter: string -> Option<string>, event: SseEvent, out: SseEvent) {
    && out.fields == event.fields
    && (event.data == [] ==> out.data == [])
    && (event.data != [] ==>
          exists text :: SplitLines(text) == event.data
                         && out.data == match filter(text) case None => [] case Some(json) => [json])
  }

  /** Those that hold something. */
  function NotEmpty(events: seq<SseEvent>): seq<SseEvent> {
    if events == [] then []
    else (if events[0].fields == [] && events[0].data == [] then [] else [events[0]]) + NotEmpty(events[1..])
  }

  lemma {:induction false} FilteredOne(filter: string -> Option<string>, event: SseEvent)
    requires Clean(event)
    ensures IsFiltered(filter, event, Filtered(filter, event))
  {
    if event.data != [] {
      JoinSplits(event.data);
    }
  }

  lemma {:induction false} FilteredAll(filter: string -> Option<string>, events: seq<SseEvent>)
    returns (meant: seq<SseEvent>)
    requires forall event :: event in events ==> Clean(event)
    ensures |meant| == |events| && forall i :: 0 <= i < |events| ==> IsFiltered(filter, events[i], meant[i])
    ensures AllFiltered(filter, events) == NotEmpty(meant)
  {
    hide IsFiltered, Filtered, Clean;
    meant := [];

    if events != [] {
      assert events[0] in events;
      var rest := FilteredAll(filter, events[1..]);
      FilteredOne(filter, events[0]);
      meant := [Filtered(filter, events[0])] + rest;
      assert meant[1..] == rest;
    }
  }

  /** Parse a stream, filter and print its events, and parse what was printed: the same events
      come back in order, with their fields unchanged and their data as the filtered line. An
      event that had only data that isn't JSON disappears. */
  lemma {:induction false} PrintedParses(
    encode: string -> seq<Byte>, decode: seq<Byte> -> string, filter: string -> Option<string>, bytes: seq<Byte>)
    requires Codec(encode, decode) && OneLine(filter)
    ensures var events := EventsOf(decode, bytes);
            exists meant: seq<SseEvent> ::
              && |meant| == |events| && (forall i :: 0 <= i < |events| ==> IsFiltered(filter, events[i], meant[i]))
              && EventsOf(decode, encode(Printed(filter, events))) == NotEmpty(meant)
  {
    hide Printed, AllFiltered, NotEmpty, IsFiltered;
    EventsClean(decode, bytes);
    var events := EventsOf(decode, bytes);
    ReadPrinted(encode, decode, filter, events);
    assert encode("" + "") == encode("") + encode("");
    assert encode("") == [] && decode([]) == "";
    var meant := FilteredAll(filter, events);
    assert AllFiltered(filter, events) + [] == AllFiltered(filter, events);
  }

  // ----- what a stream says that somebody else wrote

  /** A line of an event: a field, or data after "data:" or "data: ". */
  datatype Line = Field(text: string) | Data(data: string, spaced: bool)

  /** A line and whether a carriage return stands before its newline. */
  datatype Ended = Ended(line: Line, returned: bool)

  /** Lines and the blank line that ends the event. */
  datatype Block = Block(lines: seq<Ended>, returned: bool)

  /** Without the space, the data can't begin with one. */
  predicate Proper(line: Line) {
    match line
    case Field(text) => CleanField(text)
    case Data(data, spaced) => CleanData(data) && (spaced || data == "" || data[0] != ' ')
  }

  function LineText(line: Line): string {
    match line
    case Field(text) => text
    case Data(data, spaced) => "data:" + (if spaced then " " else "") + data
  }

  function Ending(returned: bool): string {
    if returned then "\r\n" else "\n"
  }

  function LinesText(lines: seq<Ended>): string {
    if lines == [] then "" else LineText(lines[0].line) + Ending(lines[0].returned) + LinesText(lines[1..])
  }

  function BlocksText(blocks: seq<Block>): string {
    if blocks == [] then ""
    else LinesText(blocks[0].lines) + Ending(blocks[0].returned) + BlocksText(blocks[1..])
  }

  /** The fields and the data of the lines, each in order. */
  function Says(lines: seq<Ended>): SseEvent {
    if lines == [] then NOTHING
    else
      var rest := Says(lines[1..]);
      match lines[0].line
      case Field(text) => rest.(fields := [text] + rest.fields)
      case Data(data, _) => rest.(data := [data] + rest.data)
  }

  /** A block with no line says nothing. */
  function SaysAll(blocks: seq<Block>): seq<SseEvent> {
    if blocks == [] then []
    else (if blocks[0].lines == [] then [] else [Says(blocks[0].lines)]) + SaysAll(blocks[1..])
  }

  ghost predicate AllProper(lines: seq<Ended>) {
    forall i :: 0 <= i < |lines| ==> Proper(lines[i].line)
  }

  function Joined(event: SseEvent, more: SseEvent): SseEvent {
    SseEvent(event.fields + more.fields, event.data + more.data)
  }

  lemma {:induction false} LineTextClean(line: Line)
    requires Proper(line)
    ensures CleanData(LineText(line)) && LineText(line) != ""
  {
    if line.Data? {
      var text := LineText(line);
      assert text == ("data:" + if line.spaced then " " else "") + line.data;
      assert line.data != "" ==> text[|text| - 1] == line.data[|line.data| - 1];
    }
  }

  lemma {:induction false} HeldExactly(event: SseEvent, line: Line, returned: bool)
    requires Proper(line)
    ensures Held(event, LineText(line)) == Joined(event, Says([Ended(line, returned)]))
    ensures Completed(event, LineText(line)) == []
  {
    LineTextClean(line);
    SaysOne(Ended(line, returned));

    match line {
      case Field(text) =>
        assert event.data + [] == event.data;
      case Data(data, spaced) =>
        HeldData(event, data, spaced);
        assert event.fields + [] == event.fields;
    }
  }

  lemma {:induction false} HeldData(event: SseEvent, data: string, spaced: bool)
    requires Proper(Data(data, spaced))
    ensures Held(event, LineText(Data(data, spaced))) == event.(data := event.data + [data])
  {
    var after := (if spaced then " " else "") + data;
    var text := "data:" + after;
    assert LineText(Data(data, spaced)) == text;
    assert text[5..] == after && "data:" <= text && text != "";

    if spaced {
      assert after[1..] == data;
    } else {
      assert after == data;
    }
  }

  lemma {:induction false} TrimReturn(line: string)
    requires CleanData(line)
    ensures TrimEnd(line + "\r", '\r') == line
  {
    assert (line + "\r")[..|line|] == line;
  }

  /** A line ended in either way reads as itself. */
  lemma {:induction false} ReadEnded(
    encode: string -> seq<Byte>, decode: seq<Byte> -> string, line: string, returned: bool, more: string,
    event: SseEvent)
    requires Codec(encode, decode) && CleanData(line)
    ensures var later := Drained(decode, encode(more), Held(event, line));
            Drained(decode, encode(line + Ending(returned) + more), event) ==
            later.(events := Completed(event, line) + later.events)
  {
    if returned {
      var whole := line + "\r";
      var raw := encode(whole);
      assert line + Ending(returned) + more == whole + "\n" + more;
      var bytes := encode(whole + "\n" + more);
      assert bytes == raw + [NEWLINE] + encode(more);
      PositionFirst(raw, encode(more));
      assert bytes[..|raw| + 1] == raw + [NEWLINE];
      assert bytes[|raw| + 1..] == encode(more);
      LineClean(decode, raw);
      TrimReturn(line);
    } else {
      ReadLine(encode, decode, line, more, event);
    }
  }

  lemma {:induction false} JoinedAssoc(a: SseEvent, b: SseEvent, c: SseEvent)
    ensures Joined(Joined(a, b), c) == Joined(a, Joined(b, c))
    ensures Joined(a, NOTHING) == a && Joined(NOTHING, a) == a
  {
    assert a.fields + b.fields + c.fields == a.fields + (b.fields + c.fields);
    assert a.data + b.data + c.data == a.data + (b.data + c.data);
  }

  lemma {:induction false} SaysFirst(lines: seq<Ended>)
    requires lines != []
    ensures Says(lines) == Joined(Says([lines[0]]), Says(lines[1..]))
  {
    var rest := Says(lines[1..]);
    SaysOne(lines[0]);

    match lines[0].line {
      case Field(text) =>
        assert [] + rest.data == rest.data;
        assert Says(lines) == rest.(fields := [text] + rest.fields);
      case Data(data, _) =>
        assert [] + rest.fields == rest.fields;
        assert Says(lines) == rest.(data := [data] + rest.data);
    }
  }

  lemma {:induction false} SaysOne(line: Ended)
    ensures Says([line]) ==
            match line.line case Field(text) => SseEvent([text], []) case Data(data, _) => SseEvent([], [data])
  {
    assert [line][1..] == [];
    assert [line][0] == line;
  }

  lemma {:induction false} ReadLines(
    encode: string -> seq<Byte>, decode: seq<Byte> -> string, lines: seq<Ended>, more: string, event: SseEvent)
    requires Codec(encode, decode) && AllProper(lines)
    ensures Drained(decode, encode(LinesText(lines) + more), event) ==
            Drained(decode, encode(more), Joined(event, Says(lines)))
    decreases |lines|
  {
    hide Codec, Drained, Says, Joined, LineText, Ending, Held, Completed, Proper;

    if lines == [] {
      NoLines(event);
      assert LinesText(lines) + more == more;
    } else {
      var Ended(line, returned) := lines[0];
      var rest := LinesText(lines[1..]) + more;
      var next := Held(event, LineText(line));
      assert LinesText(lines) + more == LineText(line) + Ending(returned) + rest;
      LineTextClean(line);
      ReadEnded(encode, decode, LineText(line), returned, rest, event);
      HeldExactly(event, line, returned);
      ReadLines(encode, decode, lines[1..], more, next);
      SaysFirst(lines);
      JoinedAssoc(event, Says([lines[0]]), Says(lines[1..]));
      NoEvents(Drained(decode, encode(rest), next));
    }
  }

  lemma {:induction false} NoLines(event: SseEvent)
    ensures Joined(event, Says([])) == event
  {
  }

  lemma {:induction false} NoEvents(all: Parsed)
    ensures all.(events := [] + all.events) == all
  {
    assert [] + all.events == all.events;
  }

  lemma {:induction false} SaysSomething(lines: seq<Ended>)
    ensures Says(lines).IsEmpty() <==> lines == []
  {
  }

  lemma {:induction false} ReadBlocks(
    encode: string -> seq<Byte>, decode: seq<Byte> -> string, blocks: seq<Block>, more: string)
    requires Codec(encode, decode) && forall i :: 0 <= i < |blocks| ==> AllProper(blocks[i].lines)
    ensures var later := Drained(decode, encode(more), NOTHING);
            Drained(decode, encode(BlocksText(blocks) + more), NOTHING) ==
            later.(events := SaysAll(blocks) + later.events)
    decreases |blocks|
  {
    hide Codec, Drained, Says, LinesText, Ending, AllProper;
    var later := Drained(decode, encode(more), NOTHING);

    if blocks == [] {
      assert BlocksText(blocks) + more == more;
      NoEvents(later);
    } else {
      var Block(lines, returned) := blocks[0];
      var rest := BlocksText(blocks[1..]) + more;
      var event := Says(lines);
      assert BlocksText(blocks) + more == LinesText(lines) + (Ending(returned) + rest);
      assert "" + Ending(returned) + rest == Ending(returned) + rest;
      ReadLines(encode, decode, lines, Ending(returned) + rest, NOTHING);
      JoinedAssoc(event, NOTHING, NOTHING);
      ReadEnded(encode, decode, "", returned, rest, event);
      ReadBlocks(encode, decode, blocks[1..], more);
      SaysSomething(lines);
      Assoc(Completed(event, ""), SaysAll(blocks[1..]), later.events);
    }
  }

  lemma {:induction false} ReadLast(
    encode: string -> seq<Byte>, decode: seq<Byte> -> string, last: Option<Line>, event: SseEvent)
    requires Codec(encode, decode) && (last.Some? ==> Proper(last.value))
    ensures var text := if last.Some? then LineText(last.value) else "";
            var meant := if last.Some? then Joined(event, Says([Ended(last.value, false)])) else event;
            var all := Drained(decode, encode(text), event);
            && all.events == [] && all.event == event
            && Finished(decode, all.rest, event) == if meant.IsEmpty() then [] else [meant]
  {
    var text := if last.Some? then LineText(last.value) else "";
    assert encode("" + "") == encode("") + encode("");
    assert encode("") == [];
    assert decode(encode(text)) == text;

    if last.Some? {
      LineTextClean(last.value);
      HeldExactly(event, last.value, false);
      TrimNothing(text);
    }

    assert NEWLINE !in encode(text);
    assert Position(encode(text)).None?;
  }

  /** Whatever well-written event stream comes in, the events are exactly what its lines say: each block
      of lines up to a blank one is one event with its fields and its data in order, the one space
      after "data:" left out and nothing else; and lines without a blank one after them, the last of
      them perhaps without its newline, are one more event. */
  lemma {:induction false} WrittenParses(
    encode: string -> seq<Byte>, decode: seq<Byte> -> string, blocks: seq<Block>, lines: seq<Ended>, last: Option<Line>)
    requires Codec(encode, decode)
    requires forall i :: 0 <= i < |blocks| ==> AllProper(blocks[i].lines)
    requires AllProper(lines) && (last.Some? ==> Proper(last.value))
    ensures var text := BlocksText(blocks) + (LinesText(lines) + if last.Some? then LineText(last.value) else "");
            var unfinished := lines + if last.Some? then [Ended(last.value, false)] else [];
            EventsOf(decode, encode(text)) ==
            SaysAll(blocks) + if unfinished == [] then [] else [Says(unfinished)]
  {
    hide Codec, Drained, Says, LinesText, BlocksText, LineText, Proper, Finished;
    var partial := if last.Some? then LineText(last.value) else "";
    ReadBlocks(encode, decode, blocks, LinesText(lines) + partial);
    ReadLines(encode, decode, lines, partial, NOTHING);
    JoinedAssoc(Says(lines), NOTHING, NOTHING);
    ReadLast(encode, decode, last, Says(lines));
    assert SaysAll(blocks) + [] == SaysAll(blocks);

    if last.Some? {
      SaysMore(lines, Ended(last.value, false));
      SaysSomething(lines + [Ended(last.value, false)]);
    } else {
      assert lines + [] == lines;
      SaysSomething(lines);
    }
  }

  lemma {:induction false} SaysMore(lines: seq<Ended>, last: Ended)
    ensures Says(lines + [last]) == Joined(Says(lines), Says([last]))
  {
    hide Says, Joined;

    if lines == [] {
      NoLines(Says([last]));
      JoinedAssoc(Says([last]), NOTHING, NOTHING);
      assert lines + [last] == [last];
      SaysNothing();
    } else {
      assert (lines + [last])[1..] == lines[1..] + [last];
      SaysFirst(lines + [last]);
      SaysFirst(lines);
      SaysMore(lines[1..], last);
      JoinedAssoc(Says([lines[0]]), Says(lines[1..]), Says([last]));
    }
  }

  lemma {:induction false} SaysNothing()
    ensures Says([]) == NOTHING
  {
  }
}
