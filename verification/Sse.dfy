/**
  The incremental event-stream parser of the Node client and the batch parser of the Python client.
  Both implement part of section 9.2.6 of the WHATWG HTML Living Standard.

  Chunks are sequences of characters: the decoding of bytes into characters is not part of this model.
  `JSON.parse` is a parameter that says of each text whether it is JSON and, if it is an object, what
  its `type` field holds ("" when absent).
*/
module Sse {
  import opened Wrappers
  import opened Text

  datatype Fields = Fields(event: string, data: string, id: Option<string>)

  const NO_FIELDS := Fields("", "", None)

  datatype JsonValue = NotJson | Scalar | Object(typ: string)

  type JsonParse = string -> JsonValue

  datatype Payload = Parsed(text: string) | Plain(text: string)

  datatype HaiEvent = HaiEvent(eventType: string, data: Payload, id: Option<string>, raw: string)

  /** The characters that `str.strip` removes. */
  predicate PySpace(c: char) {
    var n := c as int;
    || (JsSpace(c) && n != 0xFEFF) || 0x1C <= n <= 0x1F || n == 0x85
  }

  /** The 29 characters for which `str.isspace` holds, and no others. */
  lemma PySpaces(c: char)
    ensures PySpace(c) == (c as int in {
              0x9, 0xA, 0xB, 0xC, 0xD, 0x1C, 0x1D, 0x1E, 0x1F, 0x20, 0x85, 0xA0, 0x1680, 0x2000, 0x2001, 0x2002, 0x2003,
              0x2004, 0x2005, 0x2006, 0x2007, 0x2008, 0x2009, 0x200A, 0x2028, 0x2029, 0x202F, 0x205F, 0x3000})
  {
  }

  // ---- parseSseStream ----

  function BuildEvent(json: JsonParse, fields: Fields): Option<HaiEvent> {
    if fields.event == "" && fields.data == "" then None
    else
      var parsed := json(fields.data);
      var fallback := if parsed.Object? && parsed.typ != "" then parsed.typ else "message";
      Some(HaiEvent(if fields.event != "" then fields.event else fallback,
                    if parsed.NotJson? then Plain(fields.data) else Parsed(fields.data),
                    fields.id, fields.data))
  }

  predicate Blank(line: string) {
    line == "" || line == "\r"
  }

  function Value(line: string, prefix: string): string
    requires prefix <= line
  {
    Trim(line[|prefix|..], JsSpace)
  }

  /** The parser's state between two lines: the open block and what has been yielded. */
  datatype Run = Run(fields: Fields, events: seq<HaiEvent>)

  const START := Run(NO_FIELDS, [])

  function Emit(json: JsonParse, fields: Fields): seq<HaiEvent> {
    if fields.data == "" then []
    else match BuildEvent(json, fields)
      case None => []
      case Some(e) => [e]
  }

  function Step(json: JsonParse, r: Run, line: string): Run {
    if "event:" <= line then r.(fields := r.fields.(event := Value(line, "event:")))
    else if "data:" <= line then
      r.(fields := r.fields.(data := r.fields.data + (if r.fields.data != "" then "\n" else "") + Value(line, "data:")))
    else if "id:" <= line then r.(fields := r.fields.(id := Some(Value(line, "id:"))))
    else if Blank(line) then Run(NO_FIELDS, r.events + Emit(json, r.fields))
    else r
  }

  function Fold(json: JsonParse, r: Run, lines: seq<string>): Run {
    if lines == [] then r else Step(json, Fold(json, r, lines[..|lines| - 1]), lines[|lines| - 1])
  }

  /** The events in a text that arrives in one piece; a last line without a newline is dropped. */
  function Parse(json: JsonParse, text: string): seq<HaiEvent> {
    var r := Fold(json, START, Complete(text));
    r.events + Emit(json, r.fields)
  }

  lemma FoldNone(json: JsonParse, r: Run)
    ensures Fold(json, r, []) == r
  {
  }

  lemma FoldSnoc(json: JsonParse, r: Run, lines: seq<string>, line: string)
    ensures Fold(json, r, lines + [line]) == Step(json, Fold(json, r, lines), line)
  {
    assert (lines + [line])[..|lines|] == lines;
  }

  lemma {:induction false} FoldAppend(json: JsonParse, r: Run, a: seq<string>, b: seq<string>)
    ensures Fold(json, r, a + b) == Fold(json, Fold(json, r, a), b)
  {
    if b == [] {
      assert a + b == a;
    } else {
      var init := b[..|b| - 1];
      assert a + b == (a + init) + [b[|b| - 1]] && b == init + [b[|b| - 1]];
      FoldSnoc(json, r, a + init, b[|b| - 1]);
      FoldAppend(json, r, a, init);
    }
  }

  /** Earlier events do not influence later ones. */
  lemma {:induction false} FoldFrame(json: JsonParse, r: Run, lines: seq<string>)
    ensures var s := Fold(json, Run(r.fields, []), lines);
            Fold(json, r, lines) == Run(s.fields, r.events + s.events)
  {
    if lines == [] {
      assert r.events + [] == r.events;
    } else {
      var init := lines[..|lines| - 1];
      FoldFrame(json, r, init);
      var s := Fold(json, Run(r.fields, []), init);
      var last := lines[|lines| - 1];
      assert Step(json, Run(s.fields, r.events + s.events), last)
          == Run(Step(json, s, last).fields, r.events + Step(json, s, last).events) by {
        assert r.events + s.events + Emit(json, s.fields) == r.events + (s.events + Emit(json, s.fields));
      }
    }
  }

  /**
    The generator, over the chunks the reader delivers. Its events are those of the concatenated text,
    so cutting the same text at other places, even between CR and LF, yields the same events.
  */
  method ParseSseStream(json: JsonParse, chunks: seq<string>) returns (events: seq<HaiEvent>)
    ensures events == Parse(json, Flatten(chunks))
  {
    hide Split, Fold, Emit, BuildEvent;
    var buffer, fields := "", NO_FIELDS;
    events := [];
    SplitLine("", "");
    FoldNone(json, START);
    assert Split(Flatten(chunks[..0])) == [""];
    for c := 0 to |chunks|
      invariant buffer == Partial(Flatten(chunks[..c]))
      invariant Run(fields, events) == Fold(json, START, Complete(Flatten(chunks[..c])))
    {
      ghost var seen := Flatten(chunks[..c]);
      assert chunks[..c + 1] == chunks[..c] + [chunks[c]];
      FlattenSnoc(chunks[..c], chunks[c]);
      SplitChunk(seen, chunks[c]);
      buffer := buffer + chunks[c];
      var lines := Split(buffer);
      buffer, lines := lines[|lines| - 1], lines[..|lines| - 1];
      FoldAppend(json, START, Complete(seen), lines);
      fields, events := FeedLines(json, lines, fields, events);
    }
    assert chunks[..|chunks|] == chunks;
    events := Flush(json, fields, events);
  }

  /** The end of a block: an event, if it has any data. */
  method Flush(json: JsonParse, fields: Fields, before: seq<HaiEvent>) returns (events: seq<HaiEvent>)
    ensures events == before + Emit(json, fields)
  {
    events := before;
    if fields.data != "" {
      var event := BuildEvent(json, fields);
      if event.Some? { events := events + [event.value]; }
    }
  }

  /** The inner loop, over the complete lines of one buffer. */
  method FeedLines(json: JsonParse, lines: seq<string>, before: Fields, yielded: seq<HaiEvent>)
    returns (fields: Fields, events: seq<HaiEvent>)
    ensures Run(fields, events) == Fold(json, Run(before, yielded), lines)
  {
    hide Fold, Emit;
    fields, events := before, yielded;
    FoldNone(json, Run(before, yielded));
    for i := 0 to |lines|
      invariant Run(fields, events) == Fold(json, Run(before, yielded), lines[..i])
    {
      assert lines[..i + 1] == lines[..i] + [lines[i]];
      FoldSnoc(json, Run(before, yielded), lines[..i], lines[i]);
      var line := lines[i];
      if "event:" <= line {
        fields := fields.(event := Value(line, "event:"));
      } else if "data:" <= line {
        fields := fields.(data := fields.data + (if fields.data != "" then "\n" else "") + Value(line, "data:"));
      } else if "id:" <= line {
        fields := fields.(id := Some(Value(line, "id:")));
      } else if line == "" || line == "\r" {
        events := Flush(json, fields, events);
        fields := NO_FIELDS;
      }
    }
    assert lines[..|lines|] == lines;
  }

  // ---- Blank lines separate independent parts ----

  /** The text stops right after a blank line. */
  predicate EndsBlank(text: string) {
    Complete(text) != [] && Blank(Complete(text)[|Complete(text)| - 1]) && Partial(text) == ""
  }

  lemma NothingToEmit(json: JsonParse)
    ensures Emit(json, NO_FIELDS) == []
  {
  }

  lemma BlankLineSeparates(json: JsonParse, text: string, more: string)
    requires EndsBlank(text)
    ensures Parse(json, text + more) == Parse(json, text) + Parse(json, more)
  {
    hide Split, Fold, Emit;
    SplitChunk(text, more);
    assert "" + more == more;
    var lines := Complete(text);
    FoldAppend(json, START, lines, Complete(more));
    var r := Fold(json, START, lines);
    FoldSnoc(json, START, lines[..|lines| - 1], lines[|lines| - 1]);
    assert lines == lines[..|lines| - 1] + [lines[|lines| - 1]];
    assert r.fields == NO_FIELDS;
    assert Emit(json, r.fields) == [] by { NothingToEmit(json); }
    assert r.events + [] == r.events;
    FoldFrame(json, r, Complete(more));
  }

  // ---- What one block means, without an accumulator ----

  function Values(lines: seq<string>, prefix: string): seq<string> {
    if lines == [] then []
    else
      var last := lines[|lines| - 1];
      Values(lines[..|lines| - 1], prefix) + if prefix <= last then [Value(last, prefix)] else []
  }

  function LastOf(values: seq<string>): Option<string> {
    if values == [] then None else Some(values[|values| - 1])
  }

  function GetOr(o: Option<string>, default: string): string {
    if o.Some? then o.value else default
  }

  function DropEmpty(parts: seq<string>): seq<string> {
    if parts != [] && parts[0] == "" then DropEmpty(parts[1..]) else parts
  }

  /** The last `event:` and `id:` count, and the `data:` values are joined once the leading empty ones are gone. */
  function BlockFields(block: seq<string>): Fields {
    Fields(GetOr(LastOf(Values(block, "event:")), ""),
           Join(DropEmpty(Values(block, "data:")), "\n"),
           LastOf(Values(block, "id:")))
  }

  predicate NoBlank(lines: seq<string>) {
    forall l <- lines :: !Blank(l)
  }

  lemma {:induction false} DropEmptySnoc(parts: seq<string>, p: string)
    ensures DropEmpty(parts + [p]) == if DropEmpty(parts) == [] then (if p == "" then [] else [p])
                                      else DropEmpty(parts) + [p]
    ensures DropEmpty(parts) == [] || DropEmpty(parts)[0] != ""
  {
    if parts == [] {
      assert (parts + [p])[1..] == [];
    } else {
      assert (parts + [p])[1..] == parts[1..] + [p];
      DropEmptySnoc(parts[1..], p);
    }
  }

  lemma OnePrefix(line: string)
    ensures "event:" <= line ==> line[0] == 'e'
    ensures "data:" <= line ==> line[0] == 'd'
    ensures "id:" <= line ==> line[0] == 'i'
  {
  }

  lemma {:induction false} FoldBlock(json: JsonParse, block: seq<string>)
    requires NoBlank(block)
    ensures Fold(json, START, block) == Run(BlockFields(block), [])
  {
    if block != [] {
      var init, last := block[..|block| - 1], block[|block| - 1];
      FoldBlock(json, init);
      OnePrefix(last);
      assert forall p, v :: LastOf(Values(init, p) + [v]) == Some(v);
      assert Values(init, "event:") + [] == Values(init, "event:");
      assert Values(init, "data:") + [] == Values(init, "data:");
      assert Values(init, "id:") + [] == Values(init, "id:");
      if "data:" <= last {
        var parts := Values(init, "data:");
        DropEmptySnoc(parts, Value(last, "data:"));
        JoinSnoc(DropEmpty(parts), "\n", Value(last, "data:"));
        JoinEmpty(DropEmpty(parts), "\n");
      }
    }
  }

  /** The lines between blank lines; the last block is the one still open at the end. */
  function Blocks(lines: seq<string>): (blocks: seq<seq<string>>)
    ensures |blocks| > 0
  {
    if lines == [] then [[]]
    else
      var init, last := Blocks(lines[..|lines| - 1]), lines[|lines| - 1];
      var open := init[|init| - 1];
      if Blank(last) then init + [[]] else init[..|init| - 1] + [open + [last]]
  }

  function BlockEvents(json: JsonParse, blocks: seq<seq<string>>): seq<HaiEvent> {
    if blocks == [] then []
    else BlockEvents(json, blocks[..|blocks| - 1]) + Emit(json, BlockFields(blocks[|blocks| - 1]))
  }

  lemma BlockEventsSnoc(json: JsonParse, blocks: seq<seq<string>>, block: seq<string>)
    ensures BlockEvents(json, blocks + [block]) == BlockEvents(json, blocks) + Emit(json, BlockFields(block))
  {
    assert (blocks + [block])[..|blocks|] == blocks;
  }

  lemma StepInBlock(json: JsonParse, r: Run, line: string)
    ensures Blank(line) ==> Step(json, r, line) == Run(NO_FIELDS, r.events + Emit(json, r.fields))
    ensures !Blank(line) ==> Step(json, r, line) == Run(Step(json, Run(r.fields, []), line).fields, r.events)
  {
    OnePrefix(line);
  }

  lemma {:induction false} FoldBlocks(json: JsonParse, lines: seq<string>)
    ensures var blocks := Blocks(lines);
            var open := blocks[|blocks| - 1];
            && NoBlank(open)
            && Fold(json, START, lines) == Run(BlockFields(open), BlockEvents(json, blocks[..|blocks| - 1]))
  {
    if lines == [] {
      FoldBlock(json, []);
    } else {
      var init, last := Blocks(lines[..|lines| - 1]), lines[|lines| - 1];
      FoldBlocks(json, lines[..|lines| - 1]);
      StepInBlock(json, Fold(json, START, lines[..|lines| - 1]), last);
      hide Step, Emit, BlockFields;
      var open, closed := init[|init| - 1], init[..|init| - 1];
      assert init == closed + [open];
      if Blank(last) {
        BlockEventsSnoc(json, closed, open);
        FoldBlock(json, []);
        assert (init + [[]])[..|init|] == init;
      } else {
        FoldBlock(json, open);
        FoldBlock(json, open + [last]);
        FoldSnoc(json, START, open, last);
        assert (closed + [open + [last]])[..|closed|] == closed;
      }
    }
  }

  /** The accumulating parser reports, block by block, what each block says on its own. */
  lemma ParseIsBlockwise(json: JsonParse, text: string)
    ensures Parse(json, text) == BlockEvents(json, Blocks(Complete(text)))
  {
    FoldBlocks(json, Complete(text));
    var blocks := Blocks(Complete(text));
    assert blocks == blocks[..|blocks| - 1] + [blocks[|blocks| - 1]];
    BlockEventsSnoc(json, blocks[..|blocks| - 1], blocks[|blocks| - 1]);
  }

  /** The last line that begins with the prefix decides, whatever else the block holds. */
  lemma {:induction false} LastLineCounts(lines: seq<string>, prefix: string, i: nat)
    requires i < |lines| && prefix <= lines[i] && forall k | i < k < |lines| :: !(prefix <= lines[k])
    ensures LastOf(Values(lines, prefix)) == Some(Trim(lines[i][|prefix|..], JsSpace))
  {
    hide Trim;
    if i < |lines| - 1 {
      LastLineCounts(lines[..|lines| - 1], prefix, i);
      assert Values(lines[..|lines| - 1], prefix) + [] == Values(lines[..|lines| - 1], prefix);
    }
  }

  lemma {:induction false} NoLineNoValue(lines: seq<string>, prefix: string)
    requires forall k | 0 <= k < |lines| :: !(prefix <= lines[k])
    ensures Values(lines, prefix) == []
  {
    if lines != [] { NoLineNoValue(lines[..|lines| - 1], prefix); }
  }

  // ---- LF and CRLF ----

  function Crlf(text: string): string {
    if text == "" then ""
    else (if text[0] == '\n' then "\r\n" else [text[0]]) + Crlf(text[1..])
  }

  function AddCr(lines: seq<string>): seq<string> {
    seq(|lines|, k requires 0 <= k < |lines| => if k < |lines| - 1 then lines[k] + "\r" else lines[k])
  }

  lemma AddCrNewLine(lines: seq<string>)
    requires |lines| > 0
    ensures AddCr([""] + lines) == ["\r"] + AddCr(lines)
  {
    var longer := [""] + lines;
    assert "" + "\r" == "\r";
    assert forall k | 0 < k < |longer| :: longer[k] == lines[k - 1];
  }

  lemma AddCrSameLine(c: char, lines: seq<string>)
    requires |lines| > 0
    ensures AddCr([[c] + lines[0]] + lines[1..]) == [[c] + AddCr(lines)[0]] + AddCr(lines)[1..]
  {
    var longer := [[c] + lines[0]] + lines[1..];
    assert forall k | 0 < k < |longer| :: longer[k] == lines[k];
    assert ([c] + lines[0]) + "\r" == [c] + (lines[0] + "\r");
  }

  /** Every line but the open one gets a CR in front of its newline. */
  lemma {:induction false} SplitCrlf(text: string)
    ensures Split(Crlf(text)) == AddCr(Split(text))
  {
    hide Split, AddCr;
    if text == "" {
      SplitLine("", "");
      assert AddCr([""]) == [""] by { AddCrNone(); }
    } else {
      SplitCrlf(text[1..]);
      var c, rest := text[0], Crlf(text[1..]);
      SplitCons(c, text[1..]);
      assert text == [c] + text[1..];
      if c == '\n' {
        AddCrNewLine(Split(text[1..]));
        SplitCons('\n', rest);
        SplitCons('\r', ['\n'] + rest);
        assert Crlf(text) == ['\r'] + (['\n'] + rest);
        assert ['\r'] + "" == "\r";
      } else {
        AddCrSameLine(c, Split(text[1..]));
        SplitCons(c, rest);
      }
    }
  }

  lemma AddCrNone()
    ensures AddCr([""]) == [""]
  {
  }

  lemma ValueCr(line: string, prefix: string)
    requires '\r' !in prefix
    ensures prefix <= line + "\r" <==> prefix <= line
    ensures prefix <= line ==> Value(line + "\r", prefix) == Value(line, prefix)
  {
    if prefix <= line {
      assert (line + "\r")[|prefix|..] == line[|prefix|..] + ['\r'];
      TrimSpaceAtEnd(line[|prefix|..], '\r', JsSpace);
    } else {
      assert (line + "\r")[|line|] == '\r';
    }
  }

  lemma StepCr(json: JsonParse, r: Run, line: string)
    requires line != "\r"
    ensures Step(json, r, line + "\r") == Step(json, r, line)
  {
    ValueCr(line, "event:");
    ValueCr(line, "data:");
    ValueCr(line, "id:");
  }

  lemma {:induction false} FoldCr(json: JsonParse, lines: seq<string>, crs: seq<string>)
    requires |crs| == |lines| && forall k | 0 <= k < |lines| :: crs[k] == lines[k] + "\r" && lines[k] != "\r"
    ensures Fold(json, START, crs) == Fold(json, START, lines)
  {
    if lines != [] {
      var n := |lines| - 1;
      FoldCr(json, lines[..n], crs[..n]);
      StepCr(json, Fold(json, START, lines[..n]), lines[n]);
    }
  }

  /** Turning LF into CRLF changes nothing, unless the text already has a line that is just a CR. */
  lemma CrlfChangesNothing(json: JsonParse, text: string)
    requires "\r" !in Complete(text)
    ensures Parse(json, Crlf(text)) == Parse(json, text)
  {
    SplitCrlf(text);
    FoldCr(json, Complete(text), Complete(Crlf(text)));
  }

  // ---- parse_sse_lines ----

  function PyValue(line: string, prefix: string): string
    requires prefix <= line
  {
    Trim(line[|prefix|..], PySpace)
  }

  function PyValues(lines: seq<string>, prefix: string): seq<string> {
    if lines == [] then []
    else
      var last := lines[|lines| - 1];
      PyValues(lines[..|lines| - 1], prefix) + if prefix <= last then [PyValue(last, prefix)] else []
  }

  /** What `parse_sse_lines` says of a list of lines: the type and the data, or nothing without a data line. */
  function PyReport(lines: seq<string>): Option<(string, string)> {
    var parts := PyValues(lines, "data:");
    if parts == [] then None
    else Some((GetOr(LastOf(PyValues(lines, "event:")), "message"), Join(parts, "\n")))
  }

  method ParseSseLines(lines: seq<string>) returns (r: Option<(string, string)>)
    ensures r == PyReport(lines)
  {
    var eventType := "message";
    var dataParts: seq<string> := [];
    for i := 0 to |lines|
      invariant eventType == GetOr(LastOf(PyValues(lines[..i], "event:")), "message")
      invariant dataParts == PyValues(lines[..i], "data:")
    {
      assert lines[..i + 1][..i] == lines[..i];
      if "event:" <= lines[i] {
        assert !("data:" <= lines[i]) by { assert lines[i][0] == 'e'; }
        eventType := PyValue(lines[i], "event:");
      } else if "data:" <= lines[i] {
        dataParts := dataParts + [PyValue(lines[i], "data:")];
      }
    }
    assert lines[..|lines|] == lines;
    r := if dataParts == [] then None else Some((eventType, Join(dataParts, "\n")));
  }

  /** The two languages trim alike, except that only Python strips 1C-1F and 85 and only JavaScript strips FEFF. */
  predicate SpacesAgree(line: string) {
    forall c <- line :: var n := c as int; !(0x1C <= n <= 0x1F) && n != 0x85 && n != 0xFEFF
  }

  lemma {:induction false} PyValuesAgree(lines: seq<string>, prefix: string)
    requires forall l <- lines :: SpacesAgree(l)
    ensures PyValues(lines, prefix) == Values(lines, prefix)
  {
    if lines != [] {
      PyValuesAgree(lines[..|lines| - 1], prefix);
      var last := lines[|lines| - 1];
      if prefix <= last {
        var v := last[|prefix|..];
        assert SpacesAgree(last) && forall c <- v :: c in last;
        TrimSameSpaces(v, JsSpace, PySpace);
        TrimSameSpaces(TrimLeft(v, JsSpace), JsSpace, PySpace);
      }
    }
  }

  lemma {:induction false} DropEmptyJoins(parts: seq<string>)
    ensures |Join(DropEmpty(parts), "\n")| <= |Join(parts, "\n")|
    ensures Join(DropEmpty(parts), "\n") == Join(parts, "\n") <==> |parts| <= 1 || parts[0] != ""
  {
    if parts != [] && parts[0] == "" {
      DropEmptyJoins(parts[1..]);
    }
  }

  /** Lines as they stand between two blank lines, with nothing that only one of the languages trims. */
  predicate Block(lines: seq<string>) {
    NoBlank(lines) && forall l <- lines :: '\n' !in l && SpacesAgree(l)
  }

  /** What `parseSseStream` yields for these lines: type and raw data of each event. */
  function NodeReport(json: JsonParse, lines: seq<string>): seq<(string, string)> {
    var events := Parse(json, Terminate(lines));
    seq(|events|, i requires 0 <= i < |events| => (events[i].eventType, events[i].raw))
  }

  predicate SameReport(node: seq<(string, string)>, python: Option<(string, string)>) {
    node == if python.Some? then [python.value] else []
  }

  lemma NodeReportIs(json: JsonParse, block: seq<string>)
    requires NoBlank(block) && forall l <- block :: '\n' !in l
    ensures var f := BlockFields(block);
            && (f.data == "" ==> NodeReport(json, block) == [])
            && (f.data != "" ==> NodeReport(json, block) == [(BuildEvent(json, f).value.eventType, f.data)])
  {
    hide Split, Fold;
    SplitTerminated(block, "");
    SplitLine("", "");
    assert Terminate(block) + "" == Terminate(block);
    assert Complete(Terminate(block)) == block;
    FoldBlock(json, block);
  }

  /**
    The event that the lines of one block come to: none if all data lines are empty, and otherwise one whose raw text
    is the joined data, parsed if it is JSON, whose id is the last one, and whose type is the last event line or,
    if that is missing or empty, the type the data names, or "message".
  */
  lemma BlockYields(json: JsonParse, block: seq<string>)
    requires NoBlank(block) && forall l <- block :: '\n' !in l
    ensures var raw := Join(DropEmpty(Values(block, "data:")), "\n");
            var event := LastOf(Values(block, "event:"));
            Parse(json, Terminate(block)) ==
            if raw == "" then []
            else [HaiEvent(
                    eventType := if event.Some? && event.value != "" then event.value
                                 else match json(raw)
                                   case Object(typ) => if typ != "" then typ else "message"
                                   case _ => "message",
                    data := match json(raw) case NotJson => Plain(raw) case _ => Parsed(raw),
                    id := LastOf(Values(block, "id:")),
                    raw := raw)]
  {
    hide Values, Join, DropEmpty, NoBlank, Parse, BuildEvent, Emit, Terminate;
    ParseIsEmit(json, block);
    var f := BlockFields(block);
    EmitIs(json, f);
    var event := LastOf(Values(block, "event:"));
    assert f.event != "" <==> event.Some? && event.value != "";
  }

  lemma ParseIsEmit(json: JsonParse, block: seq<string>)
    requires NoBlank(block) && forall l <- block :: '\n' !in l
    ensures Parse(json, Terminate(block)) == Emit(json, BlockFields(block))
  {
    hide Split, Fold, Values, Join, DropEmpty, Emit;
    SplitTerminated(block, "");
    SplitLine("", "");
    assert Terminate(block) + "" == Terminate(block);
    assert Complete(Terminate(block)) == block;
    FoldBlock(json, block);
    assert [] + Emit(json, BlockFields(block)) == Emit(json, BlockFields(block));
  }

  lemma EmitIs(json: JsonParse, f: Fields)
    ensures f.data == "" ==> Emit(json, f) == []
    ensures f.data != "" ==>
              Emit(json, f) ==
              [HaiEvent(
                 eventType := if f.event != "" then f.event
                              else match json(f.data)
                                case Object(typ) => if typ != "" then typ else "message"
                                case _ => "message",
                 data := match json(f.data) case NotJson => Plain(f.data) case _ => Parsed(f.data),
                 id := f.id, raw := f.data)]
  {
  }

  /** An id and two data lines, without an event line. */
  lemma UnnamedEvent(json: JsonParse, id: string, x: string, y: string)
    requires Plainly(id) && Plainly(x) && Plainly(y) && x != ""
    ensures Parse(json, "id: " + id + "\n" + ("data: " + x + "\n" + ("data: " + y + "\n" + "\n"))) ==
            [HaiEvent(match json(x + "\n" + y)
                      case Object(typ) => if typ != "" then typ else "message"
                      case _ => "message",
                      if json(x + "\n" + y).NotJson? then Plain(x + "\n" + y) else Parsed(x + "\n" + y),
                      Some(id), x + "\n" + y)]
  {
    var block := ["id: " + id, "data: " + x, "data: " + y];
    TerminateFour("id: " + id, "data: " + x, "data: " + y);
    UnnamedValues(id, x, y);
    UnnamedLines(id, x, y);
    var parts := [x, y];
    assert Join(parts, "\n") == x + "\n" + y;
    assert parts[0] != "";
    assert DropEmpty(parts) == parts;
    hide Join, DropEmpty, Values, Terminate, Split, Fold;
    BlockYields(json, block);
    BlankAtTheEnd(json, block);
  }

  lemma TerminateCons(line: string, lines: seq<string>)
    ensures Terminate([line] + lines) == line + "\n" + Terminate(lines)
  {
    assert ([line] + lines)[1..] == lines;
  }

  lemma TerminateFour(a: string, b: string, c: string)
    ensures Terminate([a, b, c] + [""]) == a + "\n" + (b + "\n" + (c + "\n" + "\n"))
  {
    TerminateCons("", []);
    TerminateCons(c, [""]);
    TerminateCons(b, [c, ""]);
    TerminateCons(a, [b, c, ""]);
    assert [a, b, c] + [""] == [a] + [b, c, ""] && [b, c, ""] == [b] + [c, ""] && [c, ""] == [c] + [""];
    assert [""] + [] == [""] && Terminate([]) == "";
    hide Terminate;
  }

  lemma ValueOf(v: string)
    requires Trimmed(v, JsSpace)
    ensures "data:" <= "data: " + v && Value("data: " + v, "data:") == v
    ensures !("event:" <= "data: " + v) && !("id:" <= "data: " + v)
    ensures "id:" <= "id: " + v && Value("id: " + v, "id:") == v
    ensures !("event:" <= "id: " + v) && !("data:" <= "id: " + v)
    ensures !Blank("data: " + v) && !Blank("id: " + v)
  {
    TrimTrimmed(v, JsSpace);
    var d, i := "data: " + v, "id: " + v;
    assert d[..5] == "data:" && d[5..] == " " + v && d[0] == 'd';
    assert i[..3] == "id:" && i[3..] == " " + v && i[0] == 'i';
  }

  lemma UnnamedLines(id: string, x: string, y: string)
    requires Plainly(id) && Plainly(x) && Plainly(y)
    ensures var block := ["id: " + id, "data: " + x, "data: " + y];
            NoBlank(block) && forall l <- block :: '\n' !in l
  {
    ValueOf(id);
    ValueOf(x);
    ValueOf(y);
    hide Value, Blank;
  }

  lemma UnnamedValues(v: string, x: string, y: string)
    requires Trimmed(v, JsSpace) && Trimmed(x, JsSpace) && Trimmed(y, JsSpace)
    ensures var block := ["id: " + v, "data: " + x, "data: " + y];
            Values(block, "data:") == [x, y] && Values(block, "event:") == [] && Values(block, "id:") == [v]
  {
    ValueOf(v);
    ValueOf(x);
    ValueOf(y);
    var id, open, close := "id: " + v, "data: " + x, "data: " + y;
    hide Value, Blank, Trim, Values;
    ValuesOfThree(id, open, close, "data:");
    ValuesOfThree(id, open, close, "event:");
    ValuesOfThree(id, open, close, "id:");
  }

  function ValueIn(line: string, prefix: string): seq<string> {
    if prefix <= line then [Value(line, prefix)] else []
  }

  lemma ValuesOfThree(a: string, b: string, c: string, prefix: string)
    ensures Values([a, b, c], prefix) == ValueIn(a, prefix) + ValueIn(b, prefix) + ValueIn(c, prefix)
  {
    var one, two, three := [a], [a, b], [a, b, c];
    assert three[..2] == two && two[..1] == one && one[..0] == [];
    assert Values(one, prefix) == ValueIn(a, prefix);
  }

  /** It makes no difference to a block whether a blank line or the end of the text follows. */
  lemma BlankAtTheEnd(json: JsonParse, block: seq<string>)
    requires NoBlank(block) && forall l <- block :: '\n' !in l
    ensures Parse(json, Terminate(block + [""])) == Parse(json, Terminate(block))
  {
    hide Split, Fold, Emit;
    var lines := block + [""];
    SplitTerminated(block, "");
    SplitTerminated(lines, "");
    SplitLine("", "");
    assert Terminate(block) + "" == Terminate(block) && Terminate(lines) + "" == Terminate(lines);
    assert Complete(Terminate(block)) == block && Complete(Terminate(lines)) == lines;
    FoldBlock(json, block);
    FoldSnoc(json, START, block, "");
    NothingToEmit(json);
    assert [] + Emit(json, BlockFields(block)) == Emit(json, BlockFields(block)) + [];
  }

  /**
    The two parsers report the same for a block exactly when it has no data line, or its first data line and
    its last event line are not empty and, without an event line, the data is not an object that names a type
    of its own: Node drops leading empty data lines, takes an empty event for none, and then looks into the data.
  */
  lemma NodeAndPythonAgree(json: JsonParse, block: seq<string>)
    requires Block(block)
    ensures var parts, event := PyValues(block, "data:"), LastOf(PyValues(block, "event:"));
            var parsed := json(Join(parts, "\n"));
            SameReport(NodeReport(json, block), PyReport(block)) <==>
            || parts == []
            || (parts[0] != "" && (if event.Some? then event.value != ""
                                   else parsed.Object? ==> parsed.typ == "" || parsed.typ == "message"))
  {
    PyValuesAgree(block, "data:");
    PyValuesAgree(block, "event:");
    NodeReportIs(json, block);
    hide NodeReport, NoBlank, SpacesAgree, Parse, Values, PyValues;
    ReportsAgree(json, BlockFields(block), Values(block, "data:"), LastOf(Values(block, "event:")),
                 NodeReport(json, block), PyReport(block));
  }

  /** The same, for the values in the lines. */
  lemma ReportsAgree(json: JsonParse, f: Fields, parts: seq<string>, event: Option<string>,
                     node: seq<(string, string)>, python: Option<(string, string)>)
    requires f.data == Join(DropEmpty(parts), "\n") && f.event == GetOr(event, "")
    requires f.data == "" ==> node == []
    requires f.data != "" ==> node == [(BuildEvent(json, f).value.eventType, f.data)]
    requires python == if parts == [] then None else Some((GetOr(event, "message"), Join(parts, "\n")))
    ensures var parsed := json(Join(parts, "\n"));
            SameReport(node, python) <==>
            || parts == []
            || (parts[0] != "" && (if event.Some? then event.value != ""
                                   else parsed.Object? ==> parsed.typ == "" || parsed.typ == "message"))
  {
    if parts != [] && parts[0] != "" {
      JoinEmpty(parts, "\n");
      TypesAgree(json, f);
      hide Join, DropEmpty, BuildEvent;
      assert SameReport(node, python) <==> node[0] == python.value;
    } else if parts != [] {
      EmptyFirstDiffers(parts);
      hide Join, DropEmpty, BuildEvent;
      assert node == [] || node[0].1 != python.value.1;
    }
  }

  lemma TypesAgree(json: JsonParse, f: Fields)
    requires f.data != ""
    ensures var parsed := json(f.data);
            BuildEvent(json, f).Some? &&
            BuildEvent(json, f).value.eventType ==
              if f.event != "" then f.event else if parsed.Object? && parsed.typ != "" then parsed.typ else "message"
  {
  }

  lemma EmptyFirstDiffers(parts: seq<string>)
    requires parts != [] && parts[0] == ""
    ensures Join(DropEmpty(parts), "\n") == "" || Join(DropEmpty(parts), "\n") != Join(parts, "\n")
  {
    DropEmptyJoins(parts);
    if |parts| == 1 { assert DropEmpty(parts) == []; }
  }

  /** An empty data line is an event for Python only. */
  lemma EmptyDataDiffers(json: JsonParse)
    ensures NodeReport(json, ["data:"]) == [] && PyReport(["data:"]) == Some(("message", ""))
  {
    var block := ["data:"];
    assert [] + block == block && block[0][0] == 'd';
    PyNone();
    PyLine([], block[0]);
    PyEmptyField();
    JoinOne("");
    PyValuesAgree(block, "data:");
    NodeReportIs(json, block);
    hide PyValues, PyValue, Values, Join, NodeReport;
    assert PyReport(block) == Some(("message", ""));
    assert BlockFields(block).data == Join([], "\n");
  }

  lemma EmptyEventValues()
    ensures var block := ["event:", "data: x"];
            PyValues(block, "data:") == ["x"] && PyValues(block, "event:") == [""]
  {
    var first, block := ["event:"], ["event:", "data: x"];
    assert [] + first == first && first + [block[1]] == block && block[1] == "data: " + "x";
    PyNone();
    PyLine([], block[0]);
    PyLine(first, block[1]);
    PyEmptyField();
    PyField("x");
  }

  /** An empty event line is the type "" for Python and no type for Node. */
  lemma EmptyEventDiffers(json: JsonParse)
    requires json("x").NotJson?
    ensures var block := ["event:", "data: x"];
            NodeReport(json, block) == [("message", "x")] && PyReport(block) == Some(("", "x"))
  {
    hide PyValues, PyValue, Values, Join, DropEmpty, NodeReport, Trim, BuildEvent;
    var block := ["event:", "data: x"];
    EmptyEventValues();
    JoinOne("x");
    PyValuesAgree(block, "data:");
    PyValuesAgree(block, "event:");
    NodeReportIs(json, block);
    assert BlockFields(block).event == "" && BlockFields(block).data == "x";
    TypesAgree(json, BlockFields(block));
  }

  /** Without an event line Node takes the type from the data, Python does not. */
  lemma TypeInDataDiffers(json: JsonParse, named: string)
    requires '\n' !in named && SpacesAgree(named) && Trimmed(named, PySpace)
    requires json(named).Object? && json(named).typ != "" && json(named).typ != "message"
    ensures PyReport(["data: " + named]) == Some(("message", named))
    ensures !SameReport(NodeReport(json, ["data: " + named]), PyReport(["data: " + named]))
  {
    var block := ["data: " + named];
    PyNone();
    PyLine([], block[0]);
    PyField(named);
    JoinOne(named);
    assert [] + block == block && block[0][0] == 'd';
    hide PyValues, PyValue, Join, NodeReport;
    NodeAndPythonAgree(json, block);
  }

  lemma JoinOne(s: string)
    ensures Join([s], "\n") == s && Join([], "\n") == "" && DropEmpty([""]) == [] && DropEmpty(["x"]) == ["x"]
  {
  }

  lemma PyNone()
    ensures forall prefix :: PyValues([], prefix) == []
  {
  }

  lemma PyEmptyField()
    ensures PyValue("data:", "data:") == "" && !("event:" <= "data:")
    ensures PyValue("event:", "event:") == "" && !("data:" <= "event:")
  {
    var d, e := "data:", "event:";
    assert d[5..] == "" && e[6..] == "" && d[0] == 'd' && e[0] == 'e';
  }

  lemma PyLine(lines: seq<string>, line: string)
    ensures forall prefix | prefix <= line ::
              PyValues(lines + [line], prefix) == PyValues(lines, prefix) + [PyValue(line, prefix)]
    ensures forall prefix | !(prefix <= line) :: PyValues(lines + [line], prefix) == PyValues(lines, prefix)
  {
    assert (lines + [line])[..|lines|] == lines;
  }

  lemma PyField(v: string)
    requires Trimmed(v, PySpace)
    ensures "data:" <= "data: " + v && PyValue("data: " + v, "data:") == v && !("event:" <= "data: " + v)
    ensures "event:" <= "event: " + v && PyValue("event: " + v, "event:") == v && !("data:" <= "event: " + v)
    ensures !("data:" <= "id: " + v) && !("event:" <= "id: " + v)
  {
    TrimTrimmed(v, PySpace);
    var e, d, i := "event: " + v, "data: " + v, "id: " + v;
    assert e[..6] == "event:" && e[6..] == " " + v && e[0] == 'e';
    assert d[..5] == "data:" && d[5..] == " " + v && d[0] == 'd';
    assert i[0] == 'i';
  }

  // ---- Printing ----

  datatype Message = Message(eventType: string, data: seq<string>, id: Option<string>)

  /** One line each, nothing to trim, and a first data line that is not empty. */
  predicate Printable(m: Message) {
    && Plainly(m.eventType) && m.eventType != ""
    && m.data != [] && m.data[0] != "" && (forall d <- m.data :: Plainly(d))
    && (m.id.Some? ==> Plainly(m.id.value))
  }

  predicate Plainly(s: string) {
    '\n' !in s && Trimmed(s, JsSpace)
  }

  function DataLines(data: seq<string>): seq<string> {
    if data == [] then [] else DataLines(data[..|data| - 1]) + ["data: " + data[|data| - 1]]
  }

  function MessageLines(m: Message): seq<string> {
    ["event: " + m.eventType] + DataLines(m.data) + (if m.id.Some? then ["id: " + m.id.value] else [])
  }

  function Print(messages: seq<Message>): string {
    if messages == [] then "" else Terminate(MessageLines(messages[0]) + [""]) + Print(messages[1..])
  }

  function Meaning(json: JsonParse, messages: seq<Message>): seq<HaiEvent> {
    if messages == [] then []
    else
      var m, raw := messages[0], Join(messages[0].data, "\n");
      [HaiEvent(m.eventType, if json(raw).NotJson? then Plain(raw) else Parsed(raw), m.id, raw)]
      + Meaning(json, messages[1..])
  }

  lemma FieldLine(json: JsonParse, r: Run, v: string)
    requires Plainly(v)
    ensures Step(json, r, "event: " + v) == r.(fields := r.fields.(event := v))
    ensures Step(json, r, "id: " + v) == r.(fields := r.fields.(id := Some(v)))
    ensures Step(json, r, "data: " + v) ==
            r.(fields := r.fields.(data := r.fields.data + (if r.fields.data != "" then "\n" else "") + v))
  {
    TrimTrimmed(v, JsSpace);
    var e, i, d := "event: " + v, "id: " + v, "data: " + v;
    assert e[..6] == "event:" && e[6..] == " " + v;
    assert i[..3] == "id:" && i[3..] == " " + v && i[0] == 'i';
    assert d[..5] == "data:" && d[5..] == " " + v && d[0] == 'd';
  }

  lemma {:induction false} FoldDataLines(json: JsonParse, r: Run, data: seq<string>)
    requires r.fields.data == "" && (forall d <- data :: Plainly(d)) && (data != [] ==> data[0] != "")
    ensures Fold(json, r, DataLines(data)) == r.(fields := r.fields.(data := Join(data, "\n")))
  {
    hide Step, Fold;
    if data == [] {
      FoldNone(json, r);
    } else {
      var init, last := data[..|data| - 1], data[|data| - 1];
      assert data == init + [last];
      FoldDataLines(json, r, init);
      FoldSnoc(json, r, DataLines(init), "data: " + last);
      FieldLine(json, Fold(json, r, DataLines(init)), last);
      JoinSnoc(init, "\n", last);
      JoinEmpty(init, "\n");
    }
  }

  lemma FoldMessage(json: JsonParse, m: Message)
    requires Printable(m)
    ensures Fold(json, START, MessageLines(m)) == Run(Fields(m.eventType, Join(m.data, "\n"), m.id), [])
  {
    var head := ["event: " + m.eventType];
    assert Fold(json, START, []) == START && head == [] + head;
    FoldSnoc(json, START, [], head[0]);
    FieldLine(json, START, m.eventType);
    FoldAppend(json, START, head, DataLines(m.data));
    FoldDataLines(json, Fold(json, START, head), m.data);
    if m.id.Some? {
      FoldSnoc(json, START, head + DataLines(m.data), "id: " + m.id.value);
      FieldLine(json, Fold(json, START, head + DataLines(m.data)), m.id.value);
    } else {
      assert MessageLines(m) == head + DataLines(m.data);
    }
  }

  lemma {:induction false} DataLinesPlain(data: seq<string>)
    requires forall d <- data :: Plainly(d)
    ensures forall l <- DataLines(data) :: '\n' !in l
  {
    if data != [] {
      DataLinesPlain(data[..|data| - 1]);
      assert Plainly(data[|data| - 1]);
    }
  }

  lemma PrintOne(json: JsonParse, m: Message)
    requires Printable(m)
    ensures var text := Terminate(MessageLines(m) + [""]);
            EndsBlank(text) && Parse(json, text) == Meaning(json, [m])
  {
    hide Fold;
    assert forall d <- m.data :: Plainly(d);
    var lines := MessageLines(m) + [""];
    DataLinesPlain(m.data);
    SplitTerminated(lines, "");
    SplitLine("", "");
    var text := Terminate(lines);
    assert text + "" == text && Split(text) == lines + [""];
    assert Complete(text) == lines;
    FoldMessage(json, m);
    FoldSnoc(json, START, MessageLines(m), "");
    JoinEmpty(m.data, "\n");
    assert Meaning(json, [m][1..]) == [];
  }

  /** Whatever is printed is parsed back: the same events, in order, with their data lines joined. */
  lemma {:induction false} PrintThenParse(json: JsonParse, messages: seq<Message>)
    requires forall m <- messages :: Printable(m)
    ensures Parse(json, Print(messages)) == Meaning(json, messages)
  {
    if messages == [] {
      assert Complete("") == [];
    } else {
      var m := messages[0];
      assert Printable(m);
      PrintOne(json, m);
      BlankLineSeparates(json, Terminate(MessageLines(m) + [""]), Print(messages[1..]));
      PrintThenParse(json, messages[1..]);
      assert Meaning(json, messages) == Meaning(json, [m]) + Meaning(json, messages[1..]) by {
        assert Meaning(json, [m][1..]) == [];
      }
    }
  }

  /** A message Python would not trim either. */
  predicate PyPrintable(m: Message) {
    && Printable(m) && Trimmed(m.eventType, PySpace)
    && (forall d <- m.data :: Trimmed(d, PySpace)) && (m.id.Some? ==> Trimmed(m.id.value, PySpace))
  }

  lemma {:induction false} PyDataLines(lines: seq<string>, data: seq<string>)
    requires forall d <- data :: Trimmed(d, PySpace)
    ensures PyValues(lines + DataLines(data), "data:") == PyValues(lines, "data:") + data
    ensures PyValues(lines + DataLines(data), "event:") == PyValues(lines, "event:")
  {
    hide PyValue, PyValues, Trim;
    if data == [] {
      assert lines + DataLines(data) == lines && PyValues(lines, "data:") + [] == PyValues(lines, "data:");
    } else {
      var init, last := data[..|data| - 1], data[|data| - 1];
      PyDataLines(lines, init);
      assert lines + DataLines(data) == (lines + DataLines(init)) + ["data: " + last] && data == init + [last];
      PyLine(lines + DataLines(init), "data: " + last);
      PyField(last);
    }
  }

  /** The printed lines of one message say the same to both parsers: its type and its data lines, joined. */
  lemma PrintThenParseLines(json: JsonParse, m: Message)
    requires PyPrintable(m)
    ensures PyReport(MessageLines(m)) == Some((m.eventType, Join(m.data, "\n")))
    ensures SameReport(NodeReport(json, MessageLines(m)), PyReport(MessageLines(m)))
  {
    PyReportOfLines(m);
    NodeReportOfLines(json, m);
  }

  lemma NodeReportOfLines(json: JsonParse, m: Message)
    requires Printable(m)
    ensures NodeReport(json, MessageLines(m)) == [(m.eventType, Join(m.data, "\n"))]
  {
    hide Split, Fold, Terminate;
    var lines := MessageLines(m);
    assert Plainly(m.eventType) && forall d <- m.data :: Plainly(d);
    DataLinesPlain(m.data);
    assert forall l <- lines :: '\n' !in l;
    SplitTerminated(lines, "");
    SplitLine("", "");
    assert Terminate(lines) + "" == Terminate(lines);
    assert Complete(Terminate(lines)) == lines;
    FoldMessage(json, m);
    JoinEmpty(m.data, "\n");
    hide MessageLines, Join;
    TypesAgree(json, Fields(m.eventType, Join(m.data, "\n"), m.id));
  }

  lemma PyReportOfLines(m: Message)
    requires PyPrintable(m)
    ensures PyReport(MessageLines(m)) == Some((m.eventType, Join(m.data, "\n")))
  {
    hide PyValue, PyValues, Join, DataLines;
    var head := "event: " + m.eventType;
    PyField(m.eventType);
    PyLine([], head);
    assert [] + [head] == [head];
    PyNone();
    PyDataLines([head], m.data);
    var lines := [head] + DataLines(m.data);
    assert PyValues(lines, "data:") == m.data && PyValues(lines, "event:") == [m.eventType];
    if m.id.Some? {
      PyField(m.id.value);
      PyLine(lines, "id: " + m.id.value);
      assert MessageLines(m) == lines + ["id: " + m.id.value];
    } else {
      assert MessageLines(m) == lines;
    }
    assert PyValues(MessageLines(m), "data:") == m.data;
    assert PyValues(MessageLines(m), "event:") == [m.eventType];
  }
}
