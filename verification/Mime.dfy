/**
  The RFC 5322 builders of the Go and Node clients. The random message id and boundary and the date are
  parameters. Text is a sequence of characters (the builders differ only in when they turn it into UTF-8),
  attachments are bytes.
*/
module Mime {
  import opened Wrappers
  import opened Base64
  import opened MimeReader

  // ---- sanitizeHeader ----

  function Drop(s: string, c: char): string {
    if s == "" then "" else (if s[0] == c then "" else [s[0]]) + Drop(s[1..], c)
  }

  function SanitizeHeader(value: string): string {
    Drop(Drop(Drop(value, '\r'), '\n'), '"')
  }

  /** Node replaces all three characters in one pass. */
  function NodeSanitizeHeader(value: string): string {
    if value == "" then ""
    else (if value[0] in "\r\n\"" then "" else [value[0]]) + NodeSanitizeHeader(value[1..])
  }

  predicate Clean(s: string) {
    '\r' !in s && '\n' !in s && '"' !in s
  }

  lemma {:induction false} DropAway(s: string, c: char)
    ensures c !in Drop(s, c) && (forall x <- Drop(s, c) :: x in s)
    ensures c !in s ==> Drop(s, c) == s
  {
    if s != "" {
      DropAway(s[1..], c);
      assert s == [s[0]] + s[1..];
    }
  }

  lemma {:induction false} DropCons(x: char, s: string, c: char)
    ensures Drop([x] + s, c) == (if x == c then "" else [x]) + Drop(s, c)
  {
    assert ([x] + s)[1..] == s;
  }

  /** No sanitised value can start a new line or end a quoted one, and a harmless value is kept. */
  lemma SanitizeCleans(value: string)
    ensures Clean(SanitizeHeader(value)) && (Clean(value) ==> SanitizeHeader(value) == value)
  {
    DropAway(value, '\r');
    DropAway(Drop(value, '\r'), '\n');
    DropAway(Drop(Drop(value, '\r'), '\n'), '"');
  }

  lemma {:induction false} DropAppend(s: string, t: string, c: char)
    ensures Drop(s + t, c) == Drop(s, c) + Drop(t, c)
  {
    if s == "" {
      assert s + t == t;
    } else {
      assert (s + t)[1..] == s[1..] + t;
      DropAppend(s[1..], t, c);
    }
  }

  /** Character by character: CR, LF and the quote go, everything else stays where it is. */
  lemma SanitizeKeepsTheRest(a: string, c: char, b: string)
    ensures SanitizeHeader(a + [c] + b)
         == SanitizeHeader(a) + (if c == '\r' || c == '\n' || c == '"' then "" else [c]) + SanitizeHeader(b)
  {
    SanitizeAppend(a + [c], b);
    SanitizeAppend(a, [c]);
    assert [c] + "" == [c];
    DropCons(c, "", '\r');
    DropCons(c, "", '\n');
    DropCons(c, "", '"');
  }

  lemma SanitizeAppend(a: string, b: string)
    ensures SanitizeHeader(a + b) == SanitizeHeader(a) + SanitizeHeader(b)
  {
    DropAppend(a, b, '\r');
    DropAppend(Drop(a, '\r'), Drop(b, '\r'), '\n');
    DropAppend(Drop(Drop(a, '\r'), '\n'), Drop(Drop(b, '\r'), '\n'), '"');
  }

  lemma {:induction false} SanitizersAgree(value: string)
    ensures NodeSanitizeHeader(value) == SanitizeHeader(value)
  {
    if value != "" {
      var x, rest := value[0], value[1..];
      SanitizersAgree(rest);
      assert value == [x] + rest;
      DropCons(x, rest, '\r');
      if x != '\r' {
        DropCons(x, Drop(rest, '\r'), '\n');
        if x != '\n' { DropCons(x, Drop(Drop(rest, '\r'), '\n'), '"'); }
      }
      assert forall t: string :: "" + t == t;
    }
  }

  // ---- What the message looks like ----

  datatype Attachment = Attachment(filename: string, contentType: string, data: seq<byte>, dataBase64: string)

  /** An absent In-Reply-To is "". */
  datatype Options = Options(to: string, subject: string, body: string, inReplyTo: string, attachments: seq<Attachment>)

  /** What the clock and the random generator supply. */
  datatype Stamp = Stamp(uuid: string, date: string, token: string) {
    predicate Valid() { Clean(uuid) && Clean(date) && Clean(token) }

    function Boundary(): string { "hai-boundary-" + token }
  }

  datatype MimeError = InvalidBase64(filename: string)

  /** The bytes of an attachment: `Data`, or else `DataBase64` decoded. */
  function RawData(att: Attachment): Option<seq<byte>> {
    if att.data == [] && att.dataBase64 != "" then DecodeStd(att.dataBase64) else Some(att.data)
  }

  /** What is meant to arrive: the sanitised type and name, and the bytes. */
  function FileOf(att: Attachment, data: seq<byte>): File {
    File(SanitizeHeader(att.contentType), SanitizeHeader(att.filename), data)
  }

  function Files(atts: seq<Attachment>): Result<seq<File>, MimeError> {
    if atts == [] then Ok([])
    else
      var last := atts[|atts| - 1];
      match Files(atts[..|atts| - 1])
      case Err(e) => Err(e)
      case Ok(fs) =>
        match RawData(last)
        case None => Err(InvalidBase64(last.filename))
        case Some(data) => Ok(fs + [FileOf(last, data)])
  }

  /** From values that are already sanitised. */
  function SafeHeaders(to: string, from: string, subject: string, reply: Option<string>, stamp: Stamp): seq<string> {
    ["From: <" + from + ">", "To: " + to, "Subject: " + subject, "Date: " + stamp.date,
     "Message-ID: <" + stamp.uuid + "@hai.ai>"]
    + (if reply.None? then [] else ["In-Reply-To: " + reply.value, "References: " + reply.value])
    + ["MIME-Version: 1.0"]
  }

  function CommonHeaders(opts: Options, from: string, stamp: Stamp): seq<string> {
    SafeHeaders(SanitizeHeader(opts.to), SanitizeHeader(from), SanitizeHeader(opts.subject),
                if opts.inReplyTo == "" then None else Some(SanitizeHeader(opts.inReplyTo)), stamp)
  }

  // The lines that depend on nothing or on one attachment, as the format strings produce them.

  function TextType(): string { "Content-Type: text/plain; charset=utf-8" }

  function TextEncoding(): string { "Content-Transfer-Encoding: 8bit" }

  function MixedType(boundary: string): string { "Content-Type: multipart/mixed; boundary=\"" + boundary + "\"" }

  function FileType(f: File): string { "Content-Type: " + f.contentType + "; name=\"" + f.name + "\"" }

  function FileDisposition(f: File): string { "Content-Disposition: attachment; filename=\"" + f.name + "\"" }

  function FileEncoding(): string { "Content-Transfer-Encoding: base64" }

  function Delimiter(boundary: string): string { "--" + boundary }

  function Closing(boundary: string): string { "--" + boundary + "--" }

  function TextHeaders(): seq<string> {
    [TextType(), TextEncoding()]
  }

  function HeaderLines(opts: Options, from: string, stamp: Stamp): seq<string> {
    CommonHeaders(opts, from, stamp)
    + if opts.attachments == [] then TextHeaders()
      else [MixedType(stamp.Boundary())]
  }

  function FileHeaders(f: File): seq<string> {
    [FileType(f), FileDisposition(f), FileEncoding()]
  }

  function FileSection(boundary: string, f: File): seq<string> {
    [Delimiter(boundary)] + FileHeaders(f) + [""] + Slices(EncodeStd(f.data))
  }

  function FileLines(boundary: string, files: seq<File>): seq<string> {
    if files == [] then []
    else FileLines(boundary, files[..|files| - 1]) + FileSection(boundary, files[|files| - 1])
  }

  function BodyLines(opts: Options, stamp: Stamp, files: seq<File>): seq<string> {
    if opts.attachments == [] then SplitCrlf(opts.body)
    else
      [Delimiter(stamp.Boundary())] + TextHeaders() + [""] + SplitCrlf(opts.body) + FileLines(stamp.Boundary(), files)
      + [Closing(stamp.Boundary())]
  }

  /** The message: the header lines, an empty line, the body lines, each with its CRLF. */
  function Message(opts: Options, from: string, stamp: Stamp): Result<string, MimeError> {
    match Files(opts.attachments)
    case Err(e) => Err(e)
    case Ok(files) => Ok(Put(HeaderLines(opts, from, stamp) + [""] + BodyLines(opts, stamp, files)))
  }

  // ---- The builders ----

  /** The growing buffer; `lines` is what has been written so far, seen as lines. */
  class Buffer {
    var text: string
    ghost var lines: seq<string>

    ghost predicate Valid()
      reads this
    {
      text == Put(lines)
    }

    constructor ()
      ensures Valid() && lines == []
    {
      text, lines := "", [];
    }

    method WriteLine(line: string)
      requires Valid()
      modifies this
      ensures Valid() && lines == old(lines) + [line]
    {
      PutSnoc(lines, line);
      text := text + line + "\r\n";
      lines := lines + [line];
    }

    method WriteText(s: string)
      requires Valid()
      modifies this
      ensures Valid() && lines == old(lines) + SplitCrlf(s)
    {
      PutAppend(lines, SplitCrlf(s));
      PutSplit(s);
      assert text + (s + "\r\n") == text + s + "\r\n";
      text := text + s;
      text := text + "\r\n";
      lines := lines + SplitCrlf(s);
    }
  }

  lemma {:induction false} FirstBadFile(atts: seq<Attachment>, n: nat)
    requires n <= |atts| && Files(atts[..n]).Err?
    ensures Files(atts) == Files(atts[..n])
  {
    if n == |atts| {
      assert atts[..n] == atts;
    } else {
      assert atts[..|atts| - 1][..n] == atts[..n];
      FirstBadFile(atts[..|atts| - 1], n);
    }
  }

  lemma FilesSnoc(atts: seq<Attachment>, i: nat)
    requires i < |atts|
    ensures Files(atts[..i + 1]) ==
            match Files(atts[..i])
            case Err(e) => Err(e)
            case Ok(fs) =>
              match RawData(atts[i])
              case None => Err(InvalidBase64(atts[i].filename))
              case Some(data) => Ok(fs + [FileOf(atts[i], data)])
  {
    assert atts[..i + 1][..i] == atts[..i];
  }

  /** An attachment comes with bytes, or else with base64 text that decodes. */
  predicate Readable(att: Attachment) {
    att.data != [] || att.dataBase64 == "" || DecodeStd(att.dataBase64).Some?
  }

  /**
    What arrives, attachment by attachment: the sanitised type and name, the bytes if there are any, and otherwise
    what the base64 text stands for. The first one whose text cannot be read is the error, under its own name.
  */
  lemma {:induction false} FilesAre(atts: seq<Attachment>)
    ensures Files(atts).Ok? <==> forall a <- atts :: Readable(a)
    ensures Files(atts).Ok? ==> |Files(atts).value| == |atts|
    ensures Files(atts).Ok? ==> forall i | 0 <= i < |atts| ::
              var f := Files(atts).value[i];
              && f.contentType == SanitizeHeader(atts[i].contentType) && f.name == SanitizeHeader(atts[i].filename)
              && (atts[i].data != [] || atts[i].dataBase64 == "" ==> f.data == atts[i].data)
              && (atts[i].data == [] && atts[i].dataBase64 != "" ==> Some(f.data) == DecodeStd(atts[i].dataBase64))
    ensures Files(atts).Err? ==> exists i | 0 <= i < |atts| ::
              && !Readable(atts[i]) && (forall j | 0 <= j < i :: Readable(atts[j]))
              && Files(atts).error == InvalidBase64(atts[i].filename)
  {
    hide SanitizeHeader, DecodeStd;
    if atts != [] {
      var init, last := atts[..|atts| - 1], atts[|atts| - 1];
      FilesAre(init);
      assert atts == init + [last];
      assert forall j | 0 <= j < |init| :: atts[j] == init[j];
      assert forall a :: a in atts <==> a in init || a == last;
      if Files(init).Err? {
        var i :| && 0 <= i < |init| && !Readable(init[i]) && (forall j | 0 <= j < i :: Readable(init[j]))
                 && Files(init).error == InvalidBase64(init[i].filename);
        assert !Readable(atts[i]);
      } else if !Readable(last) {
        assert forall j | 0 <= j < |init| :: atts[j] == init[j] && init[j] in init;
      }
    }
  }

  /** The 76-column loop. */
  method WriteFolded(buf: Buffer, b64: string)
    requires buf.Valid()
    modifies buf
    ensures buf.Valid() && buf.lines == old(buf.lines) + Slices(b64)
  {
    hide Put;
    var i := 0;
    ghost var done: seq<string> := [];
    while i < |b64|
      invariant 0 <= i
      invariant buf.Valid() && buf.lines == old(buf.lines) + done
      invariant Slices(b64) == done + if i < |b64| then Slices(b64[i..]) else []
      decreases |b64| - i
    {
      var end := i + 76;
      if end > |b64| { end := |b64|; }
      if |b64[i..]| > WIDTH {
        assert b64[i..][..WIDTH] == b64[i..end] && b64[i..][WIDTH..] == b64[end..];
      } else {
        assert b64[i..] == b64[i..end];
      }
      buf.WriteLine(b64[i..end]);
      done := done + [b64[i..end]];
      i := i + 76;
    }
  }

  method WriteSafeHeaders(buf: Buffer, to: string, from: string, subject: string, reply: Option<string>, stamp: Stamp)
    requires buf.Valid() && buf.lines == []
    modifies buf
    ensures buf.Valid() && buf.lines == SafeHeaders(to, from, subject, reply, stamp)
  {
    hide Put;
    buf.WriteLine("From: <" + from + ">");
    buf.WriteLine("To: " + to);
    buf.WriteLine("Subject: " + subject);
    buf.WriteLine("Date: " + stamp.date);
    buf.WriteLine("Message-ID: <" + stamp.uuid + "@hai.ai>");
    if reply.Some? {
      buf.WriteLine("In-Reply-To: " + reply.value);
      buf.WriteLine("References: " + reply.value);
    }
    buf.WriteLine("MIME-Version: 1.0");
  }

  method WriteTextPart(buf: Buffer, body: string, boundary: string)
    requires buf.Valid()
    modifies buf
    ensures buf.Valid()
    ensures buf.lines == old(buf.lines) + ([Delimiter(boundary)] + TextHeaders() + [""] + SplitCrlf(body))
  {
    hide Put, SplitCrlf, Delimiter, TextType, TextEncoding;
    buf.WriteLine(Delimiter(boundary));
    buf.WriteLine(TextType());
    buf.WriteLine(TextEncoding());
    buf.WriteLine("");
    buf.WriteText(body);
  }

  /** Everything between one attachment's delimiter line and the next. */
  method WriteFile(buf: Buffer, safe: File, boundary: string)
    requires buf.Valid()
    modifies buf
    ensures buf.Valid() && buf.lines == old(buf.lines) + FileSection(boundary, safe)
  {
    hide Put, Slices, EncodeStd, Delimiter, FileType, FileDisposition, FileEncoding;
    buf.WriteLine(Delimiter(boundary));
    buf.WriteLine(FileType(safe));
    buf.WriteLine(FileDisposition(safe));
    buf.WriteLine(FileEncoding());
    buf.WriteLine("");
    WriteFolded(buf, EncodeStd(safe.data));
  }

  method WriteAttachment(buf: Buffer, att: Attachment, boundary: string) returns (r: Option<MimeError>)
    requires buf.Valid()
    modifies buf
    ensures r == (match RawData(att) case None => Some(InvalidBase64(att.filename)) case Some(_) => None)
    ensures r.None? ==> buf.Valid()
    ensures r.None? ==> buf.lines == old(buf.lines) + FileSection(boundary, FileOf(att, RawData(att).value))
  {
    hide Put, FileSection, DecodeStd, SanitizeHeader;
    var rawData := att.data;
    if |rawData| == 0 && att.dataBase64 != "" {
      var decoded := DecodeStd(att.dataBase64);
      if decoded.None? { return Some(InvalidBase64(att.filename)); }
      rawData := decoded.value;
    }
    WriteFile(buf, File(SanitizeHeader(att.contentType), SanitizeHeader(att.filename), rawData), boundary);
    r := None;
  }

  method BuildRFC5322Email(opts: Options, from: string, stamp: Stamp) returns (r: Result<string, MimeError>)
    ensures r == Message(opts, from, stamp)
  {
    hide SplitCrlf, Put, SafeHeaders, SanitizeHeader, FileSection, RawData, FileOf;
    hide TextType, TextEncoding, MixedType, Delimiter, Closing, FileLines;
    var buf := new Buffer();
    var safeTo, safeFrom, safeSubject := SanitizeHeader(opts.to), SanitizeHeader(from), SanitizeHeader(opts.subject);
    var reply := if opts.inReplyTo != "" then Some(SanitizeHeader(opts.inReplyTo)) else None;
    WriteSafeHeaders(buf, safeTo, safeFrom, safeSubject, reply, stamp);
    if |opts.attachments| == 0 {
      buf.WriteLine(TextType());
      buf.WriteLine(TextEncoding());
      buf.WriteLine("");
      buf.WriteText(opts.body);
      assert buf.lines == HeaderLines(opts, from, stamp) + [""] + BodyLines(opts, stamp, []);
    } else {
      var boundary := stamp.Boundary();
      buf.WriteLine(MixedType(boundary));
      buf.WriteLine("");
      WriteTextPart(buf, opts.body, boundary);
      ghost var start := HeaderLines(opts, from, stamp) + [""]
                         + ([Delimiter(boundary)] + TextHeaders() + [""] + SplitCrlf(opts.body));
      assert buf.lines == start == start + [];
      NoFileLines(boundary);

      for i := 0 to |opts.attachments|
        invariant buf.Valid() && Files(opts.attachments[..i]).Ok?
        invariant buf.lines == start + FileLines(boundary, Files(opts.attachments[..i]).value)
      {
        FilesSnoc(opts.attachments, i);
        ghost var files := Files(opts.attachments[..i]).value;
        var err := WriteAttachment(buf, opts.attachments[i], boundary);
        if err.Some? {
          FirstBadFile(opts.attachments, i + 1);
          return Err(err.value);
        }
        FileLinesSnoc(boundary, files, FileOf(opts.attachments[i], RawData(opts.attachments[i]).value));
      }
      assert opts.attachments[..|opts.attachments|] == opts.attachments;
      buf.WriteLine(Closing(boundary));
      assert buf.lines == HeaderLines(opts, from, stamp) + [""] + BodyLines(opts, stamp, Files(opts.attachments).value);
    }
    r := Ok(buf.text);
  }

  lemma FileLinesSnoc(boundary: string, files: seq<File>, f: File)
    ensures FileLines(boundary, files + [f]) == FileLines(boundary, files) + FileSection(boundary, f)
  {
    assert (files + [f])[..|files|] == files;
  }

  lemma NoFileLines(boundary: string)
    ensures FileLines(boundary, []) == []
  {
  }

  /** Node takes the attachments as bytes only. */
  datatype NodeAttachment = NodeAttachment(filename: string, contentType: string, data: seq<byte>)

  function AsGo(atts: seq<NodeAttachment>): seq<Attachment> {
    if atts == [] then []
    else
      var last := atts[|atts| - 1];
      AsGo(atts[..|atts| - 1]) + [Attachment(last.filename, last.contentType, last.data, "")]
  }

  lemma AsGoFiles(atts: seq<NodeAttachment>, n: nat)
    requires n <= |atts|
    ensures |AsGo(atts[..n])| == n
    ensures n == 0 ==> Files(AsGo(atts[..n])) == Ok([])
    ensures Files(AsGo(atts[..n])).Ok?
    ensures n > 0 ==> && Files(AsGo(atts[..n - 1])).Ok?
                      && Files(AsGo(atts[..n])).value == Files(AsGo(atts[..n - 1])).value +
                           [File(NodeSanitizeHeader(atts[n - 1].contentType),
                                 NodeSanitizeHeader(atts[n - 1].filename), atts[n - 1].data)]
  {
    hide SanitizeHeader, NodeSanitizeHeader, DecodeStd;
    if n > 0 {
      AsGoFiles(atts, n - 1);
      assert atts[..n][..n - 1] == atts[..n - 1];
      var before := AsGo(atts[..n - 1]);
      var last := Attachment(atts[n - 1].filename, atts[n - 1].contentType, atts[n - 1].data, "");
      assert (before + [last])[..|before|] == before;
      SanitizersAgree(atts[n - 1].contentType);
      SanitizersAgree(atts[n - 1].filename);
    }
  }

  /** Given the same id, date and boundary, Node's builder returns what Go's builder returns, and never fails. */
  method BuildNodeEmail(to: string, subject: string, body: string, inReplyTo: string, atts: seq<NodeAttachment>,
                        from: string, stamp: Stamp)
    returns (email: string)
    ensures Ok(email) == Message(Options(to, subject, body, inReplyTo, AsGo(atts)), from, stamp)
  {
    hide SplitCrlf, Put, SafeHeaders, SanitizeHeader, NodeSanitizeHeader, FileSection, Files, AsGo;
    hide TextType, TextEncoding, MixedType, Delimiter, Closing, FileLines;
    SanitizersAgree(to);
    SanitizersAgree(from);
    SanitizersAgree(subject);
    SanitizersAgree(inReplyTo);
    ghost var opts := Options(to, subject, body, inReplyTo, AsGo(atts));
    var buf := new Buffer();
    var safeTo, safeFrom, safeSubject := NodeSanitizeHeader(to), NodeSanitizeHeader(from), NodeSanitizeHeader(subject);
    var reply := if inReplyTo != "" then Some(NodeSanitizeHeader(inReplyTo)) else None;
    WriteSafeHeaders(buf, safeTo, safeFrom, safeSubject, reply, stamp);
    AsGoFiles(atts, 0);
    AsGoFiles(atts, |atts|);
    assert atts[..|atts|] == atts;
    if |atts| == 0 {
      buf.WriteLine(TextType());
      buf.WriteLine(TextEncoding());
      buf.WriteLine("");
      buf.WriteText(body);
      assert buf.lines == HeaderLines(opts, from, stamp) + [""] + BodyLines(opts, stamp, []);
    } else {
      var boundary := stamp.Boundary();
      buf.WriteLine(MixedType(boundary));
      buf.WriteLine("");
      WriteTextPart(buf, body, boundary);
      ghost var start := HeaderLines(opts, from, stamp) + [""]
                         + ([Delimiter(boundary)] + TextHeaders() + [""] + SplitCrlf(body));
      assert buf.lines == start == start + [];
      NoFileLines(boundary);
      for i := 0 to |atts|
        invariant buf.Valid() && Files(AsGo(atts[..i])).Ok?
        invariant buf.lines == start + FileLines(boundary, Files(AsGo(atts[..i])).value)
      {
        AsGoFiles(atts, i + 1);
        ghost var files := Files(AsGo(atts[..i])).value;
        var att := atts[i];
        var safe := File(NodeSanitizeHeader(att.contentType), NodeSanitizeHeader(att.filename), att.data);
        WriteFile(buf, safe, boundary);
        FileLinesSnoc(boundary, files, safe);
      }
      assert atts[..|atts|] == atts;
      buf.WriteLine(Closing(boundary));
      assert buf.lines == HeaderLines(opts, from, stamp) + [""] + BodyLines(opts, stamp, Files(opts.attachments).value);
    }
    email := buf.text;
  }

}
