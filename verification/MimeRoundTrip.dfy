/** What a reader finds in a built message. */
module MimeRoundTrip {
  import opened Wrappers
  import opened Base64
  import opened MimeReader
  import opened Mime

  /** A header line that nobody can mistake for two lines or for the end of the headers. */
  predicate Solid(l: string) {
    l != "" && NoBreak(l)
  }

  predicate NoBreak(s: string) {
    forall i | 0 <= i < |s| :: s[i] != '\r' && s[i] != '\n'
  }

  lemma CleanHasNoBreak(s: string)
    requires Clean(s)
    ensures NoBreak(s)
  {
    forall i | 0 <= i < |s| ensures s[i] != '\r' && s[i] != '\n' { assert s[i] in s; }
  }

  lemma SolidIsOneLine(l: string)
    requires Solid(l)
    ensures OneLine(l)
  {
  }

  lemma LineIsSolid(prefix: string, value: string, suffix: string)
    requires Solid(prefix) && NoBreak(value) && NoBreak(suffix)
    ensures Solid(prefix + value + suffix) && (prefix + value + suffix)[0] == prefix[0]
  {
  }

  lemma SolidPair(prefix: string, value: string)
    requires Solid(prefix) && NoBreak(value)
    ensures Solid(prefix + value) && (prefix + value)[0] == prefix[0]
  {
  }

  lemma AddressHeadersAreSolid(to: string, from: string, subject: string)
    requires NoBreak(to) && NoBreak(from) && NoBreak(subject)
    ensures Solid("From: <" + from + ">") && Solid("To: " + to) && Solid("Subject: " + subject)
  {
    LineIsSolid("From: <", from, ">");
    SolidPair("To: ", to);
    SolidPair("Subject: ", subject);
  }

  lemma StampHeadersAreSolid(stamp: Stamp)
    requires NoBreak(stamp.uuid) && NoBreak(stamp.date)
    ensures Solid("Date: " + stamp.date) && Solid("Message-ID: <" + stamp.uuid + "@hai.ai>")
    ensures Solid("MIME-Version: 1.0")
  {
    SolidPair("Date: ", stamp.date);
    LineIsSolid("Message-ID: <", stamp.uuid, "@hai.ai>");
  }

  lemma ReplyHeadersAreSolid(reply: string)
    requires NoBreak(reply)
    ensures Solid("In-Reply-To: " + reply) && Solid("References: " + reply)
  {
    SolidPair("In-Reply-To: ", reply);
    SolidPair("References: ", reply);
  }

  lemma SafeHeadersAreSolid(to: string, from: string, subject: string, reply: Option<string>, stamp: Stamp)
    requires NoBreak(to) && NoBreak(from) && NoBreak(subject) && NoBreak(stamp.uuid) && NoBreak(stamp.date)
    requires reply.Some? ==> NoBreak(reply.value)
    ensures forall l <- SafeHeaders(to, from, subject, reply, stamp) :: Solid(l) && l[0] != 'C'
  {
    AddressHeadersAreSolid(to, from, subject);
    StampHeadersAreSolid(stamp);
    if reply.Some? { ReplyHeadersAreSolid(reply.value); }
    hide Solid, NoBreak;
  }

  lemma CommonHeadersAreSolid(opts: Options, from: string, stamp: Stamp)
    requires stamp.Valid()
    ensures forall l <- CommonHeaders(opts, from, stamp) :: Solid(l) && l[0] != 'C'
  {
    hide SafeHeaders, Solid, NoBreak, SanitizeHeader, Clean;
    assert Clean(stamp.uuid) && Clean(stamp.date);
    CleanHasNoBreak(stamp.uuid);
    CleanHasNoBreak(stamp.date);
    forall v | v in {opts.to, from, opts.subject, opts.inReplyTo} ensures NoBreak(SanitizeHeader(v)) {
      SanitizeCleans(v);
      CleanHasNoBreak(SanitizeHeader(v));
    }
    SafeHeadersAreSolid(SanitizeHeader(opts.to), SanitizeHeader(from), SanitizeHeader(opts.subject),
                        if opts.inReplyTo == "" then None else Some(SanitizeHeader(opts.inReplyTo)), stamp);
  }

  lemma TextHeadersAreSolid()
    ensures Solid(TextType()) && Solid(TextEncoding())
  {
    assert Solid(TextType());
    assert Solid(TextEncoding());
  }

  lemma MixedTypeIsSolid(boundary: string)
    requires Clean(boundary)
    ensures Solid(MixedType(boundary))
  {
    CleanHasNoBreak(boundary);
    LineIsSolid("Content-Type: multipart/mixed; boundary=\"", boundary, "\"");
  }

  lemma BoundaryIsClean(stamp: Stamp)
    requires stamp.Valid()
    ensures Clean(stamp.Boundary())
  {
  }

  lemma DelimitersAreSolid(boundary: string)
    requires Clean(boundary)
    ensures Solid(Delimiter(boundary)) && Solid(Closing(boundary)) && Delimiter(boundary)[0] == '-'
    ensures IsDelimiter(boundary, Delimiter(boundary)) && !IsClosing(boundary, Delimiter(boundary))
    ensures IsDelimiter(boundary, Closing(boundary)) && IsClosing(boundary, Closing(boundary))
  {
    CleanHasNoBreak(boundary);
    LineIsSolid("--", boundary, "--");
    SolidPair("--", boundary);
  }

  lemma FileTypeIsSolid(f: File)
    requires NoBreak(f.contentType) && NoBreak(f.name)
    ensures Solid(FileType(f)) && FileType(f)[0] == 'C'
  {
    LineIsSolid("; name=\"", f.name, "\"");
    LineIsSolid("Content-Type: ", f.contentType, "; name=\"" + f.name + "\"");
    assert "Content-Type: " + f.contentType + ("; name=\"" + f.name + "\"") == FileType(f);
  }

  lemma FileDispositionIsSolid(f: File)
    requires NoBreak(f.name)
    ensures Solid(FileDisposition(f)) && FileDisposition(f)[0] == 'C'
  {
    LineIsSolid("Content-Disposition: attachment; filename=\"", f.name, "\"");
  }

  lemma FileEncodingIsSolid()
    ensures Solid(FileEncoding()) && FileEncoding()[0] == 'C'
  {
  }

  lemma FileHeadersAreSolid(f: File)
    requires Clean(f.contentType) && Clean(f.name)
    ensures forall l <- FileHeaders(f) :: Solid(l) && l[0] == 'C'
  {
    hide Solid, NoBreak, Clean, FileType, FileDisposition, FileEncoding;
    CleanHasNoBreak(f.contentType);
    CleanHasNoBreak(f.name);
    FileTypeIsSolid(f);
    FileDispositionIsSolid(f);
    FileEncodingIsSolid();
  }

  lemma HeadersAreSolid(opts: Options, from: string, stamp: Stamp)
    requires stamp.Valid()
    ensures forall l <- HeaderLines(opts, from, stamp) :: Solid(l)
  {
    hide Solid, CommonHeaders, MixedType, TextType, TextEncoding, Clean;
    CommonHeadersAreSolid(opts, from, stamp);
    TextHeadersAreSolid();
    BoundaryIsClean(stamp);
    MixedTypeIsSolid(stamp.Boundary());
  }

  lemma {:induction false} FilesAreClean(atts: seq<Attachment>)
    requires Files(atts).Ok?
    ensures forall f <- Files(atts).value :: Clean(f.contentType) && Clean(f.name)
    ensures |Files(atts).value| == |atts|
  {
    if atts != [] {
      FilesAreClean(atts[..|atts| - 1]);
      SanitizeCleans(atts[|atts| - 1].contentType);
      SanitizeCleans(atts[|atts| - 1].filename);
    }
  }

  lemma SlicesAreOneLines(boundary: string, d: seq<byte>)
    ensures forall l <- Slices(EncodeStd(d)) :: OneLine(l) && !IsDelimiter(boundary, l)
  {
    EncodeStdText(d);
    SlicesFill(EncodeStd(d));
    hide EncodeStd, Slices;
    forall l <- Slices(EncodeStd(d)) ensures OneLine(l) && !IsDelimiter(boundary, l) {
      assert forall c <- l :: c in EncodeStd(d);
      if l != "" {
        assert l[0] in l;
        assert ("--" + boundary)[0] == '-';
      }
    }
  }

  lemma SectionIsOneLines(boundary: string, f: File)
    requires Clean(boundary) && Clean(f.contentType) && Clean(f.name)
    ensures forall l <- FileSection(boundary, f) :: OneLine(l)
    ensures forall l <- FileHeaders(f) + [""] + Slices(EncodeStd(f.data)) :: !IsDelimiter(boundary, l)
  {
    SlicesAreOneLines(boundary, f.data);
    DelimitersAreSolid(boundary);
    FileHeadersAreSolid(f);
    EmptyIsOneLine();
    hide EncodeStd, Slices, Delimiter, FileType, FileDisposition, FileEncoding;
    SolidIsOneLine(Delimiter(boundary));
    forall l <- FileHeaders(f) ensures !IsDelimiter(boundary, l) && OneLine(l) {
      SolidIsOneLine(l);
      assert ("--" + boundary)[0] == '-';
    }
    hide FileHeaders, OneLine;
  }

  lemma {:induction false} FileLinesAreOneLines(boundary: string, files: seq<File>)
    requires Clean(boundary) && forall f <- files :: Clean(f.contentType) && Clean(f.name)
    ensures forall l <- FileLines(boundary, files) :: OneLine(l)
  {
    if files != [] {
      FileLinesAreOneLines(boundary, files[..|files| - 1]);
      SectionIsOneLines(boundary, files[|files| - 1]);
    }
  }

  lemma BodyIsOneLines(opts: Options, stamp: Stamp, files: seq<File>)
    requires stamp.Valid()
    requires forall f <- files :: Clean(f.contentType) && Clean(f.name)
    ensures forall l <- BodyLines(opts, stamp, files) :: OneLine(l)
  {
    hide Solid, OneLine, SplitCrlf, Clean, FileLines, Delimiter, Closing, TextType, TextEncoding;
    SplitOneLines(opts.body);
    var b := stamp.Boundary();
    BoundaryIsClean(stamp);
    FileLinesAreOneLines(b, files);
    DelimitersAreSolid(b);
    TextHeadersAreSolid();
    EmptyIsOneLine();
    SolidIsOneLine(Delimiter(b));
    SolidIsOneLine(Closing(b));
    SolidIsOneLine(TextType());
    SolidIsOneLine(TextEncoding());
  }

  /** Reading the lines of a built message gives back the lines that were written. */
  lemma MessageLines(opts: Options, from: string, stamp: Stamp)
    requires stamp.Valid() && Files(opts.attachments).Ok?
    ensures var files := Files(opts.attachments).value;
            ReadEntity(SplitCrlf(Message(opts, from, stamp).value))
            == Entity(HeaderLines(opts, from, stamp), BodyLines(opts, stamp, files) + [""])
  {
    hide SplitCrlf, ReadEntity, Put, Files, HeaderLines, BodyLines, OneLine, Stamp.Valid;
    var files := Files(opts.attachments).value;
    var head, body := HeaderLines(opts, from, stamp), BodyLines(opts, stamp, files);
    HeadersAreSolid(opts, from, stamp);
    forall l <- head ensures OneLine(l) { SolidIsOneLine(l); }
    FilesAreClean(opts.attachments);
    BodyIsOneLines(opts, stamp, files);
    assert OneLine("") by { EmptyIsOneLine(); }
    SplitPut(head + [""] + body);
    assert head + [""] + body + [""] == head + [""] + (body + [""]);
    EntityOf(head, body + [""]);
  }

  lemma EmptyIsOneLine()
    ensures OneLine("")
  {
  }

  lemma {:induction false} SkipLine(l: string, rest: string)
    requires NoBreak(l)
    ensures FindBlank(l + rest) == match FindBlank(rest) case None => None case Some(k) => Some(|l| + k)
  {
    if l == "" {
      assert l + rest == rest;
    } else {
      SkipLine(l[1..], rest);
      assert (l + rest)[1..] == l[1..] + rest && (l + rest)[0] == l[0];
      if |l + rest| < 4 {
        assert FindBlank(l[1..] + rest).None?;
      }
    }
  }

  lemma SkipBreak(tail: string)
    requires tail != "" && tail[0] != '\r'
    ensures FindBlank(CRLF + tail) == match FindBlank(tail) case None => None case Some(k) => Some(k + 2)
  {
    var t := ['\n'] + tail;
    assert CRLF + tail == ['\r'] + t && (CRLF + tail)[1..] == t && t[1..] == tail;
    assert (CRLF + tail)[2] == tail[0];
  }

  lemma {:induction false} BlankAfterHeaders(lines: seq<string>, rest: string)
    requires lines != [] && forall l <- lines :: Solid(l)
    ensures |Put(lines)| >= 2 && FindBlank(Put(lines) + CRLF + rest) == Some(|Put(lines)| - 2)
  {
    hide Put, FindBlank, NoBreak;
    var l, others := lines[0], lines[1..];
    assert lines == [l] + others && Solid(l);
    PutJoin(l, others);
    if others == [] {
      PutNothing();
      BlankBehindLast(l, rest);
      assert l + CRLF + "" == l + CRLF;
    } else {
      assert forall x <- others :: x in lines;
      BlankAfterHeaders(others, rest);
      StartsSolid(others, "");
      assert Put(others) + "" == Put(others);
      assert Put(others) + CRLF + rest == Put(others) + (CRLF + rest);
      BlankBehindMore(l, Put(others), CRLF + rest, |Put(others)| - 2);
      assert Put(lines) + CRLF + rest == l + CRLF + Put(others) + (CRLF + rest);
    }
  }

  lemma BlankBehindLast(l: string, rest: string)
    requires Solid(l)
    ensures FindBlank(l + CRLF + CRLF + rest) == Some(|l|)
  {
    hide FindBlank, NoBreak;
    BlankHere(rest);
    SkipLine(l, CRLF + CRLF + rest);
    assert l + CRLF + CRLF + rest == l + (CRLF + CRLF + rest);
  }

  lemma BlankBehindMore(l: string, block: string, rest: string, k: nat)
    requires Solid(l) && block != "" && block[0] != '\r' && FindBlank(block + rest) == Some(k)
    ensures FindBlank(l + CRLF + block + rest) == Some(|l| + 2 + k)
  {
    hide FindBlank, NoBreak;
    SkipBreak(block + rest);
    SkipLine(l, CRLF + (block + rest));
    assert l + CRLF + block + rest == l + (CRLF + (block + rest));
  }

  lemma StartsSolid(lines: seq<string>, rest: string)
    requires lines != [] && Solid(lines[0])
    ensures var s := Put(lines) + rest; s != "" && s[0] != '\r'
  {
  }

  lemma BlankHere(rest: string)
    ensures FindBlank(CRLF + CRLF + rest) == Some(0)
  {
  }

  /**
    Whatever To, From, Subject, In-Reply-To and the body hold, the first CRLFCRLF of the message is the one
    the builder put behind the headers, and the lines before it are the intended ones, in order.
  */
  lemma HeaderBlockIsIntact(opts: Options, from: string, stamp: Stamp)
    requires stamp.Valid() && Files(opts.attachments).Ok?
    ensures var message, head := Message(opts, from, stamp).value, HeaderLines(opts, from, stamp);
            && ReadEntity(SplitCrlf(message)).headers == head
            && FindBlank(message) == Some(|Put(head)| - 2)
            && Put(head) + CRLF <= message
            && (opts.attachments == [] ==> message == Put(head) + CRLF + opts.body + CRLF)
  {
    hide SplitCrlf, ReadEntity, Put, Files, HeaderLines, FindBlank, Stamp.Valid;
    var head := HeaderLines(opts, from, stamp);
    var body := BodyLines(opts, stamp, Files(opts.attachments).value);
    MessageLines(opts, from, stamp);
    HeadersAreSolid(opts, from, stamp);
    HasHeaders(opts, from, stamp);
    PutAppend(head + [""], body);
    PutSnoc(head, "");
    BlankAfterHeaders(head, Put(body));
    PutSplit(opts.body);
    assert Put(head) + "" + CRLF == Put(head) + CRLF;
    assert Put(head) + CRLF + (opts.body + CRLF) == Put(head) + CRLF + opts.body + CRLF;
  }

  lemma HasHeaders(opts: Options, from: string, stamp: Stamp)
    ensures HeaderLines(opts, from, stamp) != []
  {
  }

  // ---- The multipart body ----

  lemma {:induction false} SkipHeader(headers: seq<string>, rest: seq<string>, name: string)
    requires forall h <- headers :: !(name + ": " <= h)
    ensures Header(headers + rest, name) == Header(rest, name)
    decreases headers
  {
    if headers == [] {
      assert headers + rest == rest;
    } else {
      assert (headers + rest)[1..] == headers[1..] + rest;
      assert forall h <- headers[1..] :: h in headers;
      assert headers[0] in headers && (headers + rest)[0] == headers[0];
      SkipHeader(headers[1..], rest, name);
    }
  }

  lemma HeaderFirst(headers: seq<string>, name: string)
    requires headers != [] && name + ": " <= headers[0]
    ensures Header(headers, name) == Some(headers[0][|name| + 2..])
  {
  }

  lemma TypeLines(boundary: string)
    ensures "Content-Type" + ": " <= TextType() && "Content-Type" + ": " <= MixedType(boundary)
  {
    var name := "Content-Type" + ": ";
    assert TextType()[..14] == name;
    assert MixedType(boundary)[..14] == name;
  }

  lemma TypeHeaders(boundary: string)
    ensures Header(TextHeaders(), "Content-Type") == Some(TextType()[14..])
    ensures Header([MixedType(boundary)], "Content-Type") == Some(MixedType(boundary)[14..])
  {
    TypeLines(boundary);
    hide TextType, TextEncoding, MixedType, Header;
    HeaderFirst(TextHeaders(), "Content-Type");
    HeaderFirst([MixedType(boundary)], "Content-Type");
  }

  lemma TypeOf(opts: Options, from: string, stamp: Stamp)
    requires stamp.Valid()
    ensures Header(HeaderLines(opts, from, stamp), "Content-Type") ==
            Some(if opts.attachments == [] then TextType()[14..] else MixedType(stamp.Boundary())[14..])
  {
    var common := CommonHeaders(opts, from, stamp);
    CommonHeadersAreSolid(opts, from, stamp);
    hide CommonHeaders, Solid, TextHeaders, MixedType, Header;
    assert ("Content-Type" + ": ")[0] == 'C';
    if opts.attachments == [] {
      SkipHeader(common, TextHeaders(), "Content-Type");
      TypeHeaders("");
    } else {
      SkipHeader(common, [MixedType(stamp.Boundary())], "Content-Type");
      TypeHeaders(stamp.Boundary());
    }
  }

  lemma MixedPrefix()
    ensures "Content-Type: multipart/mixed; boundary=\"" == "Content-Type: " + MIXED
  {
  }

  lemma BoundaryOf(boundary: string)
    requires Clean(boundary)
    ensures MIXED <= MixedType(boundary)[14..] && UpTo(MixedType(boundary)[14..][|MIXED|..], '"') == boundary
  {
    var t := MixedType(boundary)[14..];
    MixedPrefix();
    assert MixedType(boundary) == "Content-Type: " + (MIXED + boundary + "\"");
    hide MixedType;
    assert t == MIXED + boundary + "\"";
    assert t[|MIXED|..] == boundary + ['"'] + "";
    UpToFirst(boundary, '"', "");
  }

  // ---- What a reader finds under each header name ----

  datatype Field =
    | From | To | Subject | Date | MessageId | InReplyTo | References | MimeVersion
    | ContentType | Disposition | Encoding

  function NameOf(f: Field): (name: string)
    ensures |name| > 0 && ':' !in name
  {
    match f
    case From => "From"
    case To => "To"
    case Subject => "Subject"
    case Date => "Date"
    case MessageId => "Message-ID"
    case InReplyTo => "In-Reply-To"
    case References => "References"
    case MimeVersion => "MIME-Version"
    case ContentType => "Content-Type"
    case Disposition => "Content-Disposition"
    case Encoding => "Content-Transfer-Encoding"
  }

  lemma NamesDiffer(f: Field, g: Field)
    requires NameOf(f) == NameOf(g)
    ensures f == g
  {
    var n, m := NameOf(f), NameOf(g);
    assert |n| == |m| && n[0] == m[0];
  }

  datatype Pair = Pair(field: Field, value: string)

  function LinesOf(pairs: seq<Pair>): seq<string> {
    if pairs == [] then [] else [NameOf(pairs[0].field) + ": " + pairs[0].value] + LinesOf(pairs[1..])
  }

  lemma PrefixNames(f: Field, g: Field, value: string)
    ensures NameOf(f) + ": " <= NameOf(g) + ": " + value <==> f == g
  {
    var p, l := NameOf(f) + ": ", NameOf(g) + ": " + value;
    if p <= l {
      hide NameOf;
      assert l[|NameOf(f)|] == ':' && p[|NameOf(f)|] == ':';
      assert l[|NameOf(g)|] == ':' && forall i | 0 <= i < |NameOf(f)| :: p[i] == NameOf(f)[i];
      if |NameOf(f)| < |NameOf(g)| { assert false; }
      if |NameOf(g)| < |NameOf(f)| { assert false; }
      assert NameOf(f) == p[..|NameOf(f)|] == l[..|NameOf(g)|] == NameOf(g);
      NamesDiffer(f, g);
    }
  }

  lemma {:induction false} HeaderIsFirst(pairs: seq<Pair>, k: nat)
    requires k < |pairs| && forall j | 0 <= j < k :: pairs[j].field != pairs[k].field
    ensures Header(LinesOf(pairs), NameOf(pairs[k].field)) == Some(pairs[k].value)
  {
    hide NameOf;
    PrefixNames(pairs[k].field, pairs[0].field, pairs[0].value);
    if k == 0 {
      var l := NameOf(pairs[0].field) + ": " + pairs[0].value;
      assert l[|NameOf(pairs[0].field)| + 2..] == pairs[0].value;
    } else {
      HeaderIsFirst(pairs[1..], k - 1);
    }
  }

  lemma {:induction false} HeaderIsMissing(pairs: seq<Pair>, f: Field)
    requires forall j | 0 <= j < |pairs| :: pairs[j].field != f
    ensures Header(LinesOf(pairs), NameOf(f)) == None
  {
    hide NameOf;
    if pairs != [] {
      PrefixNames(f, pairs[0].field, pairs[0].value);
      HeaderIsMissing(pairs[1..], f);
    }
  }

  lemma {:induction false} NamesAre(pairs: seq<Pair>)
    ensures |Names(LinesOf(pairs))| == |pairs|
    ensures forall k | 0 <= k < |pairs| :: Names(LinesOf(pairs))[k] == NameOf(pairs[k].field)
  {
    hide NameOf, UpTo;
    if pairs != [] {
      NamesAre(pairs[1..]);
      var name := NameOf(pairs[0].field);
      UpToFirst(name, ':', " " + pairs[0].value);
      assert name + ": " + pairs[0].value == name + [':'] + (" " + pairs[0].value);
    }
  }

  lemma {:induction false} LinesAppend(a: seq<Pair>, b: seq<Pair>)
    ensures LinesOf(a + b) == LinesOf(a) + LinesOf(b)
  {
    hide NameOf;
    if a == [] {
      assert a + b == b;
    } else {
      assert (a + b)[1..] == a[1..] + b;
      LinesAppend(a[1..], b);
    }
  }

  lemma {:induction false} LinesAt(pairs: seq<Pair>)
    ensures |LinesOf(pairs)| == |pairs|
    ensures forall k | 0 <= k < |pairs| :: LinesOf(pairs)[k] == NameOf(pairs[k].field) + ": " + pairs[k].value
  {
    hide NameOf;
    if pairs != [] { LinesAt(pairs[1..]); }
  }

  /** The headers of a message, from values that are already sanitised. */
  function Pairs(to: string, from: string, subject: string, reply: Option<string>, stamp: Stamp, rest: seq<Pair>)
    : seq<Pair>
  {
    [Pair(From, "<" + from + ">"), Pair(To, to), Pair(Subject, subject), Pair(Date, stamp.date),
     Pair(MessageId, "<" + stamp.uuid + "@hai.ai>")]
    + (if reply.None? then [] else [Pair(InReplyTo, reply.value), Pair(References, reply.value)])
    + [Pair(MimeVersion, "1.0")] + rest
  }

  function SimplePairs(): seq<Pair> {
    [Pair(ContentType, "text/plain; charset=utf-8"), Pair(Encoding, "8bit")]
  }

  function MixedPairs(stamp: Stamp): seq<Pair> {
    [Pair(ContentType, "multipart/mixed; boundary=\"hai-boundary-" + stamp.token + "\"")]
  }

  function FilePairs(f: File): seq<Pair> {
    [Pair(ContentType, f.contentType + "; name=\"" + f.name + "\""),
     Pair(Disposition, "attachment; filename=\"" + f.name + "\""), Pair(Encoding, "base64")]
  }

  lemma AddressLines(from: string, uuid: string)
    ensures "From: <" + from + ">" == NameOf(From) + ": " + ("<" + from + ">")
    ensures "Message-ID: <" + uuid + "@hai.ai>" == NameOf(MessageId) + ": " + ("<" + uuid + "@hai.ai>")
  {
    assert "From: <" == "From" + ": " + "<" && "Message-ID: <" == "Message-ID" + ": " + "<";
  }

  lemma PlainLines(v: string)
    ensures "To: " + v == NameOf(To) + ": " + v && "Subject: " + v == NameOf(Subject) + ": " + v
    ensures "Date: " + v == NameOf(Date) + ": " + v && "In-Reply-To: " + v == NameOf(InReplyTo) + ": " + v
    ensures "References: " + v == NameOf(References) + ": " + v
  {
    assert "To: " == "To" + ": " && "Subject: " == "Subject" + ": " && "Date: " == "Date" + ": ";
    assert "In-Reply-To: " == "In-Reply-To" + ": " && "References: " == "References" + ": ";
  }

  lemma VersionLine()
    ensures "MIME-Version: 1.0" == NameOf(MimeVersion) + ": " + "1.0"
  {
  }

  lemma AddressPairs(to: string, from: string, subject: string, stamp: Stamp)
    ensures LinesOf([Pair(From, "<" + from + ">"), Pair(To, to), Pair(Subject, subject), Pair(Date, stamp.date),
                     Pair(MessageId, "<" + stamp.uuid + "@hai.ai>")])
         == ["From: <" + from + ">", "To: " + to, "Subject: " + subject, "Date: " + stamp.date,
             "Message-ID: <" + stamp.uuid + "@hai.ai>"]
  {
    AddressLines(from, stamp.uuid);
    PlainLines(to);
    PlainLines(subject);
    PlainLines(stamp.date);
    hide NameOf, LinesOf;
    LinesAt([Pair(From, "<" + from + ">"), Pair(To, to), Pair(Subject, subject), Pair(Date, stamp.date),
             Pair(MessageId, "<" + stamp.uuid + "@hai.ai>")]);
  }

  lemma SafeHeadersAre(to: string, from: string, subject: string, reply: Option<string>, stamp: Stamp, rest: seq<Pair>)
    ensures SafeHeaders(to, from, subject, reply, stamp) + LinesOf(rest)
         == LinesOf(Pairs(to, from, subject, reply, stamp, rest))
  {
    var a := [Pair(From, "<" + from + ">"), Pair(To, to), Pair(Subject, subject), Pair(Date, stamp.date),
              Pair(MessageId, "<" + stamp.uuid + "@hai.ai>")];
    var b := if reply.None? then [] else [Pair(InReplyTo, reply.value), Pair(References, reply.value)];
    var c := [Pair(MimeVersion, "1.0")];
    AddressPairs(to, from, subject, stamp);
    LinesAt(b);
    LinesAt(c);
    VersionLine();
    if reply.Some? { PlainLines(reply.value); }
    hide NameOf;
    assert LinesOf(c) == ["MIME-Version: 1.0"];
    assert reply.Some? ==> LinesOf(b) == ["In-Reply-To: " + reply.value, "References: " + reply.value];
    LinesAppend(a, b);
    LinesAppend(a + b, c);
    LinesAppend(a + b + c, rest);
    assert reply.None? ==> LinesOf(b) == [];
    hide LinesOf;
  }

  lemma TextTypeLine()
    ensures TextType() == NameOf(ContentType) + ": " + "text/plain; charset=utf-8"
  {
  }

  lemma TextEncodingLine()
    ensures TextEncoding() == NameOf(Encoding) + ": " + "8bit"
  {
  }

  lemma TextLinesAre()
    ensures TextHeaders() == LinesOf(SimplePairs())
  {
    TextTypeLine();
    TextEncodingLine();
    hide TextType, TextEncoding, LinesOf, NameOf;
    LinesAt(SimplePairs());
  }

  lemma MixedLineIs(stamp: Stamp)
    ensures [MixedType(stamp.Boundary())] == LinesOf(MixedPairs(stamp))
  {
    var mixed := MixedPairs(stamp);
    MixedLine(stamp.token);
    assert MixedType(stamp.Boundary()) == "Content-Type" + ": " + mixed[0].value;
    hide MixedType, LinesOf;
    LinesAt(mixed);
  }

  lemma MixedPrefixes()
    ensures "multipart/mixed; boundary=\"hai-boundary-" == MIXED + "hai-boundary-"
    ensures "Content-Type" + ": " == "Content-Type: "
  {
  }

  lemma MixedLine(token: string)
    ensures "Content-Type: multipart/mixed; boundary=\"" + ("hai-boundary-" + token) + "\""
         == "Content-Type" + ": " + ("multipart/mixed; boundary=\"hai-boundary-" + token + "\"")
  {
    MixedPrefix();
    MixedPrefixes();
    hide MIXED;
    assert "Content-Type: " + MIXED + ("hai-boundary-" + token) + "\""
        == "Content-Type: " + (MIXED + "hai-boundary-" + token + "\"");
  }

  lemma FileLinesAre(f: File)
    ensures FileHeaders(f) == LinesOf(FilePairs(f))
  {
    var pairs := FilePairs(f);
    assert FileType(f) == "Content-Type" + ": " + pairs[0].value;
    assert FileDisposition(f) == "Content-Disposition" + ": " + pairs[1].value by { DispositionLine(f.name); }
    assert FileEncoding() == "Content-Transfer-Encoding" + ": " + pairs[2].value;
    hide FileType, FileDisposition, FileEncoding, LinesOf;
    LinesAt(pairs);
  }

  lemma DispositionLine(name: string)
    ensures "Content-Disposition: attachment; filename=\"" + name + "\""
         == "Content-Disposition" + ": " + ("attachment; filename=\"" + name + "\"")
  {
    assert "Content-Disposition: attachment; filename=\"" == "Content-Disposition" + ": " + "attachment; filename=\"";
  }

  lemma HeaderLinesAre(opts: Options, from: string, stamp: Stamp)
    ensures HeaderLines(opts, from, stamp) ==
            LinesOf(Pairs(SanitizeHeader(opts.to), SanitizeHeader(from), SanitizeHeader(opts.subject),
                          if opts.inReplyTo == "" then None else Some(SanitizeHeader(opts.inReplyTo)), stamp,
                          if opts.attachments == [] then SimplePairs() else MixedPairs(stamp)))
  {
    hide SafeHeaders, SanitizeHeader, TextHeaders, MixedType, LinesOf, Pairs;
    TextLinesAre();
    MixedLineIs(stamp);
    SafeHeadersAre(SanitizeHeader(opts.to), SanitizeHeader(from), SanitizeHeader(opts.subject),
                   if opts.inReplyTo == "" then None else Some(SanitizeHeader(opts.inReplyTo)), stamp,
                   if opts.attachments == [] then SimplePairs() else MixedPairs(stamp));
  }

  lemma FirstFive(to: string, from: string, subject: string, reply: Option<string>, stamp: Stamp, rest: seq<Pair>)
    ensures var h := LinesOf(Pairs(to, from, subject, reply, stamp, rest));
            && Header(h, NameOf(From)) == Some("<" + from + ">") && Header(h, NameOf(To)) == Some(to)
            && Header(h, NameOf(Subject)) == Some(subject) && Header(h, NameOf(Date)) == Some(stamp.date)
            && Header(h, NameOf(MessageId)) == Some("<" + stamp.uuid + "@hai.ai>")
  {
    hide NameOf, Header, LinesOf;
    var pairs := Pairs(to, from, subject, reply, stamp, rest);
    HeaderIsFirst(pairs, 0);
    HeaderIsFirst(pairs, 1);
    HeaderIsFirst(pairs, 2);
    HeaderIsFirst(pairs, 3);
    HeaderIsFirst(pairs, 4);
  }

  lemma OtherPairs(to: string, from: string, subject: string, reply: Option<string>, stamp: Stamp, rest: seq<Pair>)
    requires forall p <- rest :: p.field.ContentType? || p.field.Encoding?
    ensures var h := LinesOf(Pairs(to, from, subject, reply, stamp, rest));
            && Header(h, NameOf(InReplyTo)) == reply && Header(h, NameOf(References)) == reply
            && Header(h, NameOf(MimeVersion)) == Some("1.0")
  {
    hide NameOf, Header, LinesOf;
    var pairs := Pairs(to, from, subject, reply, stamp, rest);
    if reply.Some? {
      HeaderIsFirst(pairs, 5);
      HeaderIsFirst(pairs, 6);
      HeaderIsFirst(pairs, 7);
    } else {
      forall j | 0 <= j < |pairs| ensures !pairs[j].field.InReplyTo? && !pairs[j].field.References? {
        if j >= 6 { assert pairs[j] == rest[j - 6] && rest[j - 6] in rest; }
      }
      HeaderIsMissing(pairs, InReplyTo);
      HeaderIsMissing(pairs, References);
      HeaderIsFirst(pairs, 5);
    }
  }

  lemma TypePairs(to: string, from: string, subject: string, reply: Option<string>, stamp: Stamp, rest: seq<Pair>)
    requires rest != [] && rest[0].field == ContentType
    requires rest[1..] == [] || (|rest| == 2 && rest[1].field == Encoding)
    ensures var h := LinesOf(Pairs(to, from, subject, reply, stamp, rest));
            && Header(h, NameOf(ContentType)) == Some(rest[0].value)
            && Header(h, NameOf(Encoding)) == if |rest| == 2 then Some(rest[1].value) else None
  {
    hide NameOf, Header, LinesOf;
    var pairs := Pairs(to, from, subject, reply, stamp, rest);
    var n := |pairs| - |rest|;
    assert pairs[n] == rest[0];
    HeaderIsFirst(pairs, n);
    if |rest| == 2 {
      assert pairs[n + 1] == rest[1];
      HeaderIsFirst(pairs, n + 1);
    } else {
      HeaderIsMissing(pairs, Encoding);
    }
  }

  /**
    What a reader finds in a built message under each header name, and that there are no other headers: sender and
    recipient, subject, date and id, the message replied to if there is one, and how the body is to be read.
  */
  lemma HeadersAreRead(opts: Options, from: string, stamp: Stamp)
    requires stamp.Valid() && Files(opts.attachments).Ok?
    ensures var h := ReadEntity(SplitCrlf(Message(opts, from, stamp).value)).headers;
            && Header(h, "From") == Some("<" + SanitizeHeader(from) + ">")
            && Header(h, "To") == Some(SanitizeHeader(opts.to))
            && Header(h, "Subject") == Some(SanitizeHeader(opts.subject))
            && Header(h, "Date") == Some(stamp.date)
            && Header(h, "Message-ID") == Some("<" + stamp.uuid + "@hai.ai>")
    ensures var h := ReadEntity(SplitCrlf(Message(opts, from, stamp).value)).headers;
            && Header(h, "In-Reply-To") == (if opts.inReplyTo == "" then None else Some(SanitizeHeader(opts.inReplyTo)))
            && Header(h, "References") == Header(h, "In-Reply-To")
            && Header(h, "MIME-Version") == Some("1.0")
    ensures var h := ReadEntity(SplitCrlf(Message(opts, from, stamp).value)).headers;
            if opts.attachments == [] then
              && Header(h, "Content-Type") == Some("text/plain; charset=utf-8")
              && Header(h, "Content-Transfer-Encoding") == Some("8bit")
            else
              && Header(h, "Content-Type") == Some("multipart/mixed; boundary=\"hai-boundary-" + stamp.token + "\"")
              && Header(h, "Content-Transfer-Encoding") == None
  {
    hide SplitCrlf, ReadEntity, HeaderLines, Header, Files, Message, Pairs, LinesOf, SanitizeHeader, NameOf, Clean;
    MessageLines(opts, from, stamp);
    HeaderLinesAre(opts, from, stamp);
    NameLiterals();
    var to, sender, subject := SanitizeHeader(opts.to), SanitizeHeader(from), SanitizeHeader(opts.subject);
    var reply := if opts.inReplyTo == "" then None else Some(SanitizeHeader(opts.inReplyTo));
    var rest := if opts.attachments == [] then SimplePairs() else MixedPairs(stamp);
    FirstFive(to, sender, subject, reply, stamp, rest);
    OtherPairs(to, sender, subject, reply, stamp, rest);
    TypePairs(to, sender, subject, reply, stamp, rest);
  }

  lemma NameLiterals()
    ensures NameOf(From) == "From" && NameOf(To) == "To" && NameOf(Subject) == "Subject" && NameOf(Date) == "Date"
    ensures NameOf(MessageId) == "Message-ID" && NameOf(InReplyTo) == "In-Reply-To"
    ensures NameOf(References) == "References" && NameOf(MimeVersion) == "MIME-Version"
    ensures NameOf(ContentType) == "Content-Type" && NameOf(Encoding) == "Content-Transfer-Encoding"
  {
  }

  /** The header lines come in this order, and there are no others. */
  lemma HeaderNamesAreRead(opts: Options, from: string, stamp: Stamp)
    requires stamp.Valid() && Files(opts.attachments).Ok?
    ensures Names(ReadEntity(SplitCrlf(Message(opts, from, stamp).value)).headers) ==
            ["From", "To", "Subject", "Date", "Message-ID"]
            + (if opts.inReplyTo == "" then [] else ["In-Reply-To", "References"])
            + ["MIME-Version", "Content-Type"]
            + (if opts.attachments == [] then ["Content-Transfer-Encoding"] else [])
  {
    hide SplitCrlf, ReadEntity, HeaderLines, Names, Files, Message, Pairs, LinesOf, SanitizeHeader, Clean;
    MessageLines(opts, from, stamp);
    HeaderLinesAre(opts, from, stamp);
    PairNames(SanitizeHeader(opts.to), SanitizeHeader(from), SanitizeHeader(opts.subject),
              if opts.inReplyTo == "" then None else Some(SanitizeHeader(opts.inReplyTo)), stamp,
              if opts.attachments == [] then SimplePairs() else MixedPairs(stamp));
  }

  lemma PairNames(to: string, from: string, subject: string, reply: Option<string>, stamp: Stamp, rest: seq<Pair>)
    requires rest != [] && rest[0].field == ContentType
    requires rest[1..] == [] || (|rest| == 2 && rest[1].field == Encoding)
    ensures Names(LinesOf(Pairs(to, from, subject, reply, stamp, rest))) ==
            ["From", "To", "Subject", "Date", "Message-ID"]
            + (if reply.None? then [] else ["In-Reply-To", "References"])
            + ["MIME-Version", "Content-Type"]
            + (if |rest| == 2 then ["Content-Transfer-Encoding"] else [])
  {
    hide LinesOf, Names, NameOf;
    NameLiterals();
    NamesAre(Pairs(to, from, subject, reply, stamp, rest));
  }

  /** A simple message is read back with its headers and its body, to which the builder adds one CRLF. */
  lemma SimpleRoundTrip(opts: Options, from: string, stamp: Stamp)
    requires stamp.Valid() && opts.attachments == []
    ensures ReadMail(Message(opts, from, stamp).value) == Some(Simple(HeaderLines(opts, from, stamp), opts.body + CRLF))
  {
    hide SplitCrlf, ReadEntity, HeaderLines, Header;
    MessageLines(opts, from, stamp);
    TypeOf(opts, from, stamp);
    assert TextType()[14..][0] == 't';
    PutSplit(opts.body);
    JoinAppend(SplitCrlf(opts.body), [""]);
    assert opts.body + CRLF + "" == opts.body + CRLF;
  }

  function FileEntity(f: File): Entity {
    Entity(FileHeaders(f), Slices(EncodeStd(f.data)))
  }

  function FileEntities(files: seq<File>): seq<Entity> {
    if files == [] then [] else [FileEntity(files[0])] + FileEntities(files[1..])
  }

  lemma {:induction false} FlattenedSlices(s: string)
    requires '\r' !in s && '\n' !in s
    ensures StripNewlines(JoinCrlf(Slices(s))) == s
  {
    if |s| <= WIDTH {
      StripNothing(s);
    } else {
      var x, y := s[..WIDTH], s[WIDTH..];
      FlattenedSlices(y);
      StripNothing(x);
      assert Slices(y) != [] && Slices(s) == [x] + Slices(y) && Slices(s)[1..] == Slices(y);
      StripAppend(x + CRLF, JoinCrlf(Slices(y)));
      StripAppend(x, CRLF);
      assert StripNewlines(CRLF) == "" by { assert CRLF[1..][1..] == ""; }
      assert x + "" == x && s == x + y;
    }
  }

  lemma FileIsRead(f: File)
    requires Clean(f.contentType) && Clean(f.name)
    ensures ReadFile(FileEntity(f)) == Some(f)
  {
    hide StripNewlines, JoinCrlf, Slices, EncodeStd;
    EncodeStdText(f.data);
    FlattenedSlices(EncodeStd(f.data));
    DecodeStdEncodeStd(JoinCrlf(Slices(EncodeStd(f.data))), f.data);
    hide DecodeStd, FileHeaders;
    FileHeadersAre(f);
    FileTypeReads(f);
    FileDispositionReads(f);
    hide FileType, FileDisposition;
  }

  lemma FileTypeReads(f: File)
    requires Clean(f.contentType) && Clean(f.name)
    ensures var t := FileType(f)[14..];
            UpTo(t, '"') == f.contentType + NAMED && UpTo(Behind(t, '"'), '"') == f.name
    ensures (f.contentType + NAMED)[|f.contentType|..] == NAMED
    ensures (f.contentType + NAMED)[..|f.contentType|] == f.contentType
  {
    var typ := f.contentType + NAMED;
    assert FileType(f)[14..] == typ + ['"'] + (f.name + "\"");
    assert '"' !in NAMED;
    UpToFirst(typ, '"', f.name + "\"");
    assert f.name + "\"" == f.name + ['"'] + "";
    UpToFirst(f.name, '"', "");
  }

  lemma FileDispositionReads(f: File)
    requires Clean(f.name)
    ensures var d := FileDisposition(f)[21..];
            ATTACHED <= d && UpTo(d[|ATTACHED|..], '"') == f.name
  {
    var d := FileDisposition(f)[21..];
    assert d == ATTACHED + (f.name + ['"'] + "");
    assert d[|ATTACHED|..] == f.name + ['"'] + "";
    UpToFirst(f.name, '"', "");
  }

  lemma FileHeadersAre(f: File)
    ensures Header(FileHeaders(f), "Content-Type") == Some(FileType(f)[14..])
    ensures Header(FileHeaders(f), "Content-Disposition") == Some(FileDisposition(f)[21..])
  {
    var name := "Content-Disposition" + ": ";
    assert FileType(f)[8] == 'T' && name[8] == 'D';
    assert !(name <= FileType(f));
    assert FileHeaders(f)[1..] == [FileDisposition(f), FileEncoding()];
    assert "Content-Type" + ": " <= FileType(f);
    assert name <= FileDisposition(f);
  }

  lemma {:induction false} FilesAreRead(files: seq<File>)
    requires forall f <- files :: Clean(f.contentType) && Clean(f.name)
    ensures ReadFiles(FileEntities(files)) == Some(files)
  {
    hide ReadFile, FileEntity;
    if files != [] {
      FileIsRead(files[0]);
      assert forall f <- files[1..] :: f in files;
      FilesAreRead(files[1..]);
      assert files == [files[0]] + files[1..];
    }
  }

  // ---- Cutting the body at the delimiters ----

  lemma {:induction false} FileLinesCons(boundary: string, files: seq<File>)
    requires files != []
    ensures FileLines(boundary, files) == FileSection(boundary, files[0]) + FileLines(boundary, files[1..])
  {
    hide FileSection, FileLines;
    var n := |files| - 1;
    assert files == files[..n] + [files[n]];
    FileLinesSnoc(boundary, files[..n], files[n]);
    NoFileLines(boundary);
    if n == 0 {
      assert files[..0] == [] && files[1..] == [];
    } else {
      FileLinesCons(boundary, files[..n]);
      assert files[1..] == files[..n][1..] + [files[n]];
      FileLinesSnoc(boundary, files[..n][1..], files[n]);
    }
  }

  /** One part, up to the first delimiter line. */
  lemma NextPart(boundary: string, first: seq<string>, d: string, after: seq<string>)
    requires (forall l <- first :: !IsDelimiter(boundary, l)) && IsDelimiter(boundary, d)
    ensures ReadParts(boundary, first + [d] + after) ==
            if IsClosing(boundary, d) then Some([ReadEntity(first)])
            else match ReadParts(boundary, after)
              case None => None
              case Some(rest) => Some([ReadEntity(first)] + rest)
    ensures ReadMultipart(boundary, first + [d] + after) ==
            if IsClosing(boundary, d) then None else ReadParts(boundary, after)
  {
    hide IsDelimiter, IsClosing, ReadEntity;
    NextDelimiterIs(boundary, first, d, after);
    assert (first + [d] + after)[|first|] == d;
  }

  /** Behind a first part without delimiter lines come the parts of the files, and then the end. */
  lemma {:induction false} PartsAreRead(boundary: string, first: seq<string>, files: seq<File>, after: seq<string>)
    requires Clean(boundary) && forall f <- files :: Clean(f.contentType) && Clean(f.name)
    requires forall l <- first :: !IsDelimiter(boundary, l)
    ensures ReadParts(boundary, first + FileLines(boundary, files) + [Closing(boundary)] + after)
         == Some([ReadEntity(first)] + FileEntities(files))
    decreases |files|
  {
    hide FileSection, ReadEntity, ReadParts, IsDelimiter, IsClosing, Delimiter, Closing, FileLines, FileEntity, Clean;
    DelimitersAreSolid(boundary);
    if files == [] {
      NoFileLines(boundary);
      assert first + [] == first;
      NextPart(boundary, first, Closing(boundary), after);
      assert [ReadEntity(first)] + FileEntities([]) == [ReadEntity(first)];
    } else {
      var f, others := files[0], files[1..];
      assert forall g <- others :: g in files;
      var part := FileHeaders(f) + [""] + Slices(EncodeStd(f.data));
      hide FileHeaders, Slices;
      var rest := part + FileLines(boundary, others) + [Closing(boundary)] + after;
      FileLinesCons(boundary, files);
      SectionIs(boundary, f);
      assert first + FileLines(boundary, files) + [Closing(boundary)] + after == first + [Delimiter(boundary)] + rest;
      NextPart(boundary, first, Delimiter(boundary), rest);
      SectionIsOneLines(boundary, f);
      PartsAreRead(boundary, part, others, after);
      FilePartIs(f);
    }
  }

  lemma SectionIs(boundary: string, f: File)
    ensures FileSection(boundary, f) == [Delimiter(boundary)] + (FileHeaders(f) + [""] + Slices(EncodeStd(f.data)))
  {
  }

  lemma FilePartIs(f: File)
    ensures ReadEntity(FileHeaders(f) + [""] + Slices(EncodeStd(f.data))) == FileEntity(f)
  {
    assert "" !in FileHeaders(f);
    EntityOf(FileHeaders(f), Slices(EncodeStd(f.data)));
  }

  lemma TextPartIs(boundary: string, body: seq<string>)
    requires boundary != ""
    ensures ReadEntity(TextHeaders() + [""] + body) == Entity(TextHeaders(), body)
    ensures (forall l <- body :: !IsDelimiter(boundary, l)) ==>
              forall l <- TextHeaders() + [""] + body :: !IsDelimiter(boundary, l)
  {
    assert "" !in TextHeaders() && TextType()[0] == 'C' == TextEncoding()[0];
    EntityOf(TextHeaders(), body);
    hide TextType, TextEncoding;
  }

  lemma ShorterPrefix(lines: seq<string>, k: nat)
    requires k < |lines| && lines[k] != ""
    ensures JoinCrlf(lines[..k]) != JoinCrlf(lines)
  {
    assert lines == lines[..k] + lines[k..];
    if k > 0 { JoinAppend(lines[..k], lines[k..]); }
  }

  predicate NoDelimiterLine(boundary: string, body: string) {
    forall l <- SplitCrlf(body) :: !IsDelimiter(boundary, l)
  }

  /** The message body read as a multipart body, when nothing in the text looks like a delimiter. */
  lemma MultipartIsRead(boundary: string, body: string, files: seq<File>)
    requires Clean(boundary) && boundary != "" && forall f <- files :: Clean(f.contentType) && Clean(f.name)
    requires NoDelimiterLine(boundary, body)
    ensures ReadMultipart(boundary, MixedLines(boundary, body, files))
         == Some([Entity(TextHeaders(), SplitCrlf(body))] + FileEntities(files))
  {
    hide SplitCrlf, IsDelimiter, IsClosing, Delimiter, Closing, FileLines, Clean, TextHeaders, ReadParts, ReadMultipart;
    var first := TextHeaders() + [""] + SplitCrlf(body);
    var rest := first + FileLines(boundary, files) + [Closing(boundary)] + [""];
    DelimitersAreSolid(boundary);
    assert MixedLines(boundary, body, files) == [] + [Delimiter(boundary)] + rest;
    NextPart(boundary, [], Delimiter(boundary), rest);
    TextPartIs(boundary, SplitCrlf(body));
    PartsAreRead(boundary, first, files, [""]);
  }

  /** When some line of the text does look like one, the text is cut there. */
  lemma TextIsCut(boundary: string, body: string, files: seq<File>)
    requires Clean(boundary) && boundary != "" && !NoDelimiterLine(boundary, body)
    ensures match ReadMultipart(boundary, MixedLines(boundary, body, files))
            case None => true
            case Some(parts) => parts != [] && JoinCrlf(parts[0].body) != body
  {
    hide SplitCrlf, IsClosing, IsDelimiter, Delimiter, Closing, FileLines, Clean, TextHeaders;
    hide ReadParts, ReadMultipart, JoinCrlf;
    var lines := SplitCrlf(body);
    var k := NextDelimiter(boundary, lines);
    assert k < |lines| by {
      var l :| l in lines && IsDelimiter(boundary, l);
      var i :| 0 <= i < |lines| && lines[i] == l;
    }
    var first := TextHeaders() + [""] + lines[..k];
    var after := lines[k + 1..] + FileLines(boundary, files) + [Closing(boundary)] + [""];
    DelimitersAreSolid(boundary);
    assert lines == lines[..k] + [lines[k]] + lines[k + 1..];
    assert MixedLines(boundary, body, files) == [] + [Delimiter(boundary)] + (first + [lines[k]] + after);
    NextPart(boundary, [], Delimiter(boundary), first + [lines[k]] + after);
    TextPartIs(boundary, lines[..k]);
    NextPart(boundary, first, lines[k], after);
    PutSplit(body);
    DelimiterNotEmpty(boundary, lines[k]);
    ShorterPrefix(lines, k);
  }

  lemma DelimiterNotEmpty(boundary: string, l: string)
    requires IsDelimiter(boundary, l)
    ensures l != ""
  {
  }

  function MixedLines(boundary: string, body: string, files: seq<File>): seq<string> {
    [Delimiter(boundary)] + TextHeaders() + [""] + SplitCrlf(body)
    + FileLines(boundary, files) + [Closing(boundary)] + [""]
  }

  /**
    A message with attachments is read back exactly, with its headers, its body, and every attachment's
    sanitised type, sanitised name and bytes in order, if and only if no line of the body starts with "--"
    and the boundary.
  */
  lemma MixedRoundTrip(opts: Options, from: string, stamp: Stamp)
    requires stamp.Valid() && opts.attachments != [] && Files(opts.attachments).Ok?
    ensures ReadMail(Message(opts, from, stamp).value)
         == Some(Mixed(HeaderLines(opts, from, stamp), opts.body, Files(opts.attachments).value))
       <==> NoDelimiterLine(stamp.Boundary(), opts.body)
  {
    hide SplitCrlf, ReadEntity, HeaderLines, Header, Files, Message, ReadMultipart, UpTo;
    hide Delimiter, Closing, TextHeaders, FileLines, Clean, NoDelimiterLine;
    hide MIXED, MixedType, FileEntities, ReadFiles, JoinCrlf;
    var files, b := Files(opts.attachments).value, stamp.Boundary();
    BoundaryIsClean(stamp);
    FilesAreClean(opts.attachments);
    MessageLines(opts, from, stamp);
    TypeOf(opts, from, stamp);
    BoundaryOf(b);
    assert BodyLines(opts, stamp, files) + [""] == MixedLines(b, opts.body, files);
    if NoDelimiterLine(b, opts.body) {
      MultipartIsRead(b, opts.body, files);
      PutSplit(opts.body);
      FilesAreRead(files);
      assert ([Entity(TextHeaders(), SplitCrlf(opts.body))] + FileEntities(files))[1..] == FileEntities(files);
    } else {
      TextIsCut(b, opts.body, files);
    }
  }

  lemma FilePartHeaders(f: File)
    ensures Header(FileHeaders(f), "Content-Type") == Some(f.contentType + "; name=\"" + f.name + "\"")
    ensures Header(FileHeaders(f), "Content-Disposition") == Some("attachment; filename=\"" + f.name + "\"")
    ensures Header(FileHeaders(f), "Content-Transfer-Encoding") == Some("base64")
  {
    hide Header, LinesOf, FileHeaders;
    FileLinesAre(f);
    HeaderIsFirst(FilePairs(f), 0);
    HeaderIsFirst(FilePairs(f), 1);
    HeaderIsFirst(FilePairs(f), 2);
  }

  lemma TextPartHeaders()
    ensures Header(TextHeaders(), "Content-Type") == Some("text/plain; charset=utf-8")
    ensures Header(TextHeaders(), "Content-Transfer-Encoding") == Some("8bit")
  {
    hide Header, LinesOf, TextHeaders;
    TextLinesAre();
    HeaderIsFirst(SimplePairs(), 0);
    HeaderIsFirst(SimplePairs(), 1);
  }

  lemma {:induction false} EntitiesAt(files: seq<File>)
    ensures |FileEntities(files)| == |files|
    ensures forall i | 0 <= i < |files| :: FileEntities(files)[i] == FileEntity(files[i])
  {
    hide FileEntity;
    if files != [] { EntitiesAt(files[1..]); }
  }

  /**
    The parts of a multipart message, if nothing in the body looks like a delimiter: the body as plain text, and for
    each attachment, in order, its own sanitised type and name under the three headers a mail reader looks at.
  */
  lemma PartsAre(opts: Options, from: string, stamp: Stamp)
    requires stamp.Valid() && opts.attachments != [] && Files(opts.attachments).Ok?
    requires NoDelimiterLine(stamp.Boundary(), opts.body)
    ensures var parts := ReadMultipart(stamp.Boundary(), ReadEntity(SplitCrlf(Message(opts, from, stamp).value)).body);
            && parts.Some? && |parts.value| == 1 + |opts.attachments| && JoinCrlf(parts.value[0].body) == opts.body
            && Header(parts.value[0].headers, "Content-Type") == Some("text/plain; charset=utf-8")
            && Header(parts.value[0].headers, "Content-Transfer-Encoding") == Some("8bit")
            && forall i | 0 <= i < |opts.attachments| ::
                 var att, h := opts.attachments[i], parts.value[i + 1].headers;
                 var name := SanitizeHeader(att.filename);
                 && Header(h, "Content-Type") == Some(SanitizeHeader(att.contentType) + "; name=\"" + name + "\"")
                 && Header(h, "Content-Disposition") == Some("attachment; filename=\"" + name + "\"")
                 && Header(h, "Content-Transfer-Encoding") == Some("base64")
  {
    hide SplitCrlf, ReadEntity, Header, Files, Message, ReadMultipart, Readable, SanitizeHeader, Stamp.Valid;
    hide TextHeaders, NoDelimiterLine, JoinCrlf, FileEntities, Stamp.Boundary, DecodeStd;
    FilesAre(opts.attachments);
    MixedIsRead(opts, from, stamp);
    PutSplit(opts.body);
    TextPartHeaders();
    FilePartsHeaders(Files(opts.attachments).value);
  }

  lemma MixedIsRead(opts: Options, from: string, stamp: Stamp)
    requires stamp.Valid() && opts.attachments != [] && Files(opts.attachments).Ok?
    requires NoDelimiterLine(stamp.Boundary(), opts.body)
    ensures ReadMultipart(stamp.Boundary(), ReadEntity(SplitCrlf(Message(opts, from, stamp).value)).body)
         == Some([Entity(TextHeaders(), SplitCrlf(opts.body))] + FileEntities(Files(opts.attachments).value))
  {
    hide SplitCrlf, ReadEntity, HeaderLines, Files, Message, ReadMultipart, BodyLines, MixedLines, FileEntities;
    hide TextHeaders, Clean, NoDelimiterLine;
    BoundaryIsClean(stamp);
    FilesAreClean(opts.attachments);
    MessageLines(opts, from, stamp);
    MixedBody(opts, stamp, Files(opts.attachments).value);
    MultipartIsRead(stamp.Boundary(), opts.body, Files(opts.attachments).value);
  }

  lemma FilePartsHeaders(files: seq<File>)
    ensures |FileEntities(files)| == |files|
    ensures forall i | 0 <= i < |files| ::
              var h, name := FileEntities(files)[i].headers, files[i].name;
              && Header(h, "Content-Type") == Some(files[i].contentType + "; name=\"" + name + "\"")
              && Header(h, "Content-Disposition") == Some("attachment; filename=\"" + name + "\"")
              && Header(h, "Content-Transfer-Encoding") == Some("base64")
  {
    hide Header, FileHeaders, FileEntities, EncodeStd, Slices;
    EntitiesAt(files);
    forall i | 0 <= i < |files|
      ensures var h, name := FileEntities(files)[i].headers, files[i].name;
              && Header(h, "Content-Type") == Some(files[i].contentType + "; name=\"" + name + "\"")
              && Header(h, "Content-Disposition") == Some("attachment; filename=\"" + name + "\"")
              && Header(h, "Content-Transfer-Encoding") == Some("base64")
    {
      FilePartHeaders(files[i]);
    }
  }

  lemma MixedBody(opts: Options, stamp: Stamp, files: seq<File>)
    requires opts.attachments != []
    ensures BodyLines(opts, stamp, files) + [""] == MixedLines(stamp.Boundary(), opts.body, files)
  {
  }
}
