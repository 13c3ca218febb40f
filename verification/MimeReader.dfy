/**
  The reading side of a mail message: lines end in CRLF, headers stop at the first empty line
  (section 2.2 of RFC 5322) and a multipart body is cut at the lines that begin with "--" and the
  boundary (section 5.1.1 of RFC 2046). This is the partner the builder is proved against.
*/
module MimeReader {
  import opened Wrappers
  import opened Base64

  const CRLF := "\r\n"

  function Put(lines: seq<string>): string {
    if lines == [] then "" else lines[0] + CRLF + Put(lines[1..])
  }

  function SplitCrlf(s: string): (lines: seq<string>)
    ensures |lines| > 0
  {
    if s == "" then [""]
    else if CRLF <= s then [""] + SplitCrlf(s[2..])
    else var rest := SplitCrlf(s[1..]); [[s[0]] + rest[0]] + rest[1..]
  }

  function JoinCrlf(lines: seq<string>): string {
    if lines == [] then "" else if |lines| == 1 then lines[0] else lines[0] + CRLF + JoinCrlf(lines[1..])
  }

  /** A single line: it may hold a lone CR or LF, but not the two in a row. */
  predicate OneLine(l: string) {
    forall i | 0 <= i < |l| - 1 :: !(l[i] == '\r' && l[i + 1] == '\n')
  }

  lemma {:induction false} PutAppend(a: seq<string>, b: seq<string>)
    ensures Put(a + b) == Put(a) + Put(b)
  {
    if a == [] {
      assert a + b == b;
    } else {
      assert (a + b)[1..] == a[1..] + b;
      PutAppend(a[1..], b);
    }
  }

  lemma PutSnoc(lines: seq<string>, l: string)
    ensures Put(lines + [l]) == Put(lines) + l + CRLF
  {
    PutAppend(lines, [l]);
    assert Put([l]) == l + CRLF + "" == l + CRLF;
    assert Put(lines) + (l + CRLF) == Put(lines) + l + CRLF;
  }

  lemma {:induction false} SplitLine(l: string, rest: string)
    requires OneLine(l)
    ensures SplitCrlf(l + CRLF + rest) == [l] + SplitCrlf(rest)
  {
    if l == "" {
      assert l + CRLF + rest == CRLF + rest;
      assert (CRLF + rest)[2..] == rest;
    } else {
      var s := l + CRLF + rest;
      assert s[1..] == l[1..] + CRLF + rest;
      assert s[0] == l[0] && s[1] == (if |l| >= 2 then l[1] else '\r');
      SplitLine(l[1..], rest);
      assert l == [l[0]] + l[1..];
    }
  }

  /** Lines written out one by one are the lines read back. */
  lemma {:induction false} SplitPut(lines: seq<string>)
    requires forall l <- lines :: OneLine(l)
    ensures SplitCrlf(Put(lines)) == lines + [""]
  {
    if lines != [] {
      assert forall l <- lines[1..] :: l in lines;
      SplitPut(lines[1..]);
      SplitLine(lines[0], Put(lines[1..]));
      assert lines[0] + CRLF + Put(lines[1..]) == Put(lines);
      assert [lines[0]] + (lines[1..] + [""]) == lines + [""];
    }
  }

  lemma PutJoin(l: string, rest: seq<string>)
    ensures Put([l] + rest) == l + CRLF + Put(rest)
    ensures JoinCrlf([l] + rest) == if rest == [] then l else l + CRLF + JoinCrlf(rest)
  {
    assert ([l] + rest)[1..] == rest;
  }

  /** Any text followed by CRLF is its own lines written out. */
  lemma {:induction false} PutSplit(s: string)
    ensures Put(SplitCrlf(s)) == s + CRLF && JoinCrlf(SplitCrlf(s)) == s
  {
    hide Put, JoinCrlf;
    if s == "" {
      PutJoin("", []);
      assert Put([]) == "" by { PutNothing(); }
      assert [""] + [] == [""];
    } else if CRLF <= s {
      var rest := SplitCrlf(s[2..]);
      PutSplit(s[2..]);
      PutJoin("", rest);
      assert s == CRLF + s[2..];
      assert "" + CRLF + (s[2..] + CRLF) == s + CRLF;
    } else {
      var rest := SplitCrlf(s[1..]);
      PutSplit(s[1..]);
      Lengthen(s[0], rest);
      assert s == [s[0]] + s[1..];
      assert [s[0]] + (s[1..] + CRLF) == s + CRLF;
    }
  }

  lemma Lengthen(c: char, lines: seq<string>)
    requires lines != []
    ensures var longer := [[c] + lines[0]] + lines[1..];
            Put(longer) == [c] + Put(lines) && JoinCrlf(longer) == [c] + JoinCrlf(lines)
  {
    hide Put, JoinCrlf;
    var first, others := lines[0], lines[1..];
    assert lines == [first] + others;
    PutJoin([c] + first, others);
    PutJoin(first, others);
    assert [c] + first + CRLF + Put(others) == [c] + (first + CRLF + Put(others));
    assert [c] + first + CRLF + JoinCrlf(others) == [c] + (first + CRLF + JoinCrlf(others));
  }

  lemma PutNothing()
    ensures Put([]) == ""
  {
  }

  lemma {:induction false} SplitOneLines(s: string)
    ensures forall l <- SplitCrlf(s) :: OneLine(l)
  {
    if s == "" {
    } else if CRLF <= s {
      SplitOneLines(s[2..]);
    } else {
      var rest := SplitCrlf(s[1..]);
      SplitOneLines(s[1..]);
      assert rest[0] in rest;
      if rest[0] != "" { FirstChar(s[1..]); }
      var l := [s[0]] + rest[0];
      assert forall i | 0 < i < |l| :: l[i] == rest[0][i - 1];
      assert OneLine(l);
    }
  }

  lemma FirstChar(s: string)
    requires SplitCrlf(s)[0] != ""
    ensures s != "" && SplitCrlf(s)[0][0] == s[0]
  {
  }

  lemma {:induction false} JoinAppend(a: seq<string>, b: seq<string>)
    requires a != [] && b != []
    ensures JoinCrlf(a + b) == JoinCrlf(a) + CRLF + JoinCrlf(b)
  {
    if |a| == 1 {
      assert (a + b)[1..] == b;
    } else {
      assert (a + b)[1..] == a[1..] + b;
      JoinAppend(a[1..], b);
    }
  }

  // ---- Header block and body ----

  datatype Entity = Entity(headers: seq<string>, body: seq<string>)

  function ReadEntity(lines: seq<string>): Entity {
    if lines == [] then Entity([], [])
    else if lines[0] == "" then Entity([], lines[1..])
    else var e := ReadEntity(lines[1..]); e.(headers := [lines[0]] + e.headers)
  }

  lemma {:induction false} EntityOf(headers: seq<string>, body: seq<string>)
    requires "" !in headers
    ensures ReadEntity(headers + [""] + body) == Entity(headers, body)
  {
    if headers == [] {
      assert headers + [""] + body == [""] + body;
    } else {
      assert (headers + [""] + body)[1..] == headers[1..] + [""] + body;
      EntityOf(headers[1..], body);
      assert [headers[0]] + headers[1..] == headers;
    }
  }

  /** Where the first CRLFCRLF of a text begins. */
  function FindBlank(s: string): Option<nat> {
    if |s| < 4 then None
    else if CRLF + CRLF <= s then Some(0)
    else match FindBlank(s[1..]) case None => None case Some(k) => Some(k + 1)
  }

  // ---- Multipart bodies ----

  predicate IsDelimiter(boundary: string, l: string) {
    "--" + boundary <= l
  }

  predicate IsClosing(boundary: string, l: string) {
    "--" + boundary + "--" <= l
  }

  function NextDelimiter(boundary: string, lines: seq<string>): (k: nat)
    ensures k <= |lines| && (k < |lines| ==> IsDelimiter(boundary, lines[k]))
    ensures forall i | 0 <= i < k :: !IsDelimiter(boundary, lines[i])
  {
    if lines == [] || IsDelimiter(boundary, lines[0]) then 0 else 1 + NextDelimiter(boundary, lines[1..])
  }

  /** The parts, read from just behind a delimiter line; None when the closing delimiter is missing. */
  function ReadParts(boundary: string, lines: seq<string>): Option<seq<Entity>>
    decreases |lines|
  {
    var k := NextDelimiter(boundary, lines);
    if k == |lines| then None
    else
      var part := ReadEntity(lines[..k]);
      if IsClosing(boundary, lines[k]) then Some([part])
      else match ReadParts(boundary, lines[k + 1..])
        case None => None
        case Some(rest) => Some([part] + rest)
  }

  function ReadMultipart(boundary: string, lines: seq<string>): Option<seq<Entity>> {
    var k := NextDelimiter(boundary, lines);
    if k == |lines| || IsClosing(boundary, lines[k]) then None else ReadParts(boundary, lines[k + 1..])
  }

  lemma NextDelimiterIs(boundary: string, before: seq<string>, l: string, rest: seq<string>)
    requires (forall b <- before :: !IsDelimiter(boundary, b)) && IsDelimiter(boundary, l)
    ensures NextDelimiter(boundary, before + [l] + rest) == |before|
    ensures (before + [l] + rest)[..|before|] == before && (before + [l] + rest)[|before| + 1..] == rest
  {
    var lines := before + [l] + rest;
    var k := NextDelimiter(boundary, lines);
    assert lines[|before|] == l;
    assert forall i | 0 <= i < |before| :: lines[i] in before;
  }

  // ---- Header values ----

  function UpTo(s: string, c: char): string {
    if s == "" || s[0] == c then "" else [s[0]] + UpTo(s[1..], c)
  }

  function Behind(s: string, c: char): string {
    if s == "" then "" else if s[0] == c then s[1..] else Behind(s[1..], c)
  }

  lemma {:induction false} UpToFirst(a: string, c: char, rest: string)
    requires c !in a
    ensures UpTo(a + [c] + rest, c) == a && Behind(a + [c] + rest, c) == rest
  {
    if a == "" {
      assert a + [c] + rest == [c] + rest;
    } else {
      assert (a + [c] + rest)[1..] == a[1..] + [c] + rest;
      UpToFirst(a[1..], c, rest);
      assert a == [a[0]] + a[1..];
    }
  }

  /** The value of the first header with this name. */
  function Header(headers: seq<string>, name: string): Option<string> {
    if headers == [] then None
    else if name + ": " <= headers[0] then Some(headers[0][|name| + 2..])
    else Header(headers[1..], name)
  }

  /** The names in the header lines, in order. */
  function Names(headers: seq<string>): seq<string> {
    if headers == [] then [] else [UpTo(headers[0], ':')] + Names(headers[1..])
  }

  datatype File = File(contentType: string, name: string, data: seq<byte>)

  const MIXED := "multipart/mixed; boundary=\""
  const ATTACHED := "attachment; filename=\""
  const NAMED := "; name="

  function ReadFile(e: Entity): Option<File> {
    match (Header(e.headers, "Content-Type"), Header(e.headers, "Content-Disposition"), DecodeStd(JoinCrlf(e.body)))
    case (Some(t), Some(d), Some(data)) =>
      var typ, name := UpTo(t, '"'), UpTo(Behind(t, '"'), '"');
      if |typ| >= |NAMED| && typ[|typ| - |NAMED|..] == NAMED && ATTACHED <= d && UpTo(d[|ATTACHED|..], '"') == name
      then Some(File(typ[..|typ| - |NAMED|], name, data))
      else None
    case _ => None
  }

  function ReadFiles(parts: seq<Entity>): Option<seq<File>> {
    if parts == [] then Some([])
    else match (ReadFile(parts[0]), ReadFiles(parts[1..]))
      case (Some(f), Some(fs)) => Some([f] + fs)
      case _ => None
  }

  datatype Mail =
    | Simple(headers: seq<string>, text: string)
    | Mixed(headers: seq<string>, text: string, files: seq<File>)

  function ReadMail(message: string): Option<Mail> {
    var e := ReadEntity(SplitCrlf(message));
    match Header(e.headers, "Content-Type")
    case None => None
    case Some(t) =>
      if MIXED <= t then
        match ReadMultipart(UpTo(t[|MIXED|..], '"'), e.body)
        case None => None
        case Some(parts) =>
          if parts == [] then None
          else match ReadFiles(parts[1..])
            case None => None
            case Some(files) => Some(Mixed(e.headers, JoinCrlf(parts[0].body), files))
      else Some(Simple(e.headers, JoinCrlf(e.body)))
  }
}
