/** Splitting, joining and trimming of strings, as the SSE parsers and the MIME builder use them. */
module Text {
  function Flatten<T>(parts: seq<seq<T>>): seq<T> {
    if parts == [] then [] else parts[0] + Flatten(parts[1..])
  }

  lemma {:induction false} FlattenAppend<T>(a: seq<seq<T>>, b: seq<seq<T>>)
    ensures Flatten(a + b) == Flatten(a) + Flatten(b)
  {
    if a == [] {
      assert a + b == b;
    } else {
      assert (a + b)[1..] == a[1..] + b;
      FlattenAppend(a[1..], b);
    }
  }

  lemma FlattenSnoc<T>(a: seq<seq<T>>, x: seq<T>)
    ensures Flatten(a + [x]) == Flatten(a) + x
  {
    FlattenAppend(a, [x]);
    assert Flatten([x]) == x;
  }

  // ---- split('\n') ----

  function Split(s: string): (lines: seq<string>)
    ensures |lines| > 0
  {
    if s == "" then [""]
    else if s[0] == '\n' then [""] + Split(s[1..])
    else var rest := Split(s[1..]); [[s[0]] + rest[0]] + rest[1..]
  }

  lemma SplitCons(c: char, rest: string)
    ensures Split([c] + rest) ==
            if c == '\n' then [""] + Split(rest) else [[c] + Split(rest)[0]] + Split(rest)[1..]
  {
    assert ([c] + rest)[1..] == rest;
  }

  /** The lines that have their newline. */
  function Complete(s: string): seq<string> {
    Split(s)[..|Split(s)| - 1]
  }

  /** What is left in the buffer. */
  function Partial(s: string): string {
    Split(s)[|Split(s)| - 1]
  }

  lemma GrowFirst(c: char, rest: seq<string>, more: seq<string>)
    requires |rest| > 1
    ensures var all, n := rest[..|rest| - 1] + more, |rest| - 1;
            [[c] + all[0]] + all[1..] == ([[c] + rest[0]] + rest[1..])[..n] + more
  {
    var all, n := rest[..|rest| - 1] + more, |rest| - 1;
    assert all[1..] == rest[1..n] + more;
    assert ([[c] + rest[0]] + rest[1..])[..n] == [[c] + rest[0]] + rest[1..n];
  }

  lemma {:induction false} SplitAppend(a: string, b: string)
    ensures Split(a + b) == Complete(a) + Split(Partial(a) + b)
  {
    hide Split;
    if a == "" {
      SplitLine("", "");
      assert a + b == b == "" + b;
    } else {
      var c, rest := a[0], Split(a[1..]);
      SplitAppend(a[1..], b);
      SplitCons(c, a[1..]);
      SplitCons(c, a[1..] + b);
      assert a == [c] + a[1..] && a + b == [c] + (a[1..] + b);
      if c == '\n' {
        assert Complete(a) == [""] + Complete(a[1..]);
      } else if |rest| > 1 {
        GrowFirst(c, rest, Split(Partial(a[1..]) + b));
        assert Partial(a) == Partial(a[1..]);
      } else {
        SplitCons(c, rest[0] + b);
        assert Partial(a) + b == [c] + (rest[0] + b);
        assert Complete(a) == [] == Complete(a[1..]);
      }
    }
  }

  /** A chunk only adds to the line that was still open. */
  lemma SplitChunk(seen: string, chunk: string)
    ensures Complete(seen + chunk) == Complete(seen) + Complete(Partial(seen) + chunk)
    ensures Partial(seen + chunk) == Partial(Partial(seen) + chunk)
  {
    SplitAppend(seen, chunk);
    var more := Split(Partial(seen) + chunk);
    assert (Complete(seen) + more)[..|Complete(seen)| + |more| - 1] == Complete(seen) + more[..|more| - 1];
  }

  lemma {:induction false} SplitLine(line: string, rest: string)
    requires '\n' !in line
    ensures Split(line) == [line] && Split(line + "\n" + rest) == [line] + Split(rest)
  {
    if line == "" {
      assert (line + "\n" + rest)[1..] == rest;
    } else {
      SplitLine(line[1..], rest);
      assert line == [line[0]] + line[1..];
      assert (line + "\n" + rest)[1..] == line[1..] + "\n" + rest;
    }
  }

  /** Lines put down one after the other, each with a newline, are read back as they were. */
  lemma {:induction false} SplitTerminated(lines: seq<string>, rest: string)
    requires forall l <- lines :: '\n' !in l
    ensures Split(Terminate(lines) + rest) == lines + Split(rest)
  {
    hide Split;
    if lines == [] {
      assert Terminate(lines) + rest == rest;
    } else {
      var first, others := lines[0], lines[1..];
      assert lines == [first] + others;
      calc {
        Split(Terminate(lines) + rest);
        { assert Terminate(lines) + rest == first + "\n" + (Terminate(others) + rest); }
        Split(first + "\n" + (Terminate(others) + rest));
        { SplitLine(first, Terminate(others) + rest); }
        [first] + Split(Terminate(others) + rest);
        { SplitTerminated(others, rest); }
        [first] + (others + Split(rest));
        lines + Split(rest);
      }
    }
  }

  function Terminate(lines: seq<string>): string {
    if lines == [] then "" else lines[0] + "\n" + Terminate(lines[1..])
  }

  // ---- join ----

  function Join(parts: seq<string>, sep: string): string {
    if parts == [] then ""
    else if |parts| == 1 then parts[0]
    else parts[0] + sep + Join(parts[1..], sep)
  }

  lemma {:induction false} JoinSnoc(parts: seq<string>, sep: string, last: string)
    ensures Join(parts + [last], sep) == if parts == [] then last else Join(parts, sep) + sep + last
  {
    if |parts| == 1 {
      assert (parts + [last])[1..] == [last];
    } else if |parts| > 1 {
      assert (parts + [last])[1..] == parts[1..] + [last];
      JoinSnoc(parts[1..], sep, last);
    }
  }

  lemma JoinEmpty(parts: seq<string>, sep: string)
    requires parts == [] || parts[0] != ""
    ensures Join(parts, sep) == "" <==> parts == []
  {
  }

  // ---- trim ----

  type Space = char -> bool

  /** The whitespace and line terminators that `String.prototype.trim` removes. */
  predicate JsSpace(c: char) {
    var n := c as int;
    || 0x09 <= n <= 0x0D || n == 0x20 || n == 0xA0 || n == 0x1680 || 0x2000 <= n <= 0x200A
    || n == 0x2028 || n == 0x2029 || n == 0x202F || n == 0x205F || n == 0x3000 || n == 0xFEFF
  }

  function TrimLeft(s: string, space: Space): string {
    if s != "" && space(s[0]) then TrimLeft(s[1..], space) else s
  }

  function TrimRight(s: string, space: Space): string {
    if s != "" && space(s[|s| - 1]) then TrimRight(s[..|s| - 1], space) else s
  }

  function Trim(s: string, space: Space): string {
    TrimRight(TrimLeft(s, space), space)
  }

  predicate Trimmed(s: string, space: Space) {
    s == "" || (!space(s[0]) && !space(s[|s| - 1]))
  }

  lemma TrimTrimmed(s: string, space: Space)
    requires Trimmed(s, space) && space(' ')
    ensures Trim(s, space) == s && Trim(" " + s, space) == s
  {
    assert (" " + s)[1..] == s;
  }

  lemma {:induction false} TrimLeftSnoc(s: string, c: char, space: Space)
    ensures TrimLeft(s + [c], space) ==
            if TrimLeft(s, space) == "" && space(c) then "" else TrimLeft(s, space) + [c]
  {
    if s == "" {
      assert (s + [c])[1..] == "";
    } else if space(s[0]) {
      assert (s + [c])[1..] == s[1..] + [c];
      TrimLeftSnoc(s[1..], c, space);
    }
  }

  lemma TrimSpaceAtEnd(s: string, c: char, space: Space)
    requires space(c)
    ensures Trim(s + [c], space) == Trim(s, space)
  {
    TrimLeftSnoc(s, c, space);
    var t := TrimLeft(s, space);
    assert (t + [c])[..|t|] == t;
  }

  lemma {:induction false} TrimSameSpaces(s: string, space: Space, other: Space)
    requires forall c <- s :: space(c) == other(c)
    ensures TrimLeft(s, space) == TrimLeft(s, other)
    ensures TrimRight(s, space) == TrimRight(s, other)
    ensures forall c <- TrimLeft(s, space) :: c in s
  {
    if s != "" {
      assert forall c <- s[1..] :: c in s;
      assert forall c <- s[..|s| - 1] :: c in s;
      TrimSameSpaces(s[1..], space, other);
      TrimSameSpaces(s[..|s| - 1], space, other);
    }
  }

  /** The 25 characters of White_Space and LineTerminator in ECMA-262, and no others. */
  lemma JsSpaces(c: char)
    ensures JsSpace(c) == (c as int in {
              0x9, 0xA, 0xB, 0xC, 0xD, 0x20, 0xA0, 0x1680, 0x2000, 0x2001, 0x2002, 0x2003, 0x2004, 0x2005, 0x2006,
              0x2007, 0x2008, 0x2009, 0x200A, 0x2028, 0x2029, 0x202F, 0x205F, 0x3000, 0xFEFF})
  {
  }

  lemma {:induction false} TrimLeftIs(s: string, space: Space) returns (i: nat)
    ensures i <= |s| && TrimLeft(s, space) == s[i..] && (i < |s| ==> !space(s[i]))
    ensures forall k | 0 <= k < i :: space(s[k])
  {
    if s != "" && space(s[0]) {
      var j := TrimLeftIs(s[1..], space);
      i := j + 1;
      assert s[1..][j..] == s[i..];
      assert forall k | 0 < k < i :: s[k] == s[1..][k - 1];
    } else {
      i := 0;
    }
  }

  lemma {:induction false} TrimRightIs(s: string, space: Space) returns (j: nat)
    ensures j <= |s| && TrimRight(s, space) == s[..j] && (j > 0 ==> !space(s[j - 1]))
    ensures forall k | j <= k < |s| :: space(s[k])
  {
    if s != "" && space(s[|s| - 1]) {
      var init := s[..|s| - 1];
      j := TrimRightIs(init, space);
      assert init[..j] == s[..j];
      assert forall k | j <= k < |init| :: s[k] == init[k];
    } else {
      j := |s|;
    }
  }

  /** Trimming cuts off white space at both ends, all of it, and nothing else. */
  lemma TrimIs(s: string, space: Space) returns (a: string, b: string)
    ensures s == a + Trim(s, space) + b && Trimmed(Trim(s, space), space)
    ensures (forall c <- a :: space(c)) && (forall c <- b :: space(c))
  {
    hide TrimLeft, TrimRight;
    var i := TrimLeftIs(s, space);
    var t := s[i..];
    var j := TrimRightIs(t, space);
    a, b := s[..i], t[j..];
    assert s == a + t && t == t[..j] + b;
    assert j > 0 ==> t[..j][0] == s[i];
  }
}
