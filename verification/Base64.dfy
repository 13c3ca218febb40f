/** Base64 and unpadded base64url, sections 4 and 5 of RFC 4648, as Go's encoding/base64 and Node's Buffer do them. */
module Base64 {
  import opened Wrappers

  type byte = x: int | 0 <= x < 256

  datatype Alphabet = Std | Url

  function Char(a: Alphabet, v: int): char
    requires 0 <= v < 64
  {
    if v < 26 then ('A' as int + v) as char
    else if v < 52 then ('a' as int + v - 26) as char
    else if v < 62 then ('0' as int + v - 52) as char
    else if v == 62 then (if a.Std? then '+' else '-')
    else if a.Std? then '/' else '_'
  }

  /** 64 for a character outside the alphabet. */
  function Value(a: Alphabet, c: char): (v: int)
    ensures 0 <= v <= 64
    ensures v < 64 ==> Char(a, v) == c
  {
    if 'A' <= c <= 'Z' then c as int - 'A' as int
    else if 'a' <= c <= 'z' then c as int - 'a' as int + 26
    else if '0' <= c <= '9' then c as int - '0' as int + 52
    else if c == (if a.Std? then '+' else '-') then 62
    else if c == (if a.Std? then '/' else '_') then 63
    else 64
  }

  lemma ValueOfChar(a: Alphabet, v: int)
    requires 0 <= v < 64
    ensures Value(a, Char(a, v)) == v && Char(a, v) != '='
  {
  }

  const UPPER := "ABCDEFGHIJKLMNOPQRSTUVWXYZ"
  const LOWER := "abcdefghijklmnopqrstuvwxyz"
  const DIGITS := "0123456789"

  /** Tables 1 and 2 of RFC 4648. */
  function Table(a: Alphabet): string {
    UPPER + LOWER + DIGITS + if a.Std? then "+/" else "-_"
  }

  lemma Letters(a: Alphabet)
    ensures |UPPER| == |LOWER| == 26 && |DIGITS| == 10
    ensures forall v | 0 <= v < 26 :: Char(a, v) == UPPER[v]
    ensures forall v | 26 <= v < 52 :: Char(a, v) == LOWER[v - 26]
    ensures forall v | 52 <= v < 62 :: Char(a, v) == DIGITS[v - 52]
  {
    assert forall v | 0 <= v < 26 :: Char(a, 26 + v) == "abcdefghijklmnopqrstuvwxyz"[v];
    assert forall v | 0 <= v < 10 :: Char(a, 52 + v) == "0123456789"[v];
    assert forall v | 26 <= v < 52 :: Char(a, v) == Char(a, 26 + (v - 26));
    assert forall v | 52 <= v < 62 :: Char(a, v) == Char(a, 52 + (v - 52));
  }

  lemma CharIsTable(a: Alphabet, v: int)
    requires 0 <= v < 64
    ensures |Table(a)| == 64 && Char(a, v) == Table(a)[v]
  {
    Letters(a);
    hide Char;
    if v >= 62 { LastTwo(a); }
    hide UPPER, LOWER, DIGITS;
  }

  lemma LastTwo(a: Alphabet)
    ensures Char(a, 62) == (if a.Std? then '+' else '-') && Char(a, 63) == if a.Std? then '/' else '_'
  {
  }

  lemma ValueIsTable(a: Alphabet, c: char)
    ensures Value(a, c) < 64 <==> c in Table(a)
  {
    hide Char, Table, Value;
    if Value(a, c) < 64 {
      CharIsTable(a, Value(a, c));
    } else if c in Table(a) {
      CharIsTable(a, 0);
      var v :| 0 <= v < |Table(a)| && Table(a)[v] == c;
      CharIsTable(a, v);
      ValueOfChar(a, v);
      assert false;
    }
  }

  function Encode(a: Alphabet, d: seq<byte>): string {
    if |d| == 0 then ""
    else if |d| == 1 then [Char(a, d[0] / 4), Char(a, d[0] % 4 * 16)]
    else if |d| == 2 then [Char(a, d[0] / 4), Char(a, d[0] % 4 * 16 + d[1] / 16), Char(a, d[1] % 16 * 4)]
    else Quad(a, d[0], d[1], d[2]) + Encode(a, d[3..])
  }

  function Quad(a: Alphabet, x: byte, y: byte, z: byte): string {
    [Char(a, x / 4), Char(a, x % 4 * 16 + y / 16), Char(a, y % 16 * 4 + z / 64), Char(a, z % 64)]
  }

  /** Bits left over in the last character are ignored, as Go's non-strict decoders do. */
  function Decode(a: Alphabet, s: string): Option<seq<byte>> {
    if |s| == 0 then Some([])
    else if |s| == 1 then None
    else
      var p, q := Value(a, s[0]), Value(a, s[1]);
      if p == 64 || q == 64 then None
      else if |s| == 2 then Some([p * 4 + q / 16])
      else
        var r := Value(a, s[2]);
        if r == 64 then None
        else if |s| == 3 then Some([p * 4 + q / 16, q % 16 * 16 + r / 4])
        else
          var t := Value(a, s[3]);
          if t == 64 then None
          else match Decode(a, s[4..])
            case None => None
            case Some(rest) => Some([p * 4 + q / 16, q % 16 * 16 + r / 4, r % 4 * 64 + t] + rest)
  }

  lemma Bits(x: byte, y: byte, z: byte)
    ensures 0 <= x / 4 < 64 && 0 <= x % 4 * 16 + y / 16 < 64 && 0 <= y % 16 * 4 + z / 64 < 64 && 0 <= z % 64 < 64
    ensures x / 4 * 4 + (x % 4 * 16 + y / 16) / 16 == x
    ensures (x % 4 * 16 + y / 16) % 16 * 16 + (y % 16 * 4 + z / 64) / 4 == y
    ensures (y % 16 * 4 + z / 64) % 4 * 64 + z % 64 == z
  {
  }

  lemma DecodeQuad(a: Alphabet, x: byte, y: byte, z: byte, rest: string)
    ensures Decode(a, Quad(a, x, y, z) + rest) ==
            match Decode(a, rest) case None => None case Some(d) => Some([x, y, z] + d)
  {
    hide Char, Value;
    Bits(x, y, z);
    ValueOfChar(a, x / 4);
    ValueOfChar(a, x % 4 * 16 + y / 16);
    ValueOfChar(a, y % 16 * 4 + z / 64);
    ValueOfChar(a, z % 64);
    assert (Quad(a, x, y, z) + rest)[4..] == rest;
  }

  lemma DecodeOne(a: Alphabet, x: byte)
    ensures Decode(a, Encode(a, [x])) == Some([x])
  {
    hide Char, Value;
    Bits(x, 0, 0);
    ValueOfChar(a, x / 4);
    ValueOfChar(a, x % 4 * 16);
  }

  lemma DecodeTwo(a: Alphabet, x: byte, y: byte)
    ensures Decode(a, Encode(a, [x, y])) == Some([x, y])
  {
    hide Char, Value;
    Bits(x, y, 0);
    ValueOfChar(a, x / 4);
    ValueOfChar(a, x % 4 * 16 + y / 16);
    ValueOfChar(a, y % 16 * 4);
  }

  lemma {:induction false} DecodeEncode(a: Alphabet, d: seq<byte>)
    ensures Decode(a, Encode(a, d)) == Some(d)
  {
    hide Char, Value, Quad;
    if |d| == 1 {
      DecodeOne(a, d[0]);
      assert d == [d[0]];
    } else if |d| == 2 {
      DecodeTwo(a, d[0], d[1]);
      assert d == [d[0], d[1]];
    } else if |d| > 2 {
      DecodeEncode(a, d[3..]);
      DecodeQuad(a, d[0], d[1], d[2], Encode(a, d[3..]));
      assert d == [d[0], d[1], d[2]] + d[3..];
    }
  }

  lemma {:induction false} EncodeLength(a: Alphabet, d: seq<byte>)
    ensures |Encode(a, d)| == (4 * |d| + 2) / 3
  {
    if |d| >= 3 {
      EncodeLength(a, d[3..]);
    }
  }

  function Three(x: int, y: int, z: int): int {
    x * 65536 + y * 256 + z
  }

  function Four(a: Alphabet, e: string, k: nat): int
    requires k + 4 <= |e|
  {
    Value(a, e[k]) * 262144 + Value(a, e[k + 1]) * 4096 + Value(a, e[k + 2]) * 64 + Value(a, e[k + 3])
  }

  /** Each group of three bytes, the first one most significant, is the number its four characters stand for. */
  lemma GroupIsNumber(a: Alphabet, d: seq<byte>, x: byte, y: byte, z: byte, rest: seq<byte>) returns (four: string)
    requires |d| % 3 == 0
    ensures Encode(a, d + [x, y, z] + rest) == Encode(a, d) + four + Encode(a, rest)
    ensures |four| == 4 && Four(a, four, 0) == Three(x, y, z)
  {
    four := Quad(a, x, y, z);
    QuadIsNumber(a, x, y, z);
    var tail := [x, y, z] + rest;
    assert tail[3..] == rest;
    EncodeCons(a, tail);
    EncodeAppend(a, d, tail);
    assert d + [x, y, z] + rest == d + tail;
    hide Encode, Quad;
    assert Encode(a, d) + (four + Encode(a, rest)) == Encode(a, d) + four + Encode(a, rest);
  }

  /** A last group that is not full is padded with zero bits on the right (section 4 of RFC 4648). */
  lemma LastGroupIsNumber(a: Alphabet, d: seq<byte>, x: byte, y: byte) returns (two: string, three: string)
    requires |d| % 3 == 0
    ensures Encode(a, d + [x]) == Encode(a, d) + two && |two| == 2
    ensures Value(a, two[0]) * 64 + Value(a, two[1]) == x as int * 16
    ensures Encode(a, d + [x, y]) == Encode(a, d) + three && |three| == 3
    ensures Value(a, three[0]) * 4096 + Value(a, three[1]) * 64 + Value(a, three[2]) == (x as int * 256 + y as int) * 4
  {
    two, three := Encode(a, [x]), Encode(a, [x, y]);
    EncodeAppend(a, d, [x]);
    EncodeAppend(a, d, [x, y]);
    hide Char, Value;
    Bits(x, 0, 0);
    Bits(x, y, 0);
    ValueOfChar(a, x / 4);
    ValueOfChar(a, x % 4 * 16);
    ValueOfChar(a, x % 4 * 16 + y / 16);
    ValueOfChar(a, y % 16 * 4);
  }

  lemma EncodeCons(a: Alphabet, d: seq<byte>)
    requires |d| >= 3
    ensures Encode(a, d) == Quad(a, d[0], d[1], d[2]) + Encode(a, d[3..]) && |Quad(a, d[0], d[1], d[2])| == 4
  {
  }

  lemma QuadIsNumber(a: Alphabet, x: byte, y: byte, z: byte)
    ensures Four(a, Quad(a, x, y, z), 0) == Three(x, y, z)
  {
    hide Char, Value;
    Bits(x, y, z);
    ValueOfChar(a, x / 4);
    ValueOfChar(a, x % 4 * 16 + y / 16);
    ValueOfChar(a, y % 16 * 4 + z / 64);
    ValueOfChar(a, z % 64);
  }

  predicate AllIn(a: Alphabet, s: string) {
    forall k | 0 <= k < |s| :: Value(a, s[k]) < 64
  }

  lemma DecodeFour(a: Alphabet, s: string)
    requires |s| >= 4
    ensures Decode(a, s).Some? <==> AllIn(a, s[..4]) && Decode(a, s[4..]).Some?
    ensures AllIn(a, s) <==> AllIn(a, s[..4]) && AllIn(a, s[4..])
  {
    hide Value;
    assert forall k | 4 <= k < |s| :: s[k] == s[4..][k - 4];
    var four := s[..4];
    assert four[0] == s[0] && four[1] == s[1] && four[2] == s[2] && four[3] == s[3];
  }

  lemma {:induction false} DecodesIff(a: Alphabet, s: string)
    ensures Decode(a, s).Some? <==> |s| % 4 != 1 && AllIn(a, s)
  {
    hide Value, Decode, AllIn;
    if |s| >= 4 {
      DecodesIff(a, s[4..]);
      DecodeFour(a, s);
    } else {
      DecodeFew(a, s);
    }
  }

  lemma DecodeFew(a: Alphabet, s: string)
    requires |s| < 4
    ensures Decode(a, s).Some? <==> |s| != 1 && AllIn(a, s)
  {
    hide Value;
  }

  /** Exactly the texts of these lengths over the alphabet can be decoded. */
  lemma DecodableIff(a: Alphabet, s: string)
    ensures Decode(a, s).Some? <==> |s| % 4 != 1 && forall c <- s :: c in Table(a)
  {
    hide Table, Value, Decode;
    DecodesIff(a, s);
    forall c ensures Value(a, c) < 64 <==> c in Table(a) { ValueIsTable(a, c); }
    assert forall k | 0 <= k < |s| :: s[k] in s;
  }

  lemma {:induction false} EncodeAppend(a: Alphabet, x: seq<byte>, y: seq<byte>)
    requires |x| % 3 == 0
    ensures Encode(a, x + y) == Encode(a, x) + Encode(a, y)
  {
    if |x| == 0 {
      assert x + y == y;
    } else {
      assert (x + y)[3..] == x[3..] + y;
      EncodeAppend(a, x[3..], y);
    }
  }

  predicate InAlphabet(a: Alphabet, c: char) {
    Value(a, c) < 64
  }

  lemma {:induction false} EncodeAlphabet(a: Alphabet, d: seq<byte>)
    ensures forall c <- Encode(a, d) :: InAlphabet(a, c)
  {
    forall v | 0 <= v < 64 ensures InAlphabet(a, Char(a, v)) { ValueOfChar(a, v); }
    if |d| >= 3 { EncodeAlphabet(a, d[3..]); }
  }

  // ---- The padded form ----

  function Padding(n: nat): string {
    if n % 3 == 1 then "==" else if n % 3 == 2 then "=" else ""
  }

  function EncodeStd(d: seq<byte>): string {
    Encode(Std, d) + Padding(|d|)
  }

  function EncodeUrl(d: seq<byte>): string {
    Encode(Url, d)
  }

  function StripNewlines(s: string): string {
    if s == "" then "" else (if s[0] == '\r' || s[0] == '\n' then "" else [s[0]]) + StripNewlines(s[1..])
  }

  function Unpad(s: string): string {
    if |s| >= 2 && s[|s| - 2..] == "==" then s[..|s| - 2]
    else if |s| >= 1 && s[|s| - 1] == '=' then s[..|s| - 1]
    else s
  }

  /** StdEncoding.DecodeString: line breaks are skipped, the rest is whole quanta with the padding at the end. */
  function DecodeStd(s: string): Option<seq<byte>> {
    var t := StripNewlines(s);
    if |t| % 4 != 0 then None else Decode(Std, Unpad(t))
  }

  lemma {:induction false} StripAppend(a: string, b: string)
    ensures StripNewlines(a + b) == StripNewlines(a) + StripNewlines(b)
  {
    if a == "" {
      assert a + b == b;
    } else {
      assert (a + b)[1..] == a[1..] + b;
      StripAppend(a[1..], b);
    }
  }

  lemma {:induction false} StripNothing(s: string)
    requires '\r' !in s && '\n' !in s
    ensures StripNewlines(s) == s
  {
    if s != "" {
      StripNothing(s[1..]);
      assert s == [s[0]] + s[1..];
    }
  }

  predicate StdText(s: string) {
    forall c <- s :: InAlphabet(Std, c) || c == '='
  }

  lemma EncodeStdLength(d: seq<byte>)
    ensures |EncodeStd(d)| == (|d| + 2) / 3 * 4
  {
    hide Encode;
    EncodeLength(Std, d);
    var n := |d|;
    assert n == n / 3 * 3 + n % 3;
    assert |Padding(n)| == if n % 3 == 1 then 2 else if n % 3 == 2 then 1 else 0;
    hide EncodeStd, Padding;
    assert |EncodeStd(d)| == |Encode(Std, d)| + |Padding(n)| by { EncodeStdParts(d); }
  }

  lemma EncodeStdParts(d: seq<byte>)
    ensures |EncodeStd(d)| == |Encode(Std, d)| + |Padding(|d|)|
  {
  }

  lemma EncodeStdText(d: seq<byte>)
    ensures StdText(EncodeStd(d)) && '\r' !in EncodeStd(d) && '\n' !in EncodeStd(d)
    ensures |EncodeStd(d)| == (|d| + 2) / 3 * 4 && Unpad(EncodeStd(d)) == Encode(Std, d)
  {
    hide Encode, InAlphabet, Unpad;
    EncodeStdLength(d);
    EncodeAlphabet(Std, d);
    UnpadPadded(Encode(Std, d), |d|);
    assert !InAlphabet(Std, '\r') && !InAlphabet(Std, '\n') by { LineBreaksOutside(); }
  }

  lemma LineBreaksOutside()
    ensures !InAlphabet(Std, '\r') && !InAlphabet(Std, '\n')
  {
  }

  lemma UnpadPadded(e: string, n: nat)
    requires forall c <- e :: InAlphabet(Std, c)
    ensures Unpad(e + Padding(n)) == e
  {
    assert !InAlphabet(Std, '=');
    hide InAlphabet;
    assert forall k | 0 <= k < |e| :: e[k] in e && e[k] != '=';
    var s := e + Padding(n);
    assert s[..|e|] == e;
    if n % 3 == 1 {
      assert s[|s| - 2..] == "==";
    } else if |s| >= 2 {
      assert s[|s| - 2..][0] != '=';
    }
  }

  /** Line breaks put anywhere into an encoding do not keep it from being decoded. */
  lemma DecodeStdEncodeStd(s: string, d: seq<byte>)
    requires StripNewlines(s) == EncodeStd(d)
    ensures DecodeStd(s) == Some(d)
  {
    hide Encode, Decode, StripNewlines;
    EncodeStdText(d);
    DecodeEncode(Std, d);
  }

  predicate IsPadding(p: string) {
    p == "" || p == "=" || p == "=="
  }

  predicate PaddedText(t: string, body: string, pad: string) {
    t == body + pad && IsPadding(pad) && forall c <- body :: c in Table(Std)
  }

  /**
    StdEncoding accepts exactly this: after the line breaks are skipped, whole quanta, with one or two padding
    characters, or none, behind characters of the alphabet.
  */
  lemma DecodeStdIff(s: string)
    ensures DecodeStd(s).Some? <==>
            (|StripNewlines(s)| % 4 == 0 && exists body, pad :: PaddedText(StripNewlines(s), body, pad))
  {
    hide Decode, StripNewlines, Table, Unpad;
    var t := StripNewlines(s);
    UnpadIs(t);
    var pad := t[|Unpad(t)|..];
    DecodableIff(Std, Unpad(t));
    if DecodeStd(s).Some? {
      assert t == Unpad(t) + pad;
      assert PaddedText(t, Unpad(t), pad);
    }
    if |t| % 4 == 0 && exists body, p :: PaddedText(t, body, p) {
      var body, p :| PaddedText(t, body, p);
      NoPadInTable();
      UnpadBody(body, p);
    }
  }

  lemma NoPadInTable()
    ensures '=' !in Table(Std)
  {
    ValueIsTable(Std, '=');
  }

  lemma UnpadIs(t: string)
    ensures Unpad(t) <= t && IsPadding(t[|Unpad(t)|..])
  {
  }

  lemma UnpadBody(body: string, pad: string)
    requires '=' !in body && IsPadding(pad)
    ensures Unpad(body + pad) == body
  {
    var t := body + pad;
    assert t[..|body|] == body && forall k | 0 <= k < |body| :: t[k] == body[k] && body[k] in body;
    if |t| >= 2 && t[|t| - 2..] == "==" { assert t[|t| - 2..][0] == t[|t| - 2] == '='; }
    if pad == "==" { assert t[|t| - 2..] == "=="; }
  }

  // ---- Folding into lines of 76 characters, section 6.8 of RFC 2045 ----

  const WIDTH := 76

  function Slices(s: string): seq<string> {
    if |s| == 0 then [] else if |s| <= WIDTH then [s] else [s[..WIDTH]] + Slices(s[WIDTH..])
  }

  /** The attachment cut into pieces of 57 bytes. */
  function Pieces(d: seq<byte>): seq<seq<byte>> {
    if |d| == 0 then [] else if |d| <= 57 then [d] else [d[..57]] + Pieces(d[57..])
  }

  function EncodeAll(pieces: seq<seq<byte>>): seq<string> {
    if pieces == [] then [] else [EncodeStd(pieces[0])] + EncodeAll(pieces[1..])
  }

  /** Every line of the folded text is, on its own, the encoding of the 57 bytes it stands for. */
  lemma {:induction false} FoldedLinesStandAlone(d: seq<byte>)
    ensures Slices(EncodeStd(d)) == EncodeAll(Pieces(d))
  {
    hide Encode, EncodeStd, Slices, Padding;
    if |d| > 57 {
      var x, y := d[..57], d[57..];
      EncodeStdSplit(x, y);
      assert d == x + y;
      FoldedLinesStandAlone(y);
      SlicesCons(EncodeStd(x), EncodeStd(y));
    } else {
      EncodeStdText(d);
      SlicesShort(EncodeStd(d));
      assert d != [] ==> [d][1..] == [];
    }
  }

  lemma EncodeStdSplit(x: seq<byte>, y: seq<byte>)
    requires |x| == 57 && y != []
    ensures EncodeStd(x + y) == EncodeStd(x) + EncodeStd(y) && |EncodeStd(x)| == WIDTH && EncodeStd(y) != ""
  {
    hide Encode, StdText, Unpad;
    EncodeAppend(Std, x, y);
    EncodeLength(Std, x);
    EncodeLength(Std, y);
    assert Padding(|x|) == "" && Padding(|x + y|) == Padding(|y|);
    assert Encode(Std, x) + "" == Encode(Std, x);
    assert (Encode(Std, x) + Encode(Std, y)) + Padding(|y|) == Encode(Std, x) + (Encode(Std, y) + Padding(|y|));
  }

  lemma SlicesShort(s: string)
    requires |s| <= WIDTH
    ensures Slices(s) == if s == "" then [] else [s]
  {
  }

  lemma SlicesCons(first: string, rest: string)
    requires |first| == WIDTH && rest != ""
    ensures Slices(first + rest) == [first] + Slices(rest)
  {
    assert (first + rest)[..WIDTH] == first && (first + rest)[WIDTH..] == rest;
  }

  lemma {:induction false} SlicesFill(s: string)
    ensures forall k | 0 <= k < |Slices(s)| - 1 :: |Slices(s)[k]| == 76
    ensures s != "" ==> 0 < |Slices(s)[|Slices(s)| - 1]| <= 76
    ensures forall l <- Slices(s), c <- l :: c in s
  {
    if |s| > WIDTH {
      SlicesFill(s[WIDTH..]);
      assert forall c <- s[WIDTH..] :: c in s;
      assert forall c <- s[..WIDTH] :: c in s;
    }
  }
}
