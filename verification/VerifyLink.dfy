/**
  Verification links: a document travels in the URL as unpadded base64url.
  Documents are sequences of bytes; base URLs are ASCII, so that Go's byte count and Node's
  character count of a URL are the same number.
*/
module VerifyLink {
  import opened Wrappers
  import opened Base64

  const MAX_URL_LEN := 2048
  const MAX_DOCUMENT_BYTES := 1515
  const DEFAULT_ENDPOINT := "https://hai.ai"
  const PATH := "/jacs/verify?s="

  datatype LinkError = TooLong

  function TrimSlashes(base: string): string {
    if base != "" && base[|base| - 1] == '/' then TrimSlashes(base[..|base| - 1]) else base
  }

  // ---- Go ----

  function GoLink(document: seq<byte>, baseUrl: string): Result<string, LinkError> {
    var base := TrimSlashes(if baseUrl == "" then DEFAULT_ENDPOINT else baseUrl);
    var url := base + PATH + EncodeUrl(document);
    if |url| > MAX_URL_LEN then Err(TooLong) else Ok(url)
  }

  // ---- Node ----

  function Replace(s: string, from: char, to: char): string {
    if s == "" then "" else [if s[0] == from then to else s[0]] + Replace(s[1..], from, to)
  }

  function StripPadding(s: string): string {
    if s != "" && s[|s| - 1] == '=' then StripPadding(s[..|s| - 1]) else s
  }

  /** Standard base64 first, then the two letters and the padding are rewritten. */
  function NodeEncode(document: seq<byte>): string {
    StripPadding(Replace(Replace(EncodeStd(document), '+', '-'), '/', '_'))
  }

  /** None when the caller leaves the base out: only then does Node use the default. */
  function NodeLink(document: seq<byte>, baseUrl: Option<string>): Result<string, LinkError> {
    var base := TrimSlashes(match baseUrl case None => DEFAULT_ENDPOINT case Some(b) => b);
    var url := base + PATH + NodeEncode(document);
    if |url| > MAX_URL_LEN then Err(TooLong) else Ok(url)
  }

  lemma {:induction false} ReplaceAt(s: string, from: char, to: char)
    ensures |Replace(s, from, to)| == |s|
    ensures forall k | 0 <= k < |s| :: Replace(s, from, to)[k] == if s[k] == from then to else s[k]
  {
    if s != "" { ReplaceAt(s[1..], from, to); }
  }

  lemma {:induction false} EncodeUrlAt(d: seq<byte>)
    ensures |Encode(Url, d)| == |Encode(Std, d)|
    ensures forall k | 0 <= k < |Encode(Std, d)| :: Encode(Url, d)[k] ==
              if Encode(Std, d)[k] == '+' then '-' else if Encode(Std, d)[k] == '/' then '_' else Encode(Std, d)[k]
  {
    forall v | 0 <= v < 64
      ensures Char(Url, v) == if Char(Std, v) == '+' then '-' else if Char(Std, v) == '/' then '_' else Char(Std, v) {
    }
    hide Char;
    if |d| >= 3 { EncodeUrlAt(d[3..]); }
  }

  lemma StripPaddingOff(s: string, n: nat)
    requires s == "" || s[|s| - 1] != '='
    ensures StripPadding(s + Padding(n)) == s
  {
    assert s + "" == s && StripPadding(s) == s;
    assert (s + "=")[..|s|] == s && StripPadding(s + "=") == s;
    assert (s + "==")[..|s| + 1] == s + "=" && StripPadding(s + "==") == s;
  }

  /** Node's detour through standard base64 ends at the encoding Go uses directly. */
  lemma NodeEncodesLikeGo(d: seq<byte>)
    ensures NodeEncode(d) == EncodeUrl(d)
  {
    hide Encode;
    var e, u := EncodeStd(d), Encode(Url, d);
    var r := Replace(e, '+', '-');
    var t := Replace(r, '/', '_');
    ReplaceAt(e, '+', '-');
    ReplaceAt(r, '/', '_');
    EncodeUrlAt(d);
    EncodeAlphabet(Url, d);
    assert t == u + Padding(|d|) by {
      assert forall k | 0 <= k < |u| :: e[k] == Encode(Std, d)[k];
      assert forall k | |u| <= k < |e| :: e[k] == Padding(|d|)[k - |u|] && e[k] == '=';
    }
    if u != "" { assert u[|u| - 1] in u; }
    StripPaddingOff(u, |d|);
  }

  /** The reader of a link takes what follows the last '='. */
  function Payload(url: string): string {
    if url == "" || url[|url| - 1] == '=' then "" else Payload(url[..|url| - 1]) + [url[|url| - 1]]
  }

  lemma {:induction false} PayloadOf(prefix: string, s: string)
    requires prefix != "" && prefix[|prefix| - 1] == '=' && '=' !in s
    ensures Payload(prefix + s) == s
  {
    if s == "" {
      assert prefix + s == prefix;
    } else {
      var init := s[..|s| - 1];
      assert s[|s| - 1] in s;
      assert (prefix + s)[..|prefix + s| - 1] == prefix + init;
      PayloadOf(prefix, init);
      assert s == init + [s[|s| - 1]];
    }
  }

  /** All slashes at the end go, and nothing else. */
  lemma {:induction false} TrimSlashesIs(base: string) returns (slashes: string)
    ensures base == TrimSlashes(base) + slashes && forall c <- slashes :: c == '/'
    ensures TrimSlashes(base) == "" || TrimSlashes(base)[|TrimSlashes(base)| - 1] != '/'
  {
    slashes := "";
    if base != "" && base[|base| - 1] == '/' {
      var fewer := TrimSlashesIs(base[..|base| - 1]);
      slashes := fewer + "/";
      assert base == base[..|base| - 1] + "/";
    } else {
      assert base + "" == base;
    }
  }

  /** A link is the base without its last slashes, a fixed path, and the encoded document. */
  lemma LinkIs(d: seq<byte>, baseUrl: string)
    ensures GoLink(d, baseUrl).Ok? ==>
              GoLink(d, baseUrl).value ==
              (if baseUrl == "" then "https://hai.ai" else TrimSlashes(baseUrl)) + "/jacs/verify?s=" + Encode(Url, d)
    ensures NodeLink(d, Some(baseUrl)).Ok? ==>
              NodeLink(d, Some(baseUrl)).value == TrimSlashes(baseUrl) + "/jacs/verify?s=" + Encode(Url, d)
  {
    NodeEncodesLikeGo(d);
    assert TrimSlashes(DEFAULT_ENDPOINT) == DEFAULT_ENDPOINT;
    hide Encode;
  }

  /** Every link that is handed out decodes back to its document, whatever the base looks like. */
  lemma LinkDecodes(d: seq<byte>, baseUrl: string)
    requires GoLink(d, baseUrl).Ok?
    ensures Decode(Url, Payload(GoLink(d, baseUrl).value)) == Some(d)
  {
    var base := TrimSlashes(if baseUrl == "" then DEFAULT_ENDPOINT else baseUrl);
    EncodeAlphabet(Url, d);
    PayloadOf(base + PATH, EncodeUrl(d));
    DecodeEncode(Url, d);
  }

  /** A document is accepted exactly when base, path and ceil(4n/3) characters fit. */
  lemma AcceptedIff(d: seq<byte>, baseUrl: string)
    requires baseUrl != ""
    ensures GoLink(d, baseUrl).Ok? <==> |TrimSlashes(baseUrl)| + 15 + (4 * |d| + 2) / 3 <= 2048
  {
    EncodeLength(Url, d);
  }

  /**
    With the default base the largest accepted document has 1514 bytes. The advertised limit is one
    too many: no document of that size is ever accepted.
  */
  lemma DefaultLimit(d: seq<byte>)
    ensures GoLink(d, "").Ok? <==> |d| <= 1514 < MAX_DOCUMENT_BYTES
    ensures NodeLink(d, None).Ok? <==> |d| <= 1514
  {
    assert TrimSlashes(DEFAULT_ENDPOINT) == DEFAULT_ENDPOINT;
    EncodeLength(Url, d);
    NodeEncodesLikeGo(d);
  }

  /**
    The two languages hand out the same link, except for an explicitly empty base, which Go replaces
    by the default and Node keeps; beyond 1524 bytes both refuse even then.
  */
  lemma GoAndNodeAgree(d: seq<byte>, baseUrl: string)
    ensures NodeLink(d, None) == GoLink(d, "")
    ensures NodeLink(d, Some(baseUrl)) == GoLink(d, baseUrl) <==> baseUrl != "" || |d| > 1524
  {
    NodeEncodesLikeGo(d);
    EncodeLength(Url, d);
    if baseUrl == "" {
      var go, node := DEFAULT_ENDPOINT + PATH + EncodeUrl(d), "" + PATH + EncodeUrl(d);
      assert TrimSlashes(DEFAULT_ENDPOINT) == DEFAULT_ENDPOINT && TrimSlashes("") == "";
      assert |go| == |node| + 14;
    }
  }

  lemma {:induction false} TrailingSlashesDoNotMatter(d: seq<byte>, baseUrl: string, slashes: string)
    requires baseUrl != "" && forall c <- slashes :: c == '/'
    ensures GoLink(d, baseUrl + slashes) == GoLink(d, baseUrl)
  {
    if slashes == "" {
      assert baseUrl + slashes == baseUrl;
    } else {
      var fewer := slashes[..|slashes| - 1];
      var b := baseUrl + slashes;
      assert slashes[|slashes| - 1] in slashes && forall c <- fewer :: c in slashes;
      assert b[..|b| - 1] == baseUrl + fewer && b[|b| - 1] == '/';
      TrailingSlashesDoNotMatter(d, baseUrl, fewer);
    }
  }
}
