/** Enrollment tokens: an id, a secret and the control plane's CA as one line of text. */
module Tokens {
  import opened Text
  import opened Codecs

  predicate IsLabelChar(c: char) {
    'a' <= c <= 'z' || '0' <= c <= '9'
  }

  /** A DNS label: 1 to 63 lower-case letters, digits and inner dashes. */
  predicate IsLabel(s: string) {
    && 1 <= |s| <= 63 && IsLabelChar(s[0]) && IsLabelChar(s[|s| - 1])
    && forall i :: 0 <= i < |s| ==> IsLabelChar(s[i]) || s[i] == '-'
  }

  /** What the id pattern matches: its end anchor also stands before a final line break. */
  predicate IdMatches(s: string) {
    IsLabel(s) || (s != "" && s[|s| - 1] == '\n' && IsLabel(s[..|s| - 1]))
  }

  /** Not every id the pattern lets through is a DNS label: a label followed by one line break is not. */
  lemma {:induction false} IdIsLabelExactly(s: string)
    requires IdMatches(s)
    ensures IsLabel(s) <==> s[|s| - 1] != '\n'
    ensures IdMatches("a\n") && !IsLabel("a\n")
  {
    assert "a\n"[..1] == "a";
  }

  /** What Python counts as whitespace. */
  predicate IsSpace(c: char) {
    var n := c as int;
    9 <= n <= 13 || 28 <= n <= 32 || n == 0x85 || n == 0xA0 || n == 0x1680 || 0x2000 <= n <= 0x200A
    || n == 0x2028 || n == 0x2029 || n == 0x202F || n == 0x205F || n == 0x3000
  }

  function StripLeft(s: string): string {
    if s != "" && IsSpace(s[0]) then StripLeft(s[1..]) else s
  }

  function StripRight(s: string): string {
    if s != "" && IsSpace(s[|s| - 1]) then StripRight(s[..|s| - 1]) else s
  }

  function Strip(s: string): string {
    StripRight(StripLeft(s))
  }

  function Split(s: string, c: char): (parts: seq<string>)
    ensures |parts| >= 1
    ensures forall i :: 0 <= i < |parts| ==> c !in parts[i]
    decreases |s|
  {
    var i := IndexOf(s, c);
    if i == |s| then [s] else [s[..i]] + Split(s[i + 1..], c)
  }

  /** The certificate is its DER bytes; whether bytes are a certificate is for others to say. */
  datatype Token = Token(id: string, secret: string, ca: Bytes)

  function Print(t: Token): string {
    t.id + "." + t.secret + "." + Encode(t.ca)
  }

  /** `isCertificate` stands for the certificate parser. Text outside the base64url alphabet is no certificate here. */
  function Parse(text: string, isCertificate: Bytes -> bool): Option<Token> {
    var parts := Split(Strip(text), '.');
    if |parts| != 3 || !IdMatches(parts[0]) || parts[1] == "" || !InAlphabet(parts[2]) then None
    else
      var der := Decode(parts[2]);
      if der.None? || !isCertificate(der.value) then None else Some(Token(parts[0], parts[1], der.value))
  }

  lemma {:induction false} SplitHead(a: string, c: char, b: string)
    requires c !in a
    ensures Split(a + [c] + b, c) == [a] + Split(b, c)
  {
    var s := a + [c] + b;
    var i := IndexOf(s, c);
    assert s[|a|] == c;
    assert i == |a|;
    assert s[..i] == a && s[i + 1..] == b;
  }

  lemma {:induction false} SplitWhole(a: string, c: char)
    requires c !in a
    ensures Split(a, c) == [a]
  {
    assert IndexOf(a, c) == |a|;
  }

  /** A text that neither begins nor ends with whitespace is not stripped. */
  lemma {:induction false} StripNothing(s: string)
    requires s != "" ==> !IsSpace(s[0]) && !IsSpace(s[|s| - 1])
    ensures Strip(s) == s
  {
  }

  lemma {:induction false} EncodedIsPlain(data: Bytes)
    ensures '.' !in Encode(data) && forall i :: 0 <= i < |Encode(data)| ==> !IsSpace(Encode(data)[i])
  {
    Base64RoundTrip(data);
  }

  lemma {:induction false} PrintedIsStripped(id: string, secret: string, encoded: string)
    requires id != "" && !IsSpace(id[0]) && forall i :: 0 <= i < |encoded| ==> !IsSpace(encoded[i])
    ensures Strip(id + "." + secret + "." + encoded) == id + "." + secret + "." + encoded
  {
    var head := id + "." + secret + ".";
    var text := head + encoded;
    assert text[0] == id[0];
    assert text[|text| - 1] == if encoded == "" then head[|head| - 1] else encoded[|encoded| - 1];
    StripNothing(text);
  }

  lemma {:induction false} PrintedSplits(id: string, secret: string, encoded: string)
    requires '.' !in id && '.' !in secret && '.' !in encoded
    ensures Split(id + "." + secret + "." + encoded, '.') == [id, secret, encoded]
  {
    assert id + "." + secret + "." + encoded == id + ['.'] + (secret + ['.'] + encoded);
    SplitHead(id, '.', secret + ['.'] + encoded);
    SplitHead(secret, '.', encoded);
    SplitWhole(encoded, '.');
  }

  lemma {:induction false} IdIsPlain(id: string)
    requires IdMatches(id)
    ensures id != "" && !IsSpace(id[0]) && '.' !in id
  {
  }

  lemma {:induction false} GoodTokenPrints(t: Token)
    requires IdMatches(t.id) && '.' !in t.secret
    ensures Strip(Print(t)) == Print(t) && Split(Print(t), '.') == [t.id, t.secret, Encode(t.ca)]
  {
    IdIsPlain(t.id);
    EncodedIsPlain(t.ca);
    PrintedIsStripped(t.id, t.secret, Encode(t.ca));
    PrintedSplits(t.id, t.secret, Encode(t.ca));
  }

  /** A printed token is read back exactly when its id matches the pattern, its secret is not empty and holds no dot,
      and its CA is a certificate. */
  lemma {:induction false} TokenRoundTrip(t: Token, isCertificate: Bytes -> bool)
    ensures Parse(Print(t), isCertificate) == Some(t)
       <==> IdMatches(t.id) && t.secret != "" && '.' !in t.secret && isCertificate(t.ca)
  {
    Base64RoundTrip(t.ca);
    if IdMatches(t.id) && '.' !in t.secret {
      GoodTokenPrints(t);
    }
  }

  // ---- every text that is a token -------------------------------------------------------------

  predicate AllSpace(s: string) {
    forall i :: 0 <= i < |s| ==> IsSpace(s[i])
  }

  function Join(parts: seq<string>, c: char): string
    requires parts != []
  {
    if |parts| == 1 then parts[0] else parts[0] + [c] + Join(parts[1..], c)
  }

  lemma {:induction false} OneMoreJoined(part: string, rest: seq<string>, c: char)
    requires rest != []
    ensures Join([part] + rest, c) == part + [c] + Join(rest, c)
  {
    assert ([part] + rest)[1..] == rest;
  }

  lemma {:induction false} SplitJoins(s: string, c: char)
    ensures Join(Split(s, c), c) == s
    decreases |s|
  {
    hide Split, Join;
    var i := IndexOf(s, c);
    SplitsOnce(s, c);
    if i < |s| {
      var front, back := s[..i], s[i + 1..];
      SplitJoins(back, c);
      OneMoreJoined(front, Split(back, c), c);
      assert s == front + [c] + back;
    }
  }

  lemma {:induction false} SplitsOnce(s: string, c: char)
    ensures var i := IndexOf(s, c);
            if i < |s| then Split(s, c) == [s[..i]] + Split(s[i + 1..], c)
            else Split(s, c) == [s] && Join(Split(s, c), c) == s
  {
    hide IndexOf;
  }

  lemma {:induction false} ThreeJoined(a: string, b: string, d: string)
    ensures Join([a, b, d], '.') == a + "." + b + "." + d
  {
    assert [a, b, d][1..] == [b, d] && [b, d][1..] == [d];
    assert Join([b, d], '.') == b + ['.'] + d;
    assert a + ['.'] + (b + ['.'] + d) == a + "." + b + "." + d;
  }

  lemma {:induction false} StripsLeft(s: string)
    ensures exists a :: AllSpace(a) && s == a + StripLeft(s)
  {
    if s != "" && IsSpace(s[0]) {
      StripsLeft(s[1..]);
      var a :| AllSpace(a) && s[1..] == a + StripLeft(s[1..]);
      assert AllSpace([s[0]] + a) && s == [s[0]] + a + StripLeft(s);
    } else {
      assert AllSpace("") && s == "" + s;
    }
  }

  lemma {:induction false} StripsRight(s: string)
    ensures exists b :: AllSpace(b) && s == StripRight(s) + b
  {
    if s != "" && IsSpace(s[|s| - 1]) {
      StripsRight(s[..|s| - 1]);
      var b :| AllSpace(b) && s[..|s| - 1] == StripRight(s[..|s| - 1]) + b;
      assert AllSpace(b + [s[|s| - 1]]) && s == StripRight(s) + (b + [s[|s| - 1]]);
    } else {
      assert AllSpace("") && s == s + "";
    }
  }

  lemma {:induction false} StripLeftOf(a: string, s: string)
    requires AllSpace(a) && (s != "" ==> !IsSpace(s[0]))
    ensures StripLeft(a + s) == s
  {
    if a != "" {
      assert (a + s)[1..] == a[1..] + s;
      StripLeftOf(a[1..], s);
    } else {
      assert a + s == s;
    }
  }

  lemma {:induction false} StripRightOf(s: string, b: string)
    requires AllSpace(b) && (s != "" ==> !IsSpace(s[|s| - 1]))
    ensures StripRight(s + b) == s
  {
    if b != "" {
      assert (s + b)[..|s + b| - 1] == s + b[..|b| - 1];
      StripRightOf(s, b[..|b| - 1]);
    } else {
      assert s + b == s;
    }
  }

  /** The text is this token with space around it. */
  predicate Spells(text: string, before: string, id: string, secret: string, encoded: string, after: string) {
    AllSpace(before) && AllSpace(after) && text == before + (id + "." + secret + "." + encoded) + after
  }

  lemma {:induction false} SpelledIsRead(text: string, before: string, id: string, secret: string, encoded: string,
                                         after: string)
    requires Spells(text, before, id, secret, encoded, after)
    requires IdMatches(id) && '.' !in secret && InAlphabet(encoded)
    ensures Strip(text) == id + "." + secret + "." + encoded
    ensures Split(Strip(text), '.') == [id, secret, encoded]
  {
    var body := id + "." + secret + "." + encoded;
    IdIsPlain(id);
    LettersArePlain(encoded);
    assert body[0] == id[0];
    assert body[|body| - 1] == if encoded == "" then '.' else encoded[|encoded| - 1];
    StripLeftOf(before, body + after);
    assert before + body + after == before + (body + after);
    StripRightOf(body, after);
    PrintedSplits(id, secret, encoded);
  }

  lemma {:induction false} LettersArePlain(encoded: string)
    requires InAlphabet(encoded)
    ensures '.' !in encoded && forall i :: 0 <= i < |encoded| ==> !IsSpace(encoded[i])
  {
  }

  lemma {:induction false} ReadIsSpelled(text: string)
    requires |Split(Strip(text), '.')| == 3
    ensures var parts := Split(Strip(text), '.');
            exists before, after :: Spells(text, before, parts[0], parts[1], parts[2], after)
  {
    hide AllSpace, Strip, Join, Split;
    var parts := Split(Strip(text), '.');
    SplitJoins(Strip(text), '.');
    assert parts == [parts[0], parts[1], parts[2]];
    ThreeJoined(parts[0], parts[1], parts[2]);
    SpaceIsAround(text);
    var before, after :| AllSpace(before) && AllSpace(after) && text == before + Strip(text) + after;
    assert Spells(text, before, parts[0], parts[1], parts[2], after);
  }

  lemma {:induction false} SpaceIsAround(text: string)
    ensures exists before, after :: AllSpace(before) && AllSpace(after) && text == before + Strip(text) + after
  {
    hide StripLeft, StripRight, AllSpace;
    StripsLeft(text);
    var before :| AllSpace(before) && text == before + StripLeft(text);
    StripsRight(StripLeft(text));
    var after :| AllSpace(after) && StripLeft(text) == Strip(text) + after;
    assert text == before + Strip(text) + after;
  }

  /** Exactly the texts that spell a token out, with whatever space around it, are read as that token: an id that
      matches the pattern, a secret that is not empty and holds no dot, and a text that decodes to a certificate. */
  lemma {:induction false} ParsesExactly(text: string, isCertificate: Bytes -> bool, t: Token)
    ensures Parse(text, isCertificate) == Some(t)
       <==> && IdMatches(t.id) && t.secret != "" && '.' !in t.secret && isCertificate(t.ca)
            && exists before, encoded, after ::
                 InAlphabet(encoded) && Decode(encoded) == Some(t.ca)
                 && Spells(text, before, t.id, t.secret, encoded, after)
  {
    if Parse(text, isCertificate) == Some(t) {
      ReadIsSpelled(text);
    }
    if IdMatches(t.id) && '.' !in t.secret {
      forall before, encoded, after |
        InAlphabet(encoded) && Decode(encoded) == Some(t.ca) && Spells(text, before, t.id, t.secret, encoded, after)
        ensures Split(Strip(text), '.') == [t.id, t.secret, encoded]
      {
        SpelledIsRead(text, before, t.id, t.secret, encoded, after);
      }
    }
  }
}
