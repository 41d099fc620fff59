/**
 Base64 text (section 4 of RFC 4648) and the URL-safe variant of the Gmail transport
 (section 5 of RFC 4648, with the padding left out).
 */
module Base64 {

  type Byte = n: int | 0 <= n < 256
  type Sextet = n: int | 0 <= n < 64

  // ------------------------------------------------------------- bytes and sextets

  function Sextets(b: seq<Byte>): seq<Sextet> {
    if |b| == 0 then []
    else if |b| == 1 then [b[0] / 4, b[0] % 4 * 16]
    else if |b| == 2 then [b[0] / 4, b[0] % 4 * 16 + b[1] / 16, b[1] % 16 * 4]
    else [b[0] / 4, b[0] % 4 * 16 + b[1] / 16, b[1] % 16 * 4 + b[2] / 64, b[2] % 64] + Sextets(b[3..])
  }

  function Bytes(s: seq<Sextet>): seq<Byte> {
    if |s| < 2 then [] else
      var first := s[0] as int * 4 + s[1] / 16;
      if |s| == 2 then [first] else
        var second := s[1] as int % 16 * 16 + s[2] / 4;
        if |s| == 3 then [first, second] else
          var third := s[2] as int % 4 * 64 + s[3];
          [first, second, third] + Bytes(s[4..])
  }

  lemma {:induction false} BytesOfSextets(b: seq<Byte>)
    ensures Bytes(Sextets(b)) == b
    ensures |Sextets(b)| == |b| / 3 * 4 + (if |b| % 3 == 0 then 0 else |b| % 3 + 1)
  {
    if |b| >= 3 {
      BytesOfSextets(b[3..]);
      assert Sextets(b)[4..] == Sextets(b[3..]);
      assert b == b[..3] + b[3..];
    }
  }

  // ------------------------------------------------------------------- characters

  function Char(v: Sextet): char {
    if v < 26 then ('A' as int + v) as char
    else if v < 52 then ('a' as int + v - 26) as char
    else if v < 62 then ('0' as int + v - 52) as char
    else if v == 62 then '+' else '/'
  }

  /** The decoder takes both alphabets and skips every other character (-1 here). */
  function Value(c: char): (v: int)
    ensures -1 <= v < 64
  {
    if 'A' <= c <= 'Z' then c as int - 'A' as int
    else if 'a' <= c <= 'z' then c as int - 'a' as int + 26
    else if '0' <= c <= '9' then c as int - '0' as int + 52
    else if c == '+' || c == '-' then 62
    else if c == '/' || c == '_' then 63
    else -1
  }

  function Chars(s: seq<Sextet>): string {
    seq(|s|, i requires 0 <= i < |s| => Char(s[i]))
  }

  function Values(text: string): seq<Sextet> {
    if text == "" then [] else
      (if Value(text[0]) == -1 then [] else [Value(text[0])]) + Values(text[1..])
  }

  function Repeat(c: char, n: nat): string {
    seq(n, _ => c)
  }

  function Replaced(text: string, from: char, to: char): string {
    seq(|text|, i requires 0 <= i < |text| => if text[i] == from then to else text[i])
  }

  function StripTrailing(text: string, c: char): string {
    if text != "" && text[|text| - 1] == c then StripTrailing(text[..|text| - 1], c) else text
  }

  // ------------------------------------------------------------------ both variants

  function Encode(b: seq<Byte>): string {
    Chars(Sextets(b)) + Repeat('=', (3 - |b| % 3) % 3)
  }

  function Decode(text: string): seq<Byte> {
    Bytes(Values(text))
  }

  function UrlEncode(b: seq<Byte>): string {
    StripTrailing(Replaced(Replaced(Encode(b), '+', '-'), '/', '_'), '=')
  }

  /** The standard text rebuilt from a URL-safe one: alphabet swapped back, padding recomputed. */
  function Restore(text: string): string {
    var normalized := Replaced(Replaced(text, '-', '+'), '_', '/');
    normalized + Repeat('=', if |normalized| % 4 == 0 then 0 else 4 - |normalized| % 4)
  }

  function UrlDecode(text: string): seq<Byte> {
    Decode(Restore(text))
  }

  lemma {:induction false} ValuesOfChars(s: seq<Sextet>, pads: nat)
    ensures Values(Chars(s) + Repeat('=', pads)) == s
    decreases |s|, pads
  {
    var text := Chars(s) + Repeat('=', pads);
    if s != [] {
      assert text[1..] == Chars(s[1..]) + Repeat('=', pads);
      ValuesOfChars(s[1..], pads);
    } else if pads > 0 {
      assert text[1..] == Chars(s) + Repeat('=', pads - 1);
      ValuesOfChars(s, pads - 1);
    }
  }

  lemma DecodeEncode(b: seq<Byte>)
    ensures Decode(Encode(b)) == b
  {
    ValuesOfChars(Sextets(b), (3 - |b| % 3) % 3);
    BytesOfSextets(b);
  }

  lemma {:induction false} StripPadding(body: string, pads: nat)
    requires forall i :: 0 <= i < |body| ==> body[i] != '='
    ensures StripTrailing(body + Repeat('=', pads), '=') == body
  {
    if pads > 0 {
      assert (body + Repeat('=', pads))[..|body| + pads - 1] == body + Repeat('=', pads - 1);
      StripPadding(body, pads - 1);
    } else {
      assert body + Repeat('=', 0) == body;
    }
  }

  /** What the URL-safe text looks like: the standard characters with two of them swapped, and no padding. */
  lemma UrlEncodeBody(b: seq<Byte>)
    ensures UrlEncode(b) == Replaced(Replaced(Chars(Sextets(b)), '+', '-'), '/', '_')
  {
    var pads := (3 - |b| % 3) % 3;
    var body := Replaced(Replaced(Chars(Sextets(b)), '+', '-'), '/', '_');
    assert Replaced(Replaced(Encode(b), '+', '-'), '/', '_') == body + Repeat('=', pads);
    StripPadding(body, pads);
  }

  lemma SwapBack(body: string)
    requires forall i :: 0 <= i < |body| ==> body[i] !in {'-', '_'}
    ensures Replaced(Replaced(Replaced(Replaced(body, '+', '-'), '/', '_'), '-', '+'), '_', '/') == body
  {
  }

  /** Decoding first restores the exact standard text, padding included. */
  lemma RestoreUrlEncode(b: seq<Byte>)
    ensures Restore(UrlEncode(b)) == Encode(b)
  {
    UrlEncodeBody(b);
    BytesOfSextets(b);
    var body := Chars(Sextets(b));
    SwapBack(body);
    PaddingRecomputed(|b| / 3, |b| % 3);
  }

  lemma PaddingRecomputed(groups: nat, rest: nat)
    requires rest < 3
    ensures var length := groups * 4 + (if rest == 0 then 0 else rest + 1);
            (if length % 4 == 0 then 0 else 4 - length % 4) == (3 - rest) % 3
  {
  }

  lemma UrlRoundTrip(b: seq<Byte>)
    ensures UrlDecode(UrlEncode(b)) == b
    ensures forall i :: 0 <= i < |UrlEncode(b)| ==> UrlEncode(b)[i] !in {'+', '/', '='}
  {
    RestoreUrlEncode(b);
    DecodeEncode(b);
    UrlEncodeBody(b);
  }
}
