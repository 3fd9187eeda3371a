/** The text codecs: bytes as hexadecimal text, and 32-bit addresses as dotted quads. */
module StringEx {
  import opened Bytes
  import opened Text

  const U32: nat := 0x1_0000_0000

  // ---- hexadecimal ----

  function HexDigit(n: nat): char
    requires n < 16
  {
    if n < 10 then ('0' as int + n) as char else ('a' as int + n - 10) as char
  }

  /** "%02x" */
  function Two(b: byte): string {
    [HexDigit(b / 16), HexDigit(b % 16)]
  }

  function ToLower(c: char): char {
    if 'A' <= c <= 'Z' then (c as int + 32) as char else c
  }

  /** The value of a one-character hexadecimal string; anything else counts as 0. */
  function CharToInt(s: string): (v: nat)
    ensures v < 16
  {
    if |s| != 1 then 0
    else
      var c := ToLower(s[0]);
      if '1' <= c <= '9' then c as int - '0' as int
      else if 'a' <= c <= 'f' then c as int - 'a' as int + 10
      else 0
  }

  /** substr(0, 1) and substr(1, 1) of a non-empty token. */
  function DecodeToken(t: string): byte
    requires t != ""
  {
    CharToInt(t[..1]) * 16 + CharToInt(if |t| > 1 then t[1..2] else "")
  }

  /** The bytes of the tokens; None stands for the exception an empty token causes. */
  function Decode(tokens: seq<string>): (r: Option<Bytes>)
    ensures r.Some? ==> |r.value| == |tokens|
  {
    if tokens == [] then Some([])
    else if tokens[0] == "" then None
    else
      match Decode(tokens[1..])
      case None => None
      case Some(rest) => Some([DecodeToken(tokens[0])] + rest)
  }

  function FromHex(s: string): Option<Bytes> {
    Decode(Split(s, ' '))
  }

  /** Two digits a byte, single spaces between. */
  function ToHex(bs: Bytes): string {
    if bs == [] then ""
    else if |bs| == 1 then Two(bs[0])
    else Two(bs[0]) + " " + ToHex(bs[1..])
  }

  /** Two digits and a space for every byte. */
  function Spaced(bs: Bytes): string {
    if bs == [] then "" else Spaced(bs[..|bs| - 1]) + Two(bs[|bs| - 1]) + " "
  }

  lemma {:induction false} ToHexSnoc(bs: Bytes, b: byte)
    ensures ToHex(bs + [b]) == if bs == [] then Two(b) else ToHex(bs) + " " + Two(b)
  {
    if |bs| == 1 {
      assert (bs + [b])[1..] == [b];
    } else if |bs| > 1 {
      assert (bs + [b])[1..] == bs[1..] + [b];
      ToHexSnoc(bs[1..], b);
      assert Two(bs[0]) + " " + (ToHex(bs[1..]) + " " + Two(b)) == Two(bs[0]) + " " + ToHex(bs[1..]) + " " + Two(b);
    }
  }

  lemma {:induction false} SpacedIsToHex(bs: Bytes)
    requires bs != []
    ensures Spaced(bs) == ToHex(bs) + " "
  {
    var front, last := bs[..|bs| - 1], bs[|bs| - 1];
    assert bs == front + [last];
    ToHexSnoc(front, last);
    if front == [] {
    } else {
      SpacedIsToHex(front);
    }
  }

  lemma HexDigitIsNoSpace(n: nat)
    requires n < 16
    ensures !IsSpace(HexDigit(n)) && IsLowerHex(HexDigit(n)) && CharToInt([HexDigit(n)]) == n
  {}

  lemma {:induction false} ToHexEnds(bs: Bytes)
    requires bs != []
    ensures var s := ToHex(bs); |s| >= 2 && !IsSpace(s[0]) && !IsSpace(s[|s| - 1])
  {
    HexDigitIsNoSpace(bs[0] / 16);
    HexDigitIsNoSpace(bs[0] % 16);
    if |bs| > 1 { ToHexEnds(bs[1..]); }
  }

  /** Trimming the text with the trailing space leaves the canonical text. */
  lemma TrimSpaced(bs: Bytes)
    ensures Trim(Spaced(bs)) == ToHex(bs)
  {
    if bs != [] {
      SpacedIsToHex(bs);
      ToHexEnds(bs);
      var s := ToHex(bs);
      var t := s + " ";
      assert TrimLeft(t) == t && t[..|t| - 1] == s;
      assert TrimRight(t) == TrimRight(s) == s;
    }
  }

  lemma {:induction false} DecodeEach(tokens: seq<string>)
    ensures Decode(tokens).Some? <==> forall j :: 0 <= j < |tokens| ==> tokens[j] != ""
    ensures Decode(tokens).Some? ==>
      forall j :: 0 <= j < |tokens| ==> Decode(tokens).value[j] == DecodeToken(tokens[j])
  {
    if tokens == [] {
    } else {
      DecodeEach(tokens[1..]);
      assert forall j :: 1 <= j < |tokens| ==> tokens[j] == tokens[1..][j - 1];
      assert (forall j :: 0 <= j < |tokens| ==> tokens[j] != "") ==>
        forall j :: 0 <= j < |tokens[1..]| ==> tokens[1..][j] == tokens[j + 1];
    }
  }

  class StringEx {
    var str: string

    constructor ()
      ensures str == ""
    {
      str := "";
    }

    method Clear()
      modifies this
      ensures str == ""
    {
      str := "";
    }

    method StreamToString(p: Bytes) returns (r: string)
      modifies this
      ensures r == str == ToHex(p)
    {
      Clear();
      for i := 0 to |p|
        invariant str == Spaced(p[..i])
      {
        assert p[..i + 1][..i] == p[..i];
        str := str + (Two(p[i]) + " ");
      }
      assert p[..|p|] == p;
      TrimSpaced(p);
      str := Trim(str);
      r := str;
    }

    /** Fills the caller's buffer; false stands for the exception an empty token causes. */
    method StringToStream(s: string, out: array<byte>) returns (ok: bool)
      requires out.Length >= |Split(s, ' ')|
      modifies out
      ensures ok <==> FromHex(s).Some?
      ensures ok ==> out[..|FromHex(s).value|] == FromHex(s).value && |FromHex(s).value| == |Split(s, ' ')|
      ensures forall j :: |Split(s, ' ')| <= j < out.Length ==> out[j] == old(out[j])
    {
      var v := Split(s, ' ');
      DecodeEach(v);
      for i := 0 to |v|
        invariant forall j :: 0 <= j < i ==> v[j] != "" && out[j] == DecodeToken(v[j])
        invariant forall j :: |v| <= j < out.Length ==> out[j] == old(out[j])
      {
        if v[i] == "" {
          return false;
        }
        out[i] := DecodeToken(v[i]);
      }
      ok := true;
    }

    method IntToIp(n: nat) returns (r: string)
      requires n < U32
      modifies this
      ensures r == str == IpText(n)
    {
      Clear();
      var part1 := n % 256;
      var part2 := n / 256 % 256;
      var part3 := n / 256 / 256 % 256;
      var part4 := n / 256 / 256 / 256;
      str := str + Dotted(Dec(part1), Dec(part2), Dec(part3), Dec(part4));
      r := str;
    }

    /** None stands for bad_lexical_cast. */
    method IpToInt(s: string) returns (r: Option<nat>)
      ensures r == IpValue(s)
    {
      var v := Split(s, '.');
      if |v| != 4 {
        return Some(0);
      }
      var data0 := LexicalCast(v[0]);
      if data0.None? { return None; }
      var data1 := LexicalCast(v[1]);
      if data1.None? { return None; }
      var data2 := LexicalCast(v[2]);
      if data2.None? { return None; }
      var data3 := LexicalCast(v[3]);
      if data3.None? { return None; }
      var low, high := data0.value % 256 + data1.value % 256 * 256, data2.value % 256 + data3.value % 256 * 256;
      return Some((low + high * 256 * 256) % U32);
    }
  }

  // ---- main results: hexadecimal ----

  /** Decoding undoes encoding on every byte sequence but the empty one, which it rejects. */
  lemma HexRoundTripIffNonEmpty(bs: Bytes)
    ensures FromHex(ToHex(bs)) == Some(bs) <==> bs != []
  {
    if bs == [] {
      assert Split("", ' ') == [""];
    } else {
      DecodeToHex(bs);
    }
  }

  lemma TwoDecodes(b: byte)
    ensures ' ' !in Two(b) && DecodeToken(Two(b)) == b
  {
    HexDigitIsNoSpace(b / 16);
    HexDigitIsNoSpace(b % 16);
    assert Two(b)[..1] == [HexDigit(b / 16)] && Two(b)[1..2] == [HexDigit(b % 16)];
  }

  /** Decoding a lone token, and a token in front of more text. */
  lemma DecodeFirst(t: string, rest: string)
    requires t != "" && ' ' !in t
    ensures FromHex(t) == Some([DecodeToken(t)])
    ensures rest != "" && rest[0] != ' ' && FromHex(rest).Some? ==>
      FromHex(t + " " + rest) == Some([DecodeToken(t)] + FromHex(rest).value)
  {
    var alone := [t];
    assert Split(t, ' ') == alone && alone[1..] == [];
    assert Decode(alone[1..]) == Some([]);
    assert Decode(alone) == Some([DecodeToken(t)] + []);
    assert [DecodeToken(t)] + [] == [DecodeToken(t)];
    if rest != "" && rest[0] != ' ' {
      SplitFirst(t, rest, ' ');
      assert ([t] + Split(rest, ' '))[1..] == Split(rest, ' ');
    }
  }

  lemma {:induction false} DecodeToHex(bs: Bytes)
    requires bs != []
    ensures FromHex(ToHex(bs)) == Some(bs)
  {
    TwoDecodes(bs[0]);
    assert bs == [bs[0]] + bs[1..];
    if |bs| == 1 {
      DecodeFirst(Two(bs[0]), "");
    } else {
      ToHexEnds(bs[1..]);
      DecodeToHex(bs[1..]);
      DecodeFirst(Two(bs[0]), ToHex(bs[1..]));
    }
  }

  predicate IsLowerHex(c: char) {
    '0' <= c <= '9' || 'a' <= c <= 'f'
  }

  /** Lower-case two-digit groups with single spaces between them. */
  predicate CanonicalHex(s: string) {
    && |s| % 3 == 2
    && forall i :: 0 <= i < |s| ==> if i % 3 == 2 then s[i] == ' ' else IsLowerHex(s[i])
  }

  lemma GroupInFront(t: string, rest: string)
    requires |t| == 2 && IsLowerHex(t[0]) && IsLowerHex(t[1]) && CanonicalHex(rest)
    ensures CanonicalHex(t + " " + rest)
  {
    var s := t + " " + rest;
    forall i | 0 <= i < |s|
      ensures if i % 3 == 2 then s[i] == ' ' else IsLowerHex(s[i])
    {
      if i >= 3 {
        assert s[i] == rest[i - 3] && (i - 3) % 3 == i % 3;
      }
    }
  }

  lemma {:induction false} ToHexIsCanonical(bs: Bytes)
    requires bs != []
    ensures CanonicalHex(ToHex(bs))
  {
    HexDigitIsNoSpace(bs[0] / 16);
    HexDigitIsNoSpace(bs[0] % 16);
    if |bs| > 1 {
      ToHexIsCanonical(bs[1..]);
      GroupInFront(Two(bs[0]), ToHex(bs[1..]));
    }
  }

  lemma HexCharBack(c: char)
    requires IsLowerHex(c)
    ensures HexDigit(CharToInt([c])) == c && c != ' '
  {}

  lemma LowerHexIsTwo(s: string)
    requires |s| == 2 && IsLowerHex(s[0]) && IsLowerHex(s[1])
    ensures Two(DecodeToken(s)) == s && ' ' !in s
  {
    HexCharBack(s[0]);
    HexCharBack(s[1]);
    assert s[..1] == [s[0]] && s[1..2] == [s[1]];
  }

  lemma {:induction false} CanonicalDecodes(s: string)
    requires CanonicalHex(s)
    ensures FromHex(s).Some? && FromHex(s).value != [] && ToHex(FromHex(s).value) == s
    decreases |s|
  {
    var t := s[..2];
    assert IsLowerHex(s[0]) && IsLowerHex(s[1]);
    LowerHexIsTwo(t);
    if |s| == 2 {
      assert t == s;
      DecodeFirst(t, "");
    } else {
      var rest := s[3..];
      RestIsCanonical(s);
      CanonicalDecodes(rest);
      DecodeFirst(t, rest);
      assert FromHex(s).value[1..] == FromHex(rest).value;
    }
  }

  lemma RestIsCanonical(s: string)
    requires CanonicalHex(s) && |s| > 2
    ensures CanonicalHex(s[3..]) && s[3..][0] != ' ' && s == s[..2] + " " + s[3..]
  {
    var rest := s[3..];
    forall i | 0 <= i < |rest|
      ensures if i % 3 == 2 then rest[i] == ' ' else IsLowerHex(rest[i])
    {
      assert rest[i] == s[i + 3] && (i + 3) % 3 == i % 3;
    }
    assert IsLowerHex(rest[0]);
    assert s[2] == ' ';
  }

  /** Encoding undoes decoding exactly on the canonical texts. */
  lemma HexTextRoundTripIffCanonical(s: string)
    ensures FromHex(s).Some? && ToHex(FromHex(s).value) == s <==> CanonicalHex(s)
  {
    if CanonicalHex(s) {
      CanonicalDecodes(s);
    } else if FromHex(s).Some? {
      ToHexIsCanonical(FromHex(s).value);
    }
  }

  // ---- main results: what decoding makes of any text ----

  /** The same text in upper case. */
  function ToUpper(c: char): char {
    if 'a' <= c <= 'z' then (c as int - 32) as char else c
  }

  function Upper(s: string): string {
    seq(|s|, i requires 0 <= i < |s| => ToUpper(s[i]))
  }

  lemma {:induction false} UpperIndex(s: string)
    ensures IndexOf(Upper(s), ' ') == IndexOf(s, ' ')
  {
    if s == "" {
    } else {
      assert Upper(s)[1..] == Upper(s[1..]);
      UpperIndex(s[1..]);
    }
  }

  lemma {:induction false} UpperSkip(s: string)
    ensures SkipRun(Upper(s), ' ') == Upper(SkipRun(s, ' '))
  {
    if s == "" {
    } else {
      assert Upper(s)[1..] == Upper(s[1..]);
      UpperSkip(s[1..]);
    }
  }

  function UpperEach(tokens: seq<string>): seq<string> {
    if tokens == [] then [] else [Upper(tokens[0])] + UpperEach(tokens[1..])
  }

  lemma {:induction false} UpperSplit(s: string)
    ensures Split(Upper(s), ' ') == UpperEach(Split(s, ' '))
    decreases |s|
  {
    UpperIndex(s);
    var i := IndexOf(s, ' ');
    if i == |s| {
      assert [s][1..] == [] && UpperEach([s]) == [Upper(s)] + [];
    } else {
      var more := Split(SkipRun(s[i..], ' '), ' ');
      assert Upper(s)[..i] == Upper(s[..i]) && Upper(s)[i..] == Upper(s[i..]);
      UpperSkip(s[i..]);
      UpperSplit(SkipRun(s[i..], ' '));
      assert ([s[..i]] + more)[1..] == more;
    }
  }

  lemma UpperToken(t: string)
    requires t != ""
    ensures DecodeToken(Upper(t)) == DecodeToken(t)
  {
    assert Upper(t)[..1] == [ToUpper(t[0])] && t[..1] == [t[0]];
    if |t| > 1 {
      assert Upper(t)[1..2] == [ToUpper(t[1])] && t[1..2] == [t[1]];
    }
  }

  lemma {:induction false} UpperDecode(tokens: seq<string>)
    ensures Decode(UpperEach(tokens)) == Decode(tokens)
  {
    if tokens == [] {
    } else {
      var u, more := Upper(tokens[0]), UpperEach(tokens[1..]);
      assert ([u] + more)[0] == u && ([u] + more)[1..] == more;
      UpperDecode(tokens[1..]);
      if tokens[0] != "" { UpperToken(tokens[0]); }
    }
  }

  /** Upper and lower case decode alike. */
  lemma CaseDoesNotMatter(s: string)
    ensures FromHex(Upper(s)) == FromHex(s)
  {
    UpperSplit(s);
    UpperDecode(Split(s, ' '));
  }

  /** The sixteen digits have their values in both cases, and every other character counts as 0. */
  lemma DigitValues(c: char)
    ensures CharToInt([c]) ==
      if '0' <= c <= '9' then c as int - 48
      else if 'a' <= c <= 'f' then c as int - 87
      else if 'A' <= c <= 'F' then c as int - 55
      else 0
  {}

  /** A token counts by its first two characters, the second being 0 if it is missing. */
  lemma TokenValue(t: string)
    requires t != ""
    ensures DecodeToken(t) == CharToInt([t[0]]) * 16 + (if |t| > 1 then CharToInt([t[1]]) else 0)
  {
    assert t[..1] == [t[0]] && (|t| > 1 ==> t[1..2] == [t[1]]);
  }

  // ---- dotted quads ----

  function Digit(n: nat): char
    requires n < 10
  {
    ('0' as int + n) as char
  }

  predicate IsDigit(c: char) { '0' <= c <= '9' }

  /** "%d" of a natural number. */
  function Dec(n: nat): string {
    if n < 10 then [Digit(n)] else Dec(n / 10) + [Digit(n % 10)]
  }

  predicate AllDigits(s: string) {
    forall c :: c in s ==> IsDigit(c)
  }

  function Value(s: string): nat
    requires AllDigits(s)
  {
    if s == "" then 0
    else
      assert IsDigit(s[|s| - 1]);
      Value(s[..|s| - 1]) * 10 + (s[|s| - 1] as int - '0' as int)
  }

  /** lexical_cast to a 32-bit unsigned: an optional sign, then digits; a minus sign negates modulo 2^32. */
  function LexicalCast(s: string): Option<nat> {
    var signed := s != "" && (s[0] == '-' || s[0] == '+');
    var digits := if signed then s[1..] else s;
    if digits == "" || !AllDigits(digits) || Value(digits) >= U32 then None
    else if signed && s[0] == '-' then Some((U32 - Value(digits)) % U32)
    else Some(Value(digits))
  }

  /** Four texts with dots between. */
  function Dotted(a: string, b: string, c: string, d: string): string {
    a + ['.'] + (b + ['.'] + (c + ['.'] + d))
  }

  /** The four parts of an address, lowest byte first, as text. */
  function Quad(a: nat, b: nat, c: nat, d: nat): string {
    Dotted(Dec(a), Dec(b), Dec(c), Dec(d))
  }

  function IpText(n: nat): string {
    Quad(n % 256, n / 256 % 256, n / 256 / 256 % 256, n / 256 / 256 / 256)
  }

  /** None stands for bad_lexical_cast; text without exactly four parts gives 0. */
  function IpValue(s: string): Option<nat> {
    var v := Split(s, '.');
    if |v| != 4 then Some(0)
    else
      match (LexicalCast(v[0]), LexicalCast(v[1]), LexicalCast(v[2]), LexicalCast(v[3]))
      case (Some(a), Some(b), Some(c), Some(d)) => Some(Join(a % 256, b % 256, c % 256, d % 256))
      case _ => None
  }

  function Join(a: nat, b: nat, c: nat, d: nat): nat {
    (a + b * 256 + c * 256 * 256 + d * 256 * 256 * 256) % U32
  }

  lemma {:induction false} ValueOfDec(n: nat)
    ensures AllDigits(Dec(n)) && Value(Dec(n)) == n
  {
    if n >= 10 {
      ValueOfDec(n / 10);
      assert Dec(n)[..|Dec(n)| - 1] == Dec(n / 10);
    }
  }

  /** At most three digits, no leading zero, at most 255. */
  predicate CanonicalOctet(s: string) {
    AllDigits(s) && 1 <= |s| <= 3 && (|s| > 1 ==> s[0] != '0') && Value(s) < 256
  }

  lemma {:induction false} DecOfValue(s: string)
    requires AllDigits(s) && s != "" && (|s| > 1 ==> s[0] != '0')
    ensures Dec(Value(s)) == s
    ensures |s| > 1 || s[0] != '0' ==> Value(s) > 0
  {
    var front, last := s[..|s| - 1], s[|s| - 1];
    assert s == front + [last];
    assert IsDigit(last) && IsDigit(s[0]);
    if front != "" {
      assert front[0] == s[0];
      DecOfValue(front);
      assert Value(s) / 10 == Value(front) && Value(s) % 10 == last as int - '0' as int;
    }
  }

  lemma CastOfDec(n: nat)
    requires n < U32
    ensures LexicalCast(Dec(n)) == Some(n)
  {
    ValueOfDec(n);
    assert IsDigit(Dec(n)[0]);
  }

  lemma DecIsCanonical(n: nat)
    requires n < 256
    ensures CanonicalOctet(Dec(n)) && '.' !in Dec(n)
  {
    ValueOfDec(n);
    assert n >= 10 ==> Dec(n) == Dec(n / 10) + [Digit(n % 10)];
    assert n >= 100 ==> Dec(n / 10) == Dec(n / 100) + [Digit(n / 10 % 10)];
  }

  lemma SplitOnce(t: string, rest: string, tokens: seq<string>)
    requires '.' !in t && rest != "" && rest[0] != '.' && Split(rest, '.') == tokens
    ensures Split(t + ['.'] + rest, '.') == [t] + tokens
  {
    SplitFirst(t, rest, '.');
  }

  predicate DotFree(t: string) { t != "" && '.' !in t }

  lemma SplitThree(b: string, c: string, d: string)
    requires DotFree(b) && DotFree(c) && DotFree(d)
    ensures Split(b + ['.'] + (c + ['.'] + d), '.') == [b, c, d]
  {
    SplitOnce(c, d, [d]);
    var cd := c + ['.'] + d;
    assert cd[0] == c[0];
    SplitOnce(b, cd, [c, d]);
  }

  /** Four dot-free parts joined by dots are split into those four parts. */
  lemma SplitQuad(a: string, b: string, c: string, d: string)
    requires DotFree(a) && DotFree(b) && DotFree(c) && DotFree(d)
    ensures Split(Dotted(a, b, c, d), '.') == [a, b, c, d]
  {
    SplitThree(b, c, d);
    var bcd := b + ['.'] + (c + ['.'] + d);
    assert bcd[0] == b[0];
    SplitOnce(a, bcd, [b, c, d]);
  }

  /** Exactly the texts int_to_ip produces. */
  predicate CanonicalQuad(s: string) {
    var v := Split(s, '.');
    && |v| == 4
    && (forall t :: t in v ==> CanonicalOctet(t))
    && s == Dotted(v[0], v[1], v[2], v[3])
  }

  lemma QuadIsCanonical(a: nat, b: nat, c: nat, d: nat)
    requires a < 256 && b < 256 && c < 256 && d < 256
    ensures CanonicalQuad(Quad(a, b, c, d)) && |Quad(a, b, c, d)| <= 15
    ensures Split(Quad(a, b, c, d), '.') == [Dec(a), Dec(b), Dec(c), Dec(d)]
  {
    DecIsCanonical(a);
    DecIsCanonical(b);
    DecIsCanonical(c);
    DecIsCanonical(d);
    SplitQuad(Dec(a), Dec(b), Dec(c), Dec(d));
  }

  lemma QuadToInt(a: nat, b: nat, c: nat, d: nat)
    requires a < 256 && b < 256 && c < 256 && d < 256
    ensures IpValue(Quad(a, b, c, d)) == Some(Join(a, b, c, d))
  {
    var s, v := Quad(a, b, c, d), [Dec(a), Dec(b), Dec(c), Dec(d)];
    assert Split(s, '.') == v by { QuadIsCanonical(a, b, c, d); }
    CastOfDec(a);
    CastOfDec(b);
    CastOfDec(c);
    CastOfDec(d);
    CastParts(s, v, a, b, c, d);
  }

  lemma CastParts(s: string, v: seq<string>, a: nat, b: nat, c: nat, d: nat)
    requires Split(s, '.') == v && |v| == 4
    requires a < 256 && b < 256 && c < 256 && d < 256
    requires LexicalCast(v[0]) == Some(a) && LexicalCast(v[1]) == Some(b)
    requires LexicalCast(v[2]) == Some(c) && LexicalCast(v[3]) == Some(d)
    ensures IpValue(s) == Some(Join(a, b, c, d))
  {
    assert a % 256 == a && b % 256 == b && c % 256 == c && d % 256 == d;
  }

  /** The bytes of a 32-bit value make it up again. */
  lemma JoinSplit(n: nat)
    requires n < U32
    ensures n / 256 / 256 / 256 < 256
    ensures Join(n % 256, n / 256 % 256, n / 256 / 256 % 256, n / 256 / 256 / 256) == n
  {
    var n1 := n / 256;
    var n2 := n1 / 256;
    var n3 := n2 / 256;
    assert n == n1 * 256 + n % 256 && n1 == n2 * 256 + n1 % 256 && n2 == n3 * 256 + n2 % 256;
  }

  lemma SplitJoin(a: nat, b: nat, c: nat, d: nat)
    requires a < 256 && b < 256 && c < 256 && d < 256
    ensures IpText(Join(a, b, c, d)) == Quad(a, b, c, d)
  {
    JoinIsSum(a, b, c, d);
    LowestByteFirst(Join(a, b, c, d), a, b, c, d);
  }

  lemma LowByte(low: nat, high: nat)
    requires low < 256
    ensures (low + 256 * high) % 256 == low && (low + 256 * high) / 256 == high
  {}

  // ---- main results: addresses ----

  /** A part of an address is a number with leading zeros and a sign allowed, a minus sign modulo 2^32. */
  lemma PartValue(digits: string)
    requires AllDigits(digits) && digits != ""
    ensures LexicalCast(digits) == (if Value(digits) < 0x1_0000_0000 then Some(Value(digits)) else None)
    ensures LexicalCast("+" + digits) == LexicalCast(digits)
    ensures Value(digits) < 0x1_0000_0000 ==>
      LexicalCast("-" + digits) == Some(if Value(digits) == 0 then 0 else 0x1_0000_0000 - Value(digits))
    ensures Value("0" + digits) == Value(digits)
  {
    assert IsDigit(digits[0]);
    assert ("+" + digits)[1..] == digits && ("-" + digits)[1..] == digits;
    LeadingZero(digits);
  }

  lemma {:induction false} LeadingZero(digits: string)
    requires AllDigits(digits)
    ensures AllDigits("0" + digits) && Value("0" + digits) == Value(digits)
  {
    if digits == "" {
      assert "0" + digits == "0" && "0"[..0] == "";
    } else {
      var front := digits[..|digits| - 1];
      assert ("0" + digits)[..|digits|] == "0" + front;
      LeadingZero(front);
    }
  }

  lemma FourBytes(n: nat, a: nat, b: nat, c: nat, d: nat)
    requires a < 256 && b < 256 && c < 256 && d < 256 && n == a + 256 * (b + 256 * (c + 256 * d))
    ensures n % 256 == a && n / 256 % 256 == b && n / 256 / 256 % 256 == c && n / 256 / 256 / 256 == d
  {
    var n2 := c + 256 * d;
    var n1 := b + 256 * n2;
    LowByte(a, n1);
    LowByte(b, n2);
    LowByte(c, d);
  }

  /** The lowest byte comes first when it is written as text ... */
  lemma LowestByteFirst(n: nat, a: nat, b: nat, c: nat, d: nat)
    requires a < 256 && b < 256 && c < 256 && d < 256 && n == a + 256 * (b + 256 * (c + 256 * d))
    ensures IpText(n) == Dotted(Dec(a), Dec(b), Dec(c), Dec(d))
  {
    FourBytes(n, a, b, c, d);
  }

  lemma JoinIsSum(a: nat, b: nat, c: nat, d: nat)
    requires a < 256 && b < 256 && c < 256 && d < 256
    ensures Join(a, b, c, d) == a + 256 * (b + 256 * (c + 256 * d))
  {}

  /** ... and when it is read back. */
  lemma ReadLowestFirst(n: nat, a: nat, b: nat, c: nat, d: nat)
    requires a < 256 && b < 256 && c < 256 && d < 256 && n == a + 256 * (b + 256 * (c + 256 * d))
    ensures IpValue(Quad(a, b, c, d)) == Some(n)
  {
    assert n == Join(a, b, c, d) by { JoinIsSum(a, b, c, d); }
    QuadToInt(a, b, c, d);
  }

  /** ip_to_int undoes int_to_ip on every 32-bit value, and the text fits the 16-byte buffer. */
  lemma IpRoundTrip(n: nat)
    requires n < U32
    ensures IpValue(IpText(n)) == Some(n) && |IpText(n)| <= 15
  {
    JoinSplit(n);
    QuadIsCanonical(n % 256, n / 256 % 256, n / 256 / 256 % 256, n / 256 / 256 / 256);
    QuadToInt(n % 256, n / 256 % 256, n / 256 / 256 % 256, n / 256 / 256 / 256);
  }

  /** int_to_ip undoes ip_to_int exactly on the canonical dotted quads. */
  lemma IpTextRoundTripIffCanonical(s: string)
    ensures IpValue(s).Some? && IpText(IpValue(s).value) == s <==> CanonicalQuad(s)
  {
    if CanonicalQuad(s) {
      var v := Split(s, '.');
      assert CanonicalOctet(v[0]) && CanonicalOctet(v[1]) && CanonicalOctet(v[2]) && CanonicalOctet(v[3]);
      var a, b, c, d := Value(v[0]), Value(v[1]), Value(v[2]), Value(v[3]);
      DecOfValue(v[0]);
      DecOfValue(v[1]);
      DecOfValue(v[2]);
      DecOfValue(v[3]);
      assert s == Quad(a, b, c, d);
      QuadToInt(a, b, c, d);
      SplitJoin(a, b, c, d);
    } else if IpValue(s).Some? {
      var n := IpValue(s).value;
      JoinSplit(n);
      QuadIsCanonical(n % 256, n / 256 % 256, n / 256 / 256 % 256, n / 256 / 256 / 256);
    }
  }
}
