/**
 The string operations the runtime relies on: trimming, byte length, and decimal
 identifiers built with a separator. A Dafny `string` holds the characters of a Go string;
 Go's `len` counts the bytes of their UTF-8 encoding, which is `ByteLen` here.
 */
module Text {

  // ---- Trimming (strings.TrimSpace) ----

  /** The characters with Unicode property White_Space, as Go's unicode.IsSpace has them. */
  predicate IsSpace(c: char) {
    || '\U{0009}' <= c <= '\U{000D}' || c == ' ' || c == '\U{0085}' || c == '\U{00A0}'
    || c == '\U{1680}' || '\U{2000}' <= c <= '\U{200A}' || c == '\U{2028}' || c == '\U{2029}'
    || c == '\U{202F}' || c == '\U{205F}' || c == '\U{3000}'
  }

  function TrimLeft(s: string): string {
    if s != [] && IsSpace(s[0]) then TrimLeft(s[1..]) else s
  }

  function TrimRight(s: string): string {
    if s != [] && IsSpace(s[|s| - 1]) then TrimRight(s[..|s| - 1]) else s
  }

  function TrimSpace(s: string): string {
    TrimRight(TrimLeft(s))
  }

  predicate Blank(s: string) {
    TrimSpace(s) == ""
  }

  predicate AllSpace(s: string) {
    forall i :: 0 <= i < |s| ==> IsSpace(s[i])
  }

  lemma {:induction false} TrimLeftIsSuffix(s: string)
    ensures var r := TrimLeft(s);
            (r != [] ==> !IsSpace(r[0])) && (r == [] <==> AllSpace(s)) && |r| <= |s| && r == s[|s| - |r|..]
  {
    if s != [] && IsSpace(s[0]) {
      TrimLeftIsSuffix(s[1..]);
      assert AllSpace(s) <==> AllSpace(s[1..]) by {
        assert s == [s[0]] + s[1..];
      }
    }
  }

  lemma {:induction false} TrimRightIsPrefix(s: string)
    ensures var r := TrimRight(s);
            (r != [] ==> !IsSpace(r[|r| - 1])) && (r == [] <==> AllSpace(s)) && |r| <= |s| && r == s[..|r|]
  {
    if s != [] && IsSpace(s[|s| - 1]) {
      TrimRightIsPrefix(s[..|s| - 1]);
      assert AllSpace(s) <==> AllSpace(s[..|s| - 1]) by {
        assert s == s[..|s| - 1] + [s[|s| - 1]];
      }
    }
  }

  lemma BlankIffAllSpace(s: string)
    ensures Blank(s) <==> AllSpace(s)
  {
    var t := TrimLeft(s);
    TrimLeftIsSuffix(s);
    TrimRightIsPrefix(t);
    if t != [] {
      assert s[|s| - |t|] == t[0];
    }
  }

  lemma TrimIsIdempotent(s: string)
    ensures TrimSpace(TrimSpace(s)) == TrimSpace(s)
  {
    TrimLeftIsSuffix(s);
    TrimRightIsPrefix(TrimLeft(s));
  }

  /** A text that is all white space has only white-space beginnings. */
  lemma BlankPrefix(s: string, t: string)
    requires s <= t && Blank(t)
    ensures Blank(s)
  {
    BlankIffAllSpace(s);
    BlankIffAllSpace(t);
  }

  // ---- Byte length (len) ----

  function CharBytes(c: char): nat {
    if c < '\U{0080}' then 1 else if c < '\U{0800}' then 2 else if c < '\U{10000}' then 3 else 4
  }

  function ByteLen(s: string): nat {
    if s == [] then 0 else CharBytes(s[0]) + ByteLen(s[1..])
  }

  lemma {:induction false} ByteLenConcat(s: string, t: string)
    ensures ByteLen(s + t) == ByteLen(s) + ByteLen(t)
  {
    if s == [] {
      assert s + t == t;
    } else {
      assert (s + t)[1..] == s[1..] + t;
      ByteLenConcat(s[1..], t);
    }
  }

  lemma ByteLenGrows(s: string, t: string)
    ensures ByteLen(s) <= ByteLen(s + t)
    ensures ByteLen(s) == ByteLen(s + t) <==> t == ""
  {
    ByteLenConcat(s, t);
  }

  // ---- Decimal identifiers (fmt.Sprintf("...:%d", n)) ----

  function Digit(d: nat): char
    requires d < 10
  {
    (48 + d) as char
  }

  function Decimal(n: nat): (s: string)
    ensures s != "" && ':' !in s && forall i :: 0 <= i < |s| ==> '0' <= s[i] <= '9'
  {
    if n < 10 then [Digit(n)] else Decimal(n / 10) + [Digit(n % 10)]
  }

  function DecimalValue(s: string): int {
    if s == [] then 0 else 10 * DecimalValue(s[..|s| - 1]) + (s[|s| - 1] as int - 48)
  }

  lemma {:induction false} DecimalRoundTrip(n: nat)
    ensures DecimalValue(Decimal(n)) == n
  {
    if n >= 10 {
      DecimalRoundTrip(n / 10);
      assert Decimal(n)[..|Decimal(n)| - 1] == Decimal(n / 10);
    } else {
      assert Decimal(n)[..0] == [];
    }
  }

  /** The part of s behind its last colon. */
  function AfterLastColon(s: string): string {
    if s == [] || s[|s| - 1] == ':' then [] else AfterLastColon(s[..|s| - 1]) + [s[|s| - 1]]
  }

  lemma {:induction false} AfterLastColonOf(p: string, d: string)
    requires ':' !in d
    ensures AfterLastColon(p + ":" + d) == d
  {
    var s := p + ":" + d;
    if d != [] {
      var d' := d[..|d| - 1];
      assert s[..|s| - 1] == p + ":" + d';
      AfterLastColonOf(p, d');
      assert d == d' + [d[|d| - 1]];
    }
  }

  /** Identifiers that end in a colon and a number are equal only when the numbers are. */
  lemma NumberedIDsAreInjective(p: string, m: nat, q: string, n: nat)
    requires p + ":" + Decimal(m) == q + ":" + Decimal(n)
    ensures m == n
  {
    AfterLastColonOf(p, Decimal(m));
    AfterLastColonOf(q, Decimal(n));
    DecimalRoundTrip(m);
    DecimalRoundTrip(n);
  }

  lemma {:induction false} AfterLastColonOfSuffix(s: string, k: nat)
    requires k < |s| && s[k] == ':'
    ensures forall j :: 0 <= j <= k ==> AfterLastColon(s[j..]) == AfterLastColon(s)
  {
    if s[|s| - 1] == ':' {
      forall j | 0 <= j <= k ensures AfterLastColon(s[j..]) == AfterLastColon(s) {
        assert s[j..][|s| - j - 1] == ':';
      }
    } else {
      var t := s[..|s| - 1];
      AfterLastColonOfSuffix(t, k);
      forall j | 0 <= j <= k ensures AfterLastColon(s[j..]) == AfterLastColon(s) {
        assert s[j..][..|s| - j - 1] == t[j..];
      }
    }
  }

  /** Trimming does not change the number at the end of an identifier. */
  lemma TrimKeepsNumber(p: string, n: nat)
    ensures AfterLastColon(TrimSpace(p + ":" + Decimal(n))) == Decimal(n)
  {
    var id := p + ":" + Decimal(n);
    var left := TrimLeft(id);
    TrimLeftIsSuffix(id);
    TrimRightIsPrefix(left);
    assert id[|p|] == ':' && !IsSpace(id[|p|]);
    if |left| < |id| - |p| {
      TrimLeftStopsAt(id, |p|);
    }
    assert id[|id| - 1] == Decimal(n)[|Decimal(n)| - 1] == left[|left| - 1];
    assert TrimRight(left) == left;
    AfterLastColonOfSuffix(id, |p|);
    assert left == id[|id| - |left|..];
    AfterLastColonOf(p, Decimal(n));
  }

  lemma {:induction false} TrimLeftStopsAt(s: string, k: nat)
    requires k < |s| && !IsSpace(s[k])
    ensures |TrimLeft(s)| >= |s| - k
  {
    if IsSpace(s[0]) {
      TrimLeftStopsAt(s[1..], k - 1);
    }
  }

  // ---- Case folding (strings.ToLower), as far as ASCII results go ----

  function ToLowerChar(c: char): char {
    if 'A' <= c <= 'Z' then (c as int + 32) as char
    else if c == '\U{0130}' then 'i'
    else if c == '\U{212A}' then 'k'
    else c
  }

  function ToLower(s: string): string {
    seq(|s|, i requires 0 <= i < |s| => ToLowerChar(s[i]))
  }
}
