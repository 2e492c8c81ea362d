/** The parts of Go's `strings` and `strconv` packages the service relies on.
    A string is a sequence of runes. */
module Text {

  /** unicode.IsSpace. */
  predicate IsSpace(c: char) {
    || c in {'\t', '\n', '\U{000B}', '\U{000C}', '\r', ' ', '\U{0085}', '\U{00A0}', '\U{1680}'}
    || '\U{2000}' <= c <= '\U{200A}'
    || c in {'\U{2028}', '\U{2029}', '\U{202F}', '\U{205F}', '\U{3000}'}
  }

  /** The cut set `"'` of the front-matter parser. */
  predicate IsQuote(c: char) {
    c == '\"' || c == '\''
  }

  /** The length in bytes of the UTF-8 text. */
  function ByteLen(s: string): nat {
    if s == "" then 0 else ByteLen(s[..|s| - 1]) + Utf8Len(s[|s| - 1])
  }

  function Utf8Len(c: char): nat {
    if c < '\U{0080}' then 1 else if c < '\U{0800}' then 2 else if c < '\U{10000}' then 3 else 4
  }

  /** A further character takes as many bytes as its code point needs. */
  lemma BytesOneMore(s: string, c: char)
    ensures ByteLen(s + [c]) - ByteLen(s) ==
            var n := c as int; if n < 128 then 1 else if n < 2048 then 2 else if n < 65536 then 3 else 4
  {
    assert (s + [c])[..|s|] == s;
  }

  function TrimLeft(s: string, drop: char -> bool): string {
    if s == [] || !drop(s[0]) then s else TrimLeft(s[1..], drop)
  }

  function TrimRight(s: string, drop: char -> bool): string {
    if s == [] || !drop(s[|s| - 1]) then s else TrimRight(s[..|s| - 1], drop)
  }

  function Trim(s: string, drop: char -> bool): string {
    TrimRight(TrimLeft(s, drop), drop)
  }

  function TrimSpace(s: string): string {
    Trim(s, IsSpace)
  }

  /** Neither end of `s` would be trimmed away. */
  predicate Clean(s: string, drop: char -> bool) {
    s == [] || (!drop(s[0]) && !drop(s[|s| - 1]))
  }

  lemma TrimClean(s: string, drop: char -> bool)
    requires Clean(s, drop)
    ensures Trim(s, drop) == s
  {
  }

  lemma {:induction false} AllDropped(s: string, drop: char -> bool)
    requires forall c :: c in s ==> drop(c)
    ensures TrimLeft(s, drop) == []
  {
    if s != [] {
      AllDropped(s[1..], drop);
    }
  }

  lemma {:induction false} TrimLeftHead(pre: string, s: string, drop: char -> bool)
    requires forall c :: c in pre ==> drop(c)
    requires s == [] || !drop(s[0])
    ensures TrimLeft(pre + s, drop) == s
  {
    if pre == [] {
      assert pre + s == s;
    } else {
      assert (pre + s)[1..] == pre[1..] + s;
      TrimLeftHead(pre[1..], s, drop);
    }
  }

  lemma {:induction false} TrimRightTail(s: string, post: string, drop: char -> bool)
    requires forall c :: c in post ==> drop(c)
    requires s == [] || !drop(s[|s| - 1])
    ensures TrimRight(s + post, drop) == s
  {
    if post == [] {
      assert s + post == s;
    } else {
      assert (s + post)[..|s + post| - 1] == s + post[..|post| - 1];
      TrimRightTail(s, post[..|post| - 1], drop);
    }
  }

  /** Trimming removes exactly the junk around a clean core. */
  lemma TrimAround(pre: string, s: string, post: string, drop: char -> bool)
    requires Clean(s, drop)
    requires forall c :: c in pre || c in post ==> drop(c)
    ensures Trim(pre + s + post, drop) == s
  {
    if s == [] {
      AllDropped(pre + s + post, drop);
    } else {
      assert pre + s + post == pre + (s + post);
      TrimLeftHead(pre, s + post, drop);
      TrimRightTail(s, post, drop);
    }
  }

  /** Trimming splits off spaces at both ends. */
  lemma TrimParts(s: string) returns (l: string, m: string, r: string)
    ensures s == l + m + r && m == TrimSpace(s)
    ensures forall c :: c in l || c in r ==> IsSpace(c)
  {
    var t := TrimLeft(s, IsSpace);
    l := TrimLeftPart(s);
    m := TrimRight(t, IsSpace);
    r := TrimRightPart(t);
  }

  lemma {:induction false} TrimLeftPart(s: string) returns (l: string)
    ensures s == l + TrimLeft(s, IsSpace)
    ensures forall c :: c in l ==> IsSpace(c)
  {
    if s == [] || !IsSpace(s[0]) {
      l := [];
    } else {
      var k := TrimLeftPart(s[1..]);
      l := [s[0]] + k;
    }
  }

  lemma {:induction false} TrimRightPart(s: string) returns (r: string)
    ensures s == TrimRight(s, IsSpace) + r
    ensures forall c :: c in r ==> IsSpace(c)
  {
    if s == [] || !IsSpace(s[|s| - 1]) {
      r := [];
    } else {
      var k := TrimRightPart(s[..|s| - 1]);
      r := k + [s[|s| - 1]];
    }
  }

  /** strings.Cut around the first `sep`. */
  datatype Parts = Parts(before: string, after: string, found: bool)

  function Cut(s: string, sep: char): (p: Parts)
    ensures p.found ==> |p.after| < |s|
  {
    if s == [] then Parts([], [], false)
    else if s[0] == sep then Parts([], s[1..], true)
    else
      var p := Cut(s[1..], sep);
      Parts([s[0]] + p.before, p.after, p.found)
  }

  lemma {:induction false} CutAt(before: string, sep: char, after: string)
    requires sep !in before
    ensures Cut(before + [sep] + after, sep) == Parts(before, after, true)
  {
    var s := before + [sep] + after;
    if before == [] {
      assert s[1..] == after;
    } else {
      assert s[1..] == before[1..] + [sep] + after;
      CutAt(before[1..], sep, after);
    }
  }

  lemma {:induction false} CutNowhere(s: string, sep: char)
    requires sep !in s
    ensures Cut(s, sep) == Parts(s, [], false)
  {
    if s != [] {
      CutNowhere(s[1..], sep);
    }
  }

  /** unicode.ToLower on the runes whose image is ASCII; all others are kept. */
  function LowerChar(c: char): char {
    if 'A' <= c <= 'Z' then ((c as int) + 32) as char
    else if c == '\U{0130}' then 'i'
    else if c == '\U{212A}' then 'k'
    else c
  }

  function ToLower(s: string): string {
    seq(|s|, i requires 0 <= i < |s| => LowerChar(s[i]))
  }

  /** The simple case folding of strings.EqualFold on the orbits that meet ASCII. */
  function FoldChar(c: char): char {
    if 'A' <= c <= 'Z' then ((c as int) + 32) as char
    else if c == '\U{212A}' then 'k'
    else if c == '\U{017F}' then 's'
    else c
  }

  predicate EqualFold(s: string, t: string) {
    |s| == |t| && forall i :: 0 <= i < |s| ==> FoldChar(s[i]) == FoldChar(t[i])
  }

  /** Go's `<` on strings. */
  predicate Less(s: string, t: string) {
    if t == [] then false
    else if s == [] then true
    else if s[0] != t[0] then s[0] < t[0]
    else Less(s[1..], t[1..])
  }

  lemma {:induction false} LessIsStrictTotal(s: string, t: string, u: string)
    ensures !Less(s, s)
    ensures Less(s, t) ==> !Less(t, s)
    ensures Less(s, t) && Less(t, u) ==> Less(s, u)
    ensures s == t || Less(s, t) || Less(t, s)
    decreases |s| + |t| + |u|
  {
    if s != [] || t != [] || u != [] {
      var s' := if s == [] then s else s[1..];
      var t' := if t == [] then t else t[1..];
      var u' := if u == [] then u else u[1..];
      LessIsStrictTotal(s', t', u');
      if s != [] && t != [] && s[0] == t[0] && s' == t' {
        assert s == [s[0]] + s' && t == [t[0]] + t';
      }
    }
  }

  /** The strings first differ at `i`, where `s` has the smaller character. */
  predicate SmallerAt(s: string, t: string, i: nat) {
    i < |s| && i < |t| && s[..i] == t[..i] && s[i] < t[i]
  }

  lemma SmallerInTail(s: string, t: string, i: nat)
    requires s != [] && t != []
    ensures s[0] == t[0] ==> (SmallerAt(s, t, i + 1) <==> SmallerAt(s[1..], t[1..], i))
    ensures s[0] != t[0] ==> !SmallerAt(s, t, i + 1)
    ensures SmallerAt(s, t, 0) <==> s[0] < t[0]
  {
    if i < |s[1..]| && i < |t[1..]| {
      assert s[..i + 1] == [s[0]] + s[1..][..i] && t[..i + 1] == [t[0]] + t[1..][..i];
      assert s[..i + 1][1..] == s[1..][..i] && t[..i + 1][1..] == t[1..][..i];
    }
  }

  /** A string comes before another if it is a proper prefix of it, or has the smaller character
      where they first differ. */
  lemma {:induction false} LessExactly(s: string, t: string)
    ensures Less(s, t) <==> s < t || exists i: nat :: SmallerAt(s, t, i)
  {
    hide SmallerAt;
    if s != [] && t != [] {
      LessExactly(s[1..], t[1..]);
      SmallerInTail(s, t, 0);
      assert s == [s[0]] + s[1..] && t == [t[0]] + t[1..];
      if i: nat :| SmallerAt(s[1..], t[1..], i) {
        SmallerInTail(s, t, i);
      }
      if i: nat :| SmallerAt(s, t, i) {
        if i > 0 {
          SmallerInTail(s, t, i - 1);
        }
      }
    } else {
      NothingSmaller(s, t);
    }
  }

  lemma NothingSmaller(s: string, t: string)
    requires s == [] || t == []
    ensures forall i: nat :: !SmallerAt(s, t, i)
  {
  }

  predicate IsDigit(c: char) { '0' <= c <= '9' }

  const MAX_INT: int := 0x7FFF_FFFF_FFFF_FFFF
  const MIN_INT: int := -0x8000_0000_0000_0000

  function Digits(s: string): int
    requires forall c :: c in s ==> IsDigit(c)
  {
    if s == [] then 0
    else Digits(s[..|s| - 1]) * 10 + ((s[|s| - 1] as int) - ('0' as int))
  }

  datatype Number = Number(value: int, ok: bool)

  /** strconv.Atoi: a syntax error yields 0, a range error the nearest int64. */
  function Atoi(s: string): (n: Number)
    ensures MIN_INT <= n.value <= MAX_INT
  {
    var body := if s != [] && (s[0] == '+' || s[0] == '-') then s[1..] else s;
    if body == [] || exists c :: c in body && !IsDigit(c) then Number(0, false)
    else
      var v := if s[0] == '-' then -Digits(body) else Digits(body);
      if v > MAX_INT then Number(MAX_INT, false)
      else if v < MIN_INT then Number(MIN_INT, false)
      else Number(v, true)
  }

  // ----- Numbers as text -----

  /** `n` in decimal. */
  function Decimal(n: nat): string
    decreases n
  {
    (if n < 10 then "" else Decimal(n / 10)) + ["0123456789"[n % 10]]
  }

  lemma {:induction false} DigitsOfDecimal(zeros: string, n: nat)
    requires forall c :: c in zeros ==> c == '0'
    ensures (forall c :: c in zeros + Decimal(n) ==> IsDigit(c)) && Digits(zeros + Decimal(n)) == n
    decreases n
  {
    var s := zeros + Decimal(n);
    var d := "0123456789"[n % 10];
    assert d as int == '0' as int + n % 10;
    if n < 10 {
      DigitsOfZeros(zeros);
      assert s == zeros + [d] && s[..|s| - 1] == zeros;
    } else {
      DigitsOfDecimal(zeros, n / 10);
      assert s == zeros + Decimal(n / 10) + [d] && s[..|s| - 1] == zeros + Decimal(n / 10);
    }
  }

  lemma {:induction false} DigitsOfZeros(zeros: string)
    requires forall c :: c in zeros ==> c == '0'
    ensures Digits(zeros) == 0
  {
    if zeros != [] {
      var n := |zeros| - 1;
      assert zeros[n] in zeros;
      forall c | c in zeros[..n] ensures c == '0' {
        assert c in zeros;
      }
      DigitsOfZeros(zeros[..n]);
    }
  }

  /** A decimal number is read back, with any leading zeros and either sign, and one that does not
      fit is the nearest that does. */
  lemma AtoiReadsDecimals(zeros: string, n: nat)
    requires forall c :: c in zeros ==> c == '0'
    ensures var s := zeros + Decimal(n);
            && Atoi(s) == Atoi("+" + s)
            && Atoi(s) == (if n <= 0x7FFF_FFFF_FFFF_FFFF then Number(n, true) else Number(0x7FFF_FFFF_FFFF_FFFF, false))
            && Atoi("-" + s) ==
               (if n <= 0x8000_0000_0000_0000 then Number(0 - n, true) else Number(-0x8000_0000_0000_0000, false))
  {
    hide Digits, Decimal;
    var s := zeros + Decimal(n);
    DigitsOfDecimal(zeros, n);
    DecimalNotEmpty(n);
    assert s[0] in s;
    assert ("+" + s)[1..] == s && ("-" + s)[1..] == s;
  }

  lemma DecimalNotEmpty(n: nat)
    ensures Decimal(n) != []
  {
  }

  /** Anything else is no number. */
  lemma AtoiRefuses(s: string)
    requires s == "" || s == "+" || s == "-"
             || exists i :: 0 <= i < |s| && !('0' <= s[i] <= '9') && (i > 0 || (s[0] != '+' && s[0] != '-'))
    ensures Atoi(s) == Number(0, false)
  {
    if i :| 0 <= i < |s| && !('0' <= s[i] <= '9') && (i > 0 || (s[0] != '+' && s[0] != '-')) {
      var body := if s[0] == '+' || s[0] == '-' then s[1..] else s;
      assert s[i] in body && !IsDigit(s[i]);
    }
  }
}
