/** The few pieces of Go's `strings` and `strconv` packages that the bot's
    command handling relies on: decimal formatting (`strconv.Itoa`, `%d`),
    decimal parsing (`strconv.Atoi`), `strings.Trim`, `strings.HasPrefix`,
    `strings.Fields` and `strings.Split` with a one-character separator. */
module GoStrings {
  import opened Wrappers

  predicate IsDigit(c: char) { '0' <= c <= '9' }

  predicate AllDigits(s: string) { forall i | 0 <= i < |s| :: IsDigit(s[i]) }

  function DigitChar(d: nat): (c: char)
    requires d < 10
    ensures IsDigit(c)
  {
    (('0' as int) + d) as char
  }

  function DigitValue(c: char): (d: nat)
    requires IsDigit(c)
    ensures d < 10
  {
    (c as int) - ('0' as int)
  }

  /** The decimal digits of `n`, most significant first, without leading zeros. */
  function Digits(n: nat): string
    decreases n
  {
    if n < 10 then [DigitChar(n)] else Digits(n / 10) + [DigitChar(n % 10)]
  }

  /** The value of a string of decimal digits. */
  function DigitsValue(s: string): nat
    requires AllDigits(s)
  {
    if s == [] then 0 else DigitsValue(s[..|s| - 1]) * 10 + DigitValue(s[|s| - 1])
  }

  /** `strconv.Itoa` and the `%d` verb. */
  function Itoa(i: int): string
  {
    if i < 0 then "-" + Digits(-i) else Digits(i)
  }

  const MinInt: int := -0x8000_0000_0000_0000
  const MaxInt: int := 0x7FFF_FFFF_FFFF_FFFF

  /** `strconv.Atoi` on a 64-bit platform: an optional sign, then at least one
      decimal digit and nothing else, with a value that fits in an `int`. */
  function Atoi(s: string): Option<int>
  {
    var signed := |s| > 0 && (s[0] == '-' || s[0] == '+');
    var body := if signed then s[1..] else s;
    if |body| == 0 || !AllDigits(body) then None
    else
      var v: int := if |s| > 0 && s[0] == '-' then -(DigitsValue(body) as int) else DigitsValue(body);
      if MinInt <= v <= MaxInt then Some(v) else None
  }

  lemma {:induction false} DigitsRoundTrip(n: nat)
    ensures |Digits(n)| > 0 && AllDigits(Digits(n)) && DigitsValue(Digits(n)) == n
  {
    if n >= 10 {
      DigitsRoundTrip(n / 10);
      var s := Digits(n);
      assert s[..|s| - 1] == Digits(n / 10);
    }
  }

  /** Every number printed with `%d` parses back to itself with `strconv.Atoi`. */
  lemma AtoiItoa(i: int)
    requires MinInt <= i <= MaxInt
    ensures Atoi(Itoa(i)) == Some(i)
  {
    var s := Itoa(i);
    if i < 0 {
      DigitsRoundTrip(-i);
      var d := Digits(-i);
      assert s == "-" + d && s[0] == '-' && s[1..] == d;
    } else {
      DigitsRoundTrip(i);
      assert IsDigit(s[0]);
    }
  }

  /** `strings.HasPrefix`. */
  predicate HasPrefix(s: string, prefix: string)
  {
    |prefix| <= |s| && s[..|prefix|] == prefix
  }

  /** `strings.TrimLeft` with a cut set. */
  function TrimLeft(s: string, cut: set<char>): string
  {
    if |s| > 0 && s[0] in cut then TrimLeft(s[1..], cut) else s
  }

  /** `strings.TrimRight` with a cut set. */
  function TrimRight(s: string, cut: set<char>): string
  {
    if |s| > 0 && s[|s| - 1] in cut then TrimRight(s[..|s| - 1], cut) else s
  }

  /** `strings.Trim`: every leading and every trailing character that is in
      the cut set is removed. */
  function Trim(s: string, cut: set<char>): string
  {
    TrimRight(TrimLeft(s, cut), cut)
  }

  lemma {:induction false} TrimLeftSpec(s: string, cut: set<char>)
    ensures var r := TrimLeft(s, cut);
      |r| <= |s| && r == s[|s| - |r|..] &&
      (forall k | 0 <= k < |s| - |r| :: s[k] in cut) &&
      (r == [] || r[0] !in cut)
  {
    if |s| > 0 && s[0] in cut {
      TrimLeftSpec(s[1..], cut);
    }
  }

  lemma {:induction false} TrimRightSpec(s: string, cut: set<char>)
    ensures var r := TrimRight(s, cut);
      |r| <= |s| && r == s[..|r|] &&
      (forall k | |r| <= k < |s| :: s[k] in cut) &&
      (r == [] || r[|r| - 1] !in cut)
  {
    if |s| > 0 && s[|s| - 1] in cut {
      TrimRightSpec(s[..|s| - 1], cut);
    }
  }

  /** `strings.Trim` keeps a contiguous middle part of its input, removes only
      characters of the cut set, and leaves no cut character at either end. */
  lemma TrimSpec(s: string, cut: set<char>)
    ensures var r := Trim(s, cut);
      exists i, j :: 0 <= i <= j <= |s| && r == s[i..j] &&
        (forall k | 0 <= k < i :: s[k] in cut) &&
        (forall k | j <= k < |s| :: s[k] in cut)
    ensures Trim(s, cut) == [] || (Trim(s, cut)[0] !in cut && Trim(s, cut)[|Trim(s, cut)| - 1] !in cut)
  {
    var l := TrimLeft(s, cut);
    TrimLeftSpec(s, cut);
    TrimRightSpec(l, cut);
    var r := TrimRight(l, cut);
    var i := |s| - |l|;
    var j := i + |r|;
    assert r == s[i..j];
    assert forall k | j <= k < |s| :: s[k] == l[k - i];
  }

  /** Trimming an already trimmed string changes nothing. */
  lemma TrimIdempotent(s: string, cut: set<char>)
    ensures Trim(Trim(s, cut), cut) == Trim(s, cut)
  {
    TrimSpec(s, cut);
    var r := Trim(s, cut);
    assert TrimLeft(r, cut) == r;
    assert TrimRight(r, cut) == r;
  }

  /** Whitespace as Go's `unicode.IsSpace` defines it. */
  predicate IsSpace(c: char)
  {
    c == ' ' || c == '\t' || c == '\n' || c == '\r' || c == '\U{B}' || c == '\U{C}' ||
    c == '\U{85}' || c == '\U{A0}' || c == '\U{1680}' || ('\U{2000}' <= c <= '\U{200A}') ||
    c == '\U{2028}' || c == '\U{2029}' || c == '\U{202F}' || c == '\U{205F}' || c == '\U{3000}'
  }

  function DropSpaces(s: string): (r: string)
    ensures |r| <= |s| && (r == [] || !IsSpace(r[0]))
  {
    if |s| > 0 && IsSpace(s[0]) then DropSpaces(s[1..]) else s
  }

  /** The longest prefix of `s` without whitespace. */
  function Word(s: string): (w: string)
    ensures |w| <= |s| && w == s[..|w|]
    ensures |s| > 0 && !IsSpace(s[0]) ==> |w| >= 1
  {
    if |s| > 0 && !IsSpace(s[0]) then [s[0]] + Word(s[1..]) else []
  }

  /** `strings.Fields`: the maximal runs of non-whitespace characters. */
  function Fields(s: string): seq<string>
    decreases |s|
  {
    var t := DropSpaces(s);
    if t == [] then [] else
      var w := Word(t);
      [w] + Fields(t[|w|..])
  }

  /** `strings.Split` with a one-character separator. */
  function Split(s: string, sep: char): seq<string>
  {
    if |s| == 0 then [""]
    else
      var rest := Split(s[1..], sep);
      if s[0] == sep then [""] + rest
      else [[s[0]] + rest[0]] + rest[1..]
  }

  /** `strings.Join` with a one-character separator. */
  function Join(parts: seq<string>, sep: char): string
  {
    if |parts| == 0 then ""
    else if |parts| == 1 then parts[0]
    else parts[0] + [sep] + Join(parts[1..], sep)
  }

  /** Split yields one more part than there are separators. */
  lemma {:induction false} SplitCount(s: string, sep: char)
    ensures |Split(s, sep)| == multiset(s)[sep] + 1
  {
    if |s| > 0 {
      SplitCount(s[1..], sep);
      assert s == [s[0]] + s[1..];
      assert multiset(s) == multiset{s[0]} + multiset(s[1..]);
    }
  }

  /** No part of a split holds the separator. */
  lemma {:induction false} SplitParts(s: string, sep: char)
    ensures forall k | 0 <= k < |Split(s, sep)| :: sep !in Split(s, sep)[k]
  {
    if |s| > 0 {
      SplitParts(s[1..], sep);
    }
  }

  /** Joining the parts of a split back together gives the input. */
  lemma {:induction false} SplitJoin(s: string, sep: char)
    ensures Join(Split(s, sep), sep) == s
  {
    if |s| > 0 {
      SplitJoin(s[1..], sep);
      var rest := Split(s[1..], sep);
      if s[0] != sep {
        var parts := [[s[0]] + rest[0]] + rest[1..];
        if |rest| > 1 {
          assert parts[1..] == rest[1..];
          assert Join(rest, sep) == rest[0] + [sep] + Join(rest[1..], sep);
        }
      }
    }
  }
  /** A string without the separator splits into itself. */
  lemma {:induction false} SplitNoSep(s: string, sep: char)
    requires sep !in s
    ensures Split(s, sep) == [s]
  {
    if |s| > 0 {
      SplitNoSep(s[1..], sep);
      assert [s[0]] + s[1..] == s;
    }
  }

  /** A string with exactly one separator splits into the part before it
      and the part after it. */
  lemma {:induction false} SplitAtOnlySep(p: string, r: string, sep: char)
    requires sep !in p && sep !in r
    ensures Split(p + [sep] + r, sep) == [p, r]
  {
    var s := p + [sep] + r;
    if |p| == 0 {
      assert s[0] == sep && s[1..] == r;
      SplitNoSep(r, sep);
    } else {
      SplitAtOnlySep(p[1..], r, sep);
      assert s[0] == p[0] && s[1..] == p[1..] + [sep] + r;
      assert [p[0]] + p[1..] == p;
    }
  }
}
