/**
 * The string operations the report and the export are built from:
 * decimal rendering of integers, the one-decimal percentage format,
 * single-character replacement, Python's title-casing and `str.join`.
 */
module Text {

  function DigitChar(d: nat): (c: char)
    requires d < 10
    ensures '0' <= c <= '9' && c as int - '0' as int == d
  {
    "0123456789"[d]
  }

  /** Decimal digits of `n`, most significant first, with no leading zero. */
  function NatToString(n: nat): (s: string)
    ensures |s| > 0
    ensures forall i :: 0 <= i < |s| ==> '0' <= s[i] <= '9'
    ensures |s| > 1 ==> s[0] != '0'
    decreases n
  {
    if n < 10 then [DigitChar(n)] else NatToString(n / 10) + [DigitChar(n % 10)]
  }

  /** Python's `str(i)` for an integer. */
  function IntToString(i: int): string {
    if i < 0 then "-" + NatToString(-i) else NatToString(i)
  }

  /** Reads a string of decimal digits back as a number. */
  function ParseNat(s: string): nat
    decreases |s|
  {
    if s == [] then 0
    else
      var d := s[|s| - 1] as int - '0' as int;
      10 * ParseNat(s[..|s| - 1]) + (if 0 <= d < 10 then d else 0)
  }

  /** The rendering of a count can be read back: no two counts print alike. */
  lemma {:induction false} ParseNatToString(n: nat)
    ensures ParseNat(NatToString(n)) == n
    decreases n
  {
    if n >= 10 {
      var s := NatToString(n);
      assert s[..|s| - 1] == NatToString(n / 10);
      ParseNatToString(n / 10);
    }
  }

  /**
   * Python's `f"{x:.1%}"` for a similarity `x` given in thousandths
   * (`permille` is x * 1000): tenths of a percent, one decimal, a `%` sign.
   */
  function Percent(permille: int): (s: string)
    ensures |s| >= 4 && s[|s| - 1] == '%'
    ensures (permille < 0) <==> s[0] == '-'
    ensures var p := if permille < 0 then -permille else permille;
      var u := if permille < 0 then s[1..] else s;
      |u| >= 4 && u[..|u| - 3] == NatToString(p / 10) && u[|u| - 3] == '.' && u[|u| - 2] == DigitChar(p % 10)
  {
    if permille < 0 then "-" + UnsignedPercent(-permille) else UnsignedPercent(permille)
  }

  function UnsignedPercent(p: nat): (s: string)
    ensures |s| >= 4 && s[0] != '-' && s[|s| - 1] == '%'
    ensures s[..|s| - 3] == NatToString(p / 10) && s[|s| - 3] == '.'
    ensures s[|s| - 2] == DigitChar(p % 10)
  {
    var s := NatToString(p / 10) + "." + [DigitChar(p % 10)] + "%";
    assert s[..|s| - 3] == NatToString(p / 10);
    s
  }

  /** Python's `s.replace(from, to)` for single characters. */
  function ReplaceChar(s: string, from: char, to: char): (r: string)
    ensures |r| == |s|
    ensures forall i :: 0 <= i < |s| ==> r[i] == (if s[i] == from then to else s[i])
    ensures from != to ==> forall i :: 0 <= i < |r| ==> r[i] != from
  {
    seq(|s|, i requires 0 <= i < |s| => if s[i] == from then to else s[i])
  }

  /** The characters Python's title-casing treats as cased (ASCII letters). */
  predicate IsCased(c: char) {
    'a' <= c <= 'z' || 'A' <= c <= 'Z'
  }

  function ToUpper(c: char): char {
    if 'a' <= c <= 'z' then (c as int - 'a' as int + 'A' as int) as char else c
  }

  function ToLower(c: char): char {
    if 'A' <= c <= 'Z' then (c as int - 'A' as int + 'a' as int) as char else c
  }

  /**
   * Python's `s.title()`: a cased character is upper-cased when it starts a
   * word (the character before it is not cased) and lower-cased otherwise.
   */
  function TitleCase(s: string): string {
    TitleFrom(s, false)
  }

  /** Title-casing of `s` when the character just before `s` is cased iff `prevCased`. */
  function TitleFrom(s: string, prevCased: bool): string
    decreases |s|
  {
    if s == [] then []
    else
      var c := s[0];
      var c' := if !IsCased(c) then c else if prevCased then ToLower(c) else ToUpper(c);
      [c'] + TitleFrom(s[1..], IsCased(c))
  }

  /** What `TitleCase` does to each character, stated position by position. */
  lemma TitleCaseAt(s: string, i: nat)
    requires i < |s|
    ensures |TitleCase(s)| == |s|
    ensures TitleCase(s)[i] ==
      if !IsCased(s[i]) then s[i]
      else if i > 0 && IsCased(s[i - 1]) then ToLower(s[i])
      else ToUpper(s[i])
  {
    TitleFromAt(s, false, i);
  }

  lemma {:induction false} TitleFromAt(s: string, prevCased: bool, i: nat)
    requires i < |s|
    ensures |TitleFrom(s, prevCased)| == |s|
    ensures TitleFrom(s, prevCased)[i] ==
      if !IsCased(s[i]) then s[i]
      else if (if i == 0 then prevCased else IsCased(s[i - 1])) then ToLower(s[i])
      else ToUpper(s[i])
    decreases |s|
  {
    if i == 0 {
      if |s| > 1 { TitleFromLength(s[1..], IsCased(s[0])); }
    } else {
      TitleFromAt(s[1..], IsCased(s[0]), i - 1);
    }
  }

  lemma {:induction false} TitleFromLength(s: string, prevCased: bool)
    ensures |TitleFrom(s, prevCased)| == |s|
    decreases |s|
  {
    if s != [] { TitleFromLength(s[1..], IsCased(s[0])); }
  }

  /** Python's `sep.join(lines)`. */
  function Join(lines: seq<string>, sep: string): string
    decreases |lines|
  {
    if lines == [] then ""
    else if |lines| == 1 then lines[0]
    else lines[0] + sep + Join(lines[1..], sep)
  }

  /** The joined text begins with the first line. */
  lemma JoinStartsWithFirst(lines: seq<string>, sep: string)
    requires |lines| > 0
    ensures |lines[0]| <= |Join(lines, sep)|
    ensures Join(lines, sep)[..|lines[0]|] == lines[0]
  {
  }
}
