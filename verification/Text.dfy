/** Python's str facts the components rely on: whitespace, strip, split on newline, decimals. */
module Text {

  /** str.isspace, which is also what \s matches in a str pattern. */
  predicate IsSpace(c: char) {
    var n := c as int;
    || 0x09 <= n <= 0x0d
    || 0x1c <= n <= 0x20
    || n in {0x85, 0xa0, 0x1680, 0x2028, 0x2029, 0x202f, 0x205f, 0x3000}
    || 0x2000 <= n <= 0x200a
  }

  predicate Blank(s: string) {
    forall i | 0 <= i < |s| :: IsSpace(s[i])
  }

  /** A text strip() leaves alone. */
  predicate Tight(s: string) {
    s == "" || (!IsSpace(s[0]) && !IsSpace(s[|s| - 1]))
  }

  function LStrip(s: string): string {
    if s != "" && IsSpace(s[0]) then LStrip(s[1..]) else s
  }

  function RStrip(s: string): string {
    if s != "" && IsSpace(s[|s| - 1]) then RStrip(s[..|s| - 1]) else s
  }

  function Strip(s: string): string {
    RStrip(LStrip(s))
  }

  /** The characters of s that are not whitespace, in order. */
  function Ink(s: string): string {
    if s == "" then "" else (if IsSpace(s[0]) then "" else [s[0]]) + Ink(s[1..])
  }

  lemma {:induction false} InkConcat(a: string, b: string)
    ensures Ink(a + b) == Ink(a) + Ink(b)
  {
    hide Ink;
    InkUnfold(a);
    if a == "" {
      assert a + b == b;
    } else {
      InkUnfold(a + b);
      InkConcat(a[1..], b);
      assert (a + b)[1..] == a[1..] + b;
      var first := if IsSpace(a[0]) then "" else [a[0]];
      assert first + (Ink(a[1..]) + Ink(b)) == (first + Ink(a[1..])) + Ink(b);
    }
  }

  lemma InkUnfold(s: string)
    ensures s == "" ==> Ink(s) == ""
    ensures s != "" ==> Ink(s) == (if IsSpace(s[0]) then "" else [s[0]]) + Ink(s[1..])
  {
  }

  lemma {:induction false} InkOfBlank(s: string)
    requires Blank(s)
    ensures Ink(s) == ""
  {
    if s != "" {
      InkOfBlank(s[1..]);
    }
  }

  lemma {:induction false} LStripSplits(s: string) returns (k: nat)
    ensures k <= |s| && LStrip(s) == s[k..] && Blank(s[..k])
    ensures k < |s| ==> !IsSpace(s[k])
    ensures k == |s| ==> Blank(s)
  {
    if s != "" && IsSpace(s[0]) {
      var j := LStripSplits(s[1..]);
      k := j + 1;
      assert s[1..][j..] == s[k..];
      forall i | 0 <= i < k ensures IsSpace(s[..k][i]) {
        if i > 0 { assert s[..k][i] == s[1..][..j][i - 1]; }
      }
    } else {
      k := 0;
    }
  }

  lemma {:induction false} RStripSplits(s: string) returns (k: nat)
    ensures k <= |s| && RStrip(s) == s[..k] && Blank(s[k..])
    ensures k > 0 ==> !IsSpace(s[k - 1])
  {
    if s != "" && IsSpace(s[|s| - 1]) {
      k := RStripSplits(s[..|s| - 1]);
      assert s[..|s| - 1][..k] == s[..k];
      forall i | 0 <= i < |s| - k ensures IsSpace(s[k..][i]) {
        if i < |s| - 1 - k { assert s[k..][i] == s[..|s| - 1][k..][i]; }
      }
    } else {
      k := |s|;
    }
  }

  /** strip() cuts a blank margin off each end and leaves a tight middle. */
  lemma StripSplits(s: string) returns (lo: nat, hi: nat)
    ensures lo <= hi <= |s| && Strip(s) == s[lo..hi] && Tight(Strip(s))
    ensures Blank(s[..lo]) && Blank(s[hi..])
    ensures Strip(s) == "" <==> Blank(s)
  {
    lo := LStripSplits(s);
    var k := RStripSplits(s[lo..]);
    hi := lo + k;
    assert s[lo..][..k] == s[lo..hi];
    assert s[lo..][k..] == s[hi..];
    if lo < hi {
      assert s[lo..hi][0] == s[lo];
    } else {
      assert s[..lo] + s[hi..] == s;
    }
  }

  lemma StripKeepsInk(s: string)
    ensures Ink(Strip(s)) == Ink(s) && Tight(Strip(s))
  {
    var lo, hi := StripSplits(s);
    assert s == s[..lo] + (s[lo..hi] + s[hi..]);
    InkConcat(s[..lo], s[lo..hi] + s[hi..]);
    InkConcat(s[lo..hi], s[hi..]);
    InkOfBlank(s[..lo]);
    InkOfBlank(s[hi..]);
  }

  lemma StripOfTight(s: string)
    requires Tight(s)
    ensures Strip(s) == s
  {
  }

  lemma {:induction false} StripOfBlank(s: string)
    requires Blank(s)
    ensures LStrip(s) == "" && Strip(s) == ""
  {
    if s != "" { StripOfBlank(s[1..]); }
  }

  /** A blank margin in front of a tight text goes away whole. */
  lemma {:induction false} LStripMargin(m: string, s: string)
    requires Blank(m) && (s == "" || !IsSpace(s[0]))
    ensures LStrip(m + s) == s
  {
    if m == "" {
      assert m + s == s;
    } else {
      assert (m + s)[1..] == m[1..] + s;
      LStripMargin(m[1..], s);
    }
  }

  lemma {:induction false} RStripMargin(s: string, m: string)
    requires Blank(m) && (s == "" || !IsSpace(s[|s| - 1]))
    ensures RStrip(s + m) == s
  {
    if m == "" {
      assert s + m == s;
    } else {
      assert (s + m)[..|s + m| - 1] == s + m[..|m| - 1];
      RStripMargin(s, m[..|m| - 1]);
    }
  }

  // What reading a text file makes of its line ends

  const RETURN := '\r'

  /** "\r\n" and a lone "\r" become "\n". */
  function Universal(s: string): (r: string)
    ensures RETURN !in r
    decreases |s|
  {
    if s == "" then ""
    else if s[0] == RETURN then "\n" + Universal(if |s| > 1 && s[1] == NEWLINE then s[2..] else s[1..])
    else [s[0]] + Universal(s[1..])
  }

  lemma {:induction false} UniversalOfPlain(s: string)
    requires RETURN !in s
    ensures Universal(s) == s
  {
    if s != "" {
      assert forall c | c in s[1..] :: c in s;
      UniversalOfPlain(s[1..]);
    }
  }

  lemma {:induction false} UniversalBlank(s: string)
    ensures Blank(Universal(s)) <==> Blank(s)
    decreases |s|
  {
    if s != "" {
      var k := if s[0] == RETURN && |s| > 1 && s[1] == NEWLINE then 2 else 1;
      var first := if s[0] == RETURN then "\n" else [s[0]];
      UniversalBlank(s[k..]);
      assert Universal(s) == first + Universal(s[k..]);
      assert s == s[..k] + s[k..];
      BlankParts(first, Universal(s[k..]));
      BlankParts(s[..k], s[k..]);
    }
  }

  lemma BlankParts(a: string, b: string)
    ensures Blank(a + b) <==> Blank(a) && Blank(b)
  {
    assert forall i | 0 <= i < |a| :: (a + b)[i] == a[i];
    assert forall i | 0 <= i < |b| :: (a + b)[|a| + i] == b[i];
  }

  // str.split("\n")

  const NEWLINE := '\n'

  /** The position of the first newline, or the length. */
  function FirstNewline(s: string): (k: nat)
    ensures k <= |s| && forall i | 0 <= i < k :: s[i] != NEWLINE
    ensures k < |s| ==> s[k] == NEWLINE
  {
    if s == "" || s[0] == NEWLINE then 0 else FirstNewline(s[1..]) + 1
  }

  function Lines(s: string): (r: seq<string>)
    ensures |r| >= 1
    ensures forall i | 0 <= i < |r| :: NEWLINE !in r[i]
    decreases |s|
  {
    var k := FirstNewline(s);
    if k < |s| then [s[..k]] + Lines(s[k + 1..]) else [s]
  }

  lemma {:induction false} LinesHoldOnly(s: string, c: char)
    requires c !in s
    ensures forall i | 0 <= i < |Lines(s)| :: c !in Lines(s)[i]
    decreases |s|
  {
    var k := FirstNewline(s);
    if k < |s| {
      assert forall x | x in s[k + 1..] :: x in s;
      assert forall x | x in s[..k] :: x in s;
      LinesHoldOnly(s[k + 1..], c);
    }
  }

  lemma FirstNewlineIs(s: string, k: nat)
    requires k <= |s| && forall i | 0 <= i < k :: s[i] != NEWLINE
    requires k < |s| ==> s[k] == NEWLINE
    ensures FirstNewline(s) == k
  {
  }

  lemma FirstNewlineAfter(a: string, b: string)
    requires NEWLINE !in a
    ensures FirstNewline(a + "\n" + b) == |a|
    ensures FirstNewline(a) == |a|
  {
    var s := a + "\n" + b;
    assert s[|a|] == NEWLINE && forall i | 0 <= i < |a| :: s[i] == a[i] && a[i] in a;
  }

  lemma LinesStep(a: string, b: string)
    requires NEWLINE !in a
    ensures Lines(a + "\n" + b) == [a] + Lines(b)
    ensures Lines(a) == [a]
  {
    FirstNewlineAfter(a, b);
    var s := a + "\n" + b;
    assert s[..|a|] == a && s[|a| + 1..] == b;
  }

  /** The lines of a prefix are a prefix of the lines, the last one possibly cut. */
  lemma {:induction false} LinesOfPrefix(u: string, s: string)
    requires u <= s
    ensures |Lines(u)| <= |Lines(s)|
    ensures forall i | 0 <= i < |Lines(u)| :: Lines(u)[i] <= Lines(s)[i]
    decreases |u|
  {
    hide Lines, FirstNewline;
    var k, j := FirstNewline(u), FirstNewline(s);
    assert forall i | 0 <= i < |u| :: s[i] == u[i];
    LinesUnfold(u);
    LinesUnfold(s);
    if k < |u| {
      FirstNewlineIs(s, k);
      LinesOfPrefix(u[k + 1..], s[k + 1..]);
      assert u[..k] == s[..k];
    } else {
      assert |u| <= j;
    }
  }

  lemma LinesUnfold(s: string)
    ensures var k := FirstNewline(s);
      Lines(s) == if k < |s| then [s[..k]] + Lines(s[k + 1..]) else [s]
    ensures FirstNewline(s) < |s| ==> Lines(s)[0] == s[..FirstNewline(s)]
  {
    hide FirstNewline;
  }

  // str(n) and int(text) for ASCII digits

  predicate IsDigit(c: char) { '0' <= c <= '9' }

  predicate IsDigits(s: string) {
    s != "" && forall i | 0 <= i < |s| :: IsDigit(s[i])
  }

  function Decimal(n: nat): (s: string)
    ensures IsDigits(s)
  {
    var d := [(('0' as int) + n % 10) as char];
    if n < 10 then d else Decimal(n / 10) + d
  }

  function ParseNat(s: string): nat
    requires forall i | 0 <= i < |s| :: IsDigit(s[i])
  {
    if s == "" then 0
    else
      assert IsDigit(s[|s| - 1]);
      10 * ParseNat(s[..|s| - 1]) + (s[|s| - 1] as int - '0' as int)
  }

  lemma {:induction false} DecimalRoundTrip(n: nat)
    ensures ParseNat(Decimal(n)) == n
  {
    var d := [(('0' as int) + n % 10) as char];
    if n < 10 {
      assert Decimal(n)[..0] == "";
    } else {
      DecimalRoundTrip(n / 10);
      assert Decimal(n) == Decimal(n / 10) + d;
      assert Decimal(n)[..|Decimal(n)| - 1] == Decimal(n / 10);
    }
  }

  lemma DigitsAreInk(s: string)
    requires IsDigits(s)
    ensures Tight(s) && NEWLINE !in s
  {
  }
}
