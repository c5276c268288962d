/** Sentence chunks of a text for streaming speech: sentence ends, paragraphs, and soft cuts of what is too long. */
module Chunking {
  import opened Text

  const SPACE := ' '

  predicate IsTerminator(c: char) { c == '.' || c == '!' || c == '?' || c as int == 0x2026 }

  /** A sentence ends after its first j characters: a terminator, then whitespace or the end. */
  predicate EndsAt(p: string, j: nat) {
    1 <= j <= |p| && IsTerminator(p[j - 1]) && (j == |p| || IsSpace(p[j]))
  }

  /** The first sentence end, or 0. */
  function FirstEnd(p: string): (j: nat)
    ensures j == 0 || EndsAt(p, j)
    ensures forall i | 0 <= i <= |p| && EndsAt(p, i) :: 0 < j <= i
  {
    EndFrom(p, 1)
  }

  function EndFrom(p: string, i: nat): (j: nat)
    requires i >= 1 && forall h | 0 <= h < i && h <= |p| :: !EndsAt(p, h)
    ensures j == 0 || EndsAt(p, j)
    ensures forall h | 0 <= h <= |p| && EndsAt(p, h) :: 0 < j <= h
    decreases |p| - i
  {
    if i > |p| then 0 else if EndsAt(p, i) then i else EndFrom(p, i + 1)
  }

  /** Where the whitespace from j on ends. */
  function SkipSpace(p: string, j: nat): (e: nat)
    requires j <= |p|
    ensures j <= e <= |p| && (forall i | j <= i < e :: IsSpace(p[i])) && (e < |p| ==> !IsSpace(p[e]))
    decreases |p| - j
  {
    if j < |p| && IsSpace(p[j]) then SkipSpace(p, j + 1) else j
  }

  /** [s], or nothing when s is empty. */
  function NonEmpty(s: string): seq<string> { if s == "" then [] else [s] }

  /** The sentences of what is left of a paragraph. */
  function Sentences(p: string): seq<string>
    decreases |p|
  {
    var j := FirstEnd(p);
    if j == 0 then NonEmpty(Strip(p)) else NonEmpty(Strip(p[..j])) + Sentences(p[SkipSpace(p, j)..])
  }

  function ParagraphSentences(paras: seq<string>): seq<string> {
    if paras == [] then []
    else
      var last := Strip(paras[|paras| - 1]);
      ParagraphSentences(paras[..|paras| - 1]) + if last == "" then [] else Sentences(last)
  }

  /** c.rfind(" ", 0, n), -1 when there is none. */
  function LastSpace(c: string, n: nat): (k: int)
    requires n <= |c|
    ensures -1 <= k < n && (k >= 0 ==> c[k] == SPACE) && forall i | k < i < n :: c[i] != SPACE
  {
    if n == 0 then -1 else if c[n - 1] == SPACE then n - 1 else LastSpace(c, n - 1)
  }

  function Cut(c: string, max: nat): (k: nat)
    requires 1 <= max < |c|
    ensures 1 <= k <= max
  {
    var k := LastSpace(c, max);
    if k <= 0 then max else k
  }

  /** One sentence, cut at the last space before the limit until it fits. */
  function Soft(c: string, max: nat): seq<string>
    requires max >= 1
    decreases |c|
  {
    if |c| <= max then NonEmpty(c)
    else
      StripShrinks(c[Cut(c, max)..]);
      NonEmpty(Strip(c[..Cut(c, max)])) + Soft(Strip(c[Cut(c, max)..]), max)
  }

  function SoftAll(cs: seq<string>, max: nat): seq<string>
    requires max >= 1
  {
    if cs == [] then [] else SoftAll(cs[..|cs| - 1], max) + Soft(cs[|cs| - 1], max)
  }

  function Split(text: string, max: nat): seq<string>
    requires max >= 1
  {
    SoftAll(ParagraphSentences(Lines(Strip(text))), max)
  }

  lemma StripShrinks(s: string)
    ensures |Strip(s)| <= |s|
  {
    var lo, hi := StripSplits(s);
  }

  // What a chunk is

  /** No newline, and no sentence end but the last character. */
  predicate OneSentence(c: string) {
    && (forall i | 0 <= i < |c| :: c[i] != NEWLINE)
    && (forall j | 1 <= j < |c| :: !EndsAt(c, j))
  }

  predicate Chunk(c: string) { c != "" && Tight(c) && OneSentence(c) }

  predicate Chunks(cs: seq<string>) { forall i | 0 <= i < |cs| :: Chunk(cs[i]) }

  predicate Short(cs: seq<string>, max: nat) { forall i | 0 <= i < |cs| :: |cs[i]| <= max }

  function Concat(cs: seq<string>): string { if cs == [] then "" else Concat(cs[..|cs| - 1]) + cs[|cs| - 1] }

  /** A part of one sentence is of one sentence. */
  lemma PartOfSentence(c: string, lo: nat, hi: nat)
    requires OneSentence(c) && lo <= hi <= |c|
    ensures OneSentence(c[lo..hi])
  {
    var d := c[lo..hi];
    forall j | 1 <= j < |d| ensures !EndsAt(d, j) {
      assert d[j - 1] == c[lo + j - 1] && d[j] == c[lo + j];
      assert !EndsAt(c, lo + j);
    }
  }

  lemma StripOfSentence(c: string)
    requires OneSentence(c)
    ensures OneSentence(Strip(c)) && Chunks(NonEmpty(Strip(c)))
  {
    var lo, hi := StripSplits(c);
    PartOfSentence(c, lo, hi);
  }

  lemma FirstEndIsOne(p: string)
    requires forall i | 0 <= i < |p| :: p[i] != NEWLINE
    ensures OneSentence(if FirstEnd(p) == 0 then p else p[..FirstEnd(p)])
  {
    var j := FirstEnd(p);
    var d := if j == 0 then p else p[..j];
    forall i | 1 <= i < |d| ensures !EndsAt(d, i) {
      assert !EndsAt(p, i);
    }
  }

  lemma {:induction false} SentencesAreChunks(p: string)
    requires forall i | 0 <= i < |p| :: p[i] != NEWLINE
    ensures Chunks(Sentences(p))
    decreases |p|
  {
    hide Strip, Chunk, OneSentence, FirstEnd;
    var j := FirstEnd(p);
    FirstEndIsOne(p);
    if j == 0 {
      StripOfSentence(p);
    } else {
      StripOfSentence(p[..j]);
      SentencesAreChunks(p[SkipSpace(p, j)..]);
    }
  }

  lemma {:induction false} SoftAreChunks(c: string, max: nat)
    requires max >= 1 && OneSentence(c) && Tight(c)
    ensures Chunks(Soft(c, max)) && Short(Soft(c, max), max)
    decreases |c|
  {
    hide Strip, OneSentence, Tight;
    if |c| > max {
      var k := Cut(c, max);
      PartOfSentence(c, 0, k);
      PartOfSentence(c, k, |c|);
      assert c[0..k] == c[..k] && c[k..|c|] == c[k..];
      StripOfSentence(c[..k]);
      StripOfSentence(c[k..]);
      StripShrinks(c[..k]);
      StripShrinks(c[k..]);
      StripKeepsInk(c[k..]);
      SoftAreChunks(Strip(c[k..]), max);
    }
  }

  // What is kept

  lemma {:induction false} ConcatTwo(a: seq<string>, b: seq<string>)
    ensures Concat(a + b) == Concat(a) + Concat(b)
  {
    if b == [] {
      assert a + b == a;
    } else {
      var b' := b[..|b| - 1];
      assert (a + b)[..|a + b| - 1] == a + b';
      ConcatTwo(a, b');
      assert Concat(a) + (Concat(b') + b[|b| - 1]) == (Concat(a) + Concat(b')) + b[|b| - 1];
    }
  }

  /** The ink of a list, character by character in order. */
  function InkOf(cs: seq<string>): string { Ink(Concat(cs)) }

  lemma InkOfTwo(a: seq<string>, b: seq<string>)
    ensures InkOf(a + b) == InkOf(a) + InkOf(b)
  {
    ConcatTwo(a, b);
    InkConcat(Concat(a), Concat(b));
  }

  lemma InkOfOne(s: string)
    ensures InkOf(NonEmpty(Strip(s))) == Ink(s) && InkOf(NonEmpty(s)) == Ink(s)
  {
    hide Ink, Strip, Concat;
    StripKeepsInk(s);
    ConcatOne(s);
    ConcatOne(Strip(s));
    assert Ink("") == "" by { InkUnfold(""); }
  }

  lemma ConcatOne(s: string)
    ensures Concat([s]) == s && Concat([]) == ""
  {
    assert [s][..|[s]| - 1] == [];
  }

  lemma InkSplits(p: string, j: nat, e: nat)
    requires j <= e <= |p| && Blank(p[j..e])
    ensures Ink(p) == Ink(p[..j]) + Ink(p[e..])
  {
    hide Ink, Blank;
    var a, b, c := p[..j], p[j..e], p[e..];
    Thirds(p, j, e);
    InkConcat(a, b + c);
    InkConcat(b, c);
    InkOfBlank(b);
    assert "" + Ink(c) == Ink(c);
  }

  lemma Thirds(p: string, j: nat, e: nat)
    requires j <= e <= |p|
    ensures p == p[..j] + (p[j..e] + p[e..])
  {
  }

  lemma {:induction false} SentencesKeepInk(p: string)
    ensures InkOf(Sentences(p)) == Ink(p)
    decreases |p|
  {
    hide Ink, InkOf, Strip;
    var j := FirstEnd(p);
    if j == 0 {
      InkOfOne(p);
    } else {
      var e := SkipSpace(p, j);
      InkOfOne(p[..j]);
      SentencesKeepInk(p[e..]);
      InkOfTwo(NonEmpty(Strip(p[..j])), Sentences(p[e..]));
      InkSplits(p, j, e);
    }
  }

  lemma {:induction false} SoftKeepsInk(c: string, max: nat)
    requires max >= 1
    ensures InkOf(Soft(c, max)) == Ink(c)
    decreases |c|
  {
    hide Ink, InkOf, Strip;
    InkOfOne(c);
    if |c| > max {
      var k := Cut(c, max);
      StripShrinks(c[k..]);
      InkOfOne(c[..k]);
      SoftKeepsInk(Strip(c[k..]), max);
      StripKeepsInk(c[k..]);
      InkOfTwo(NonEmpty(Strip(c[..k])), Soft(Strip(c[k..]), max));
      InkSplits(c, k, k);
    }
  }

  lemma {:induction false} SoftAllIsFine(cs: seq<string>, max: nat)
    requires max >= 1 && Chunks(cs)
    ensures Chunks(SoftAll(cs, max)) && Short(SoftAll(cs, max), max) && InkOf(SoftAll(cs, max)) == InkOf(cs)
  {
    hide InkOf, Soft, OneSentence, Tight;
    if cs != [] {
      var init, c := cs[..|cs| - 1], cs[|cs| - 1];
      SoftAllIsFine(init, max);
      SoftAreChunks(c, max);
      SoftKeepsInk(c, max);
      InkOfOne(c);
      InkOfTwo(SoftAll(init, max), Soft(c, max));
      InkOfTwo(init, [c]);
      assert init + [c] == cs;
    }
  }

  lemma {:induction false} ParagraphsAreFine(paras: seq<string>)
    requires forall i | 0 <= i < |paras| :: NEWLINE !in paras[i]
    ensures Chunks(ParagraphSentences(paras)) && InkOf(ParagraphSentences(paras)) == InkOf(paras)
  {
    hide InkOf, Sentences, Strip, Chunk;
    if paras != [] {
      var init, p := paras[..|paras| - 1], paras[|paras| - 1];
      ParagraphsAreFine(init);
      assert init + [p] == paras;
      InkOfTwo(init, [p]);
      LastParagraph(p);
      InkOfTwo(ParagraphSentences(init), if Strip(p) == "" then [] else Sentences(Strip(p)));
    }
  }

  lemma LastParagraph(p: string)
    requires NEWLINE !in p
    ensures var out := if Strip(p) == "" then [] else Sentences(Strip(p));
      Chunks(out) && InkOf(out) == InkOf([p])
  {
    hide Sentences, Ink, Chunk, Concat;
    var lo, hi := StripSplits(p);
    SentencesAreChunks(Strip(p));
    SentencesKeepInk(Strip(p));
    StripKeepsInk(p);
    InkUnfold("");
    ConcatOne("");
    InkOfLine(p);
  }

  lemma {:induction false} LinesKeepInk(s: string)
    ensures InkOf(Lines(s)) == Ink(s)
    decreases |s|
  {
    hide Ink, InkOf;
    var k := FirstNewline(s);
    if k < |s| {
      LinesKeepInk(s[k + 1..]);
      InkOfTwo([s[..k]], Lines(s[k + 1..]));
      InkOfLine(s[..k]);
      InkSplits(s, k, k + 1);
    } else {
      InkOfLine(s);
    }
  }

  lemma InkOfLine(s: string)
    ensures InkOf([s]) == Ink(s)
  {
    ConcatOne(s);
  }

  /**
   For every text and every limit: each chunk is not empty, has no outer whitespace, keeps within the limit and holds
   no sentence end or newline inside, and together they have every character of the text but its whitespace, in order.
   */
  lemma SplitConserves(text: string, max: nat)
    requires max >= 1
    ensures Chunks(Split(text, max)) && Short(Split(text, max), max)
    ensures Ink(Concat(Split(text, max))) == Ink(text)
  {
    var paras := Lines(Strip(text));
    hide Lines, ParagraphSentences, SoftAll, Ink, Strip;
    ParagraphsAreFine(paras);
    SoftAllIsFine(ParagraphSentences(paras), max);
    LinesKeepInk(Strip(text));
    StripKeepsInk(text);
  }

  /** No chunk goes on past the end of a sentence: no newline is inside it, nor a terminator before whitespace. */
  lemma NoEndInside(text: string, max: nat, i: nat, k: nat)
    requires max >= 1 && i < |Split(text, max)| && k + 1 < |Split(text, max)[i]|
    ensures var c := Split(text, max)[i];
      c[k] != NEWLINE && (c[k] == '.' || c[k] == '!' || c[k] == '?' || c[k] as int == 0x2026 ==> !IsSpace(c[k + 1]))
  {
    hide Split;
    SplitConserves(text, max);
    assert Chunk(Split(text, max)[i]) && !EndsAt(Split(text, max)[i], k + 1);
  }

  // The code

  /** The regular expression's search from start: the end of the terminator run and of the whitespace after it. */
  method FindEnd(p: string, start: nat) returns (found: bool, j: nat, e: nat)
    requires start <= |p|
    ensures found <==> FirstEnd(p[start..]) != 0
    ensures found ==> j == start + FirstEnd(p[start..]) && j <= e <= |p|
    ensures found ==> e == start + SkipSpace(p[start..], j - start)
  {
    var q := p[start..];
    j, e, found := start, start, false;
    while j < |p|
      invariant start <= j <= |p|
      invariant forall h | 0 <= h <= j - start :: !EndsAt(q, h)
    {
      if !IsTerminator(p[j]) {
        j := j + 1;
        continue;
      }
      ghost var run := j;
      while j < |p| && IsTerminator(p[j])
        invariant run <= j <= |p|
        invariant forall h | run <= h < j :: IsTerminator(p[h])
      {
        j := j + 1;
      }
      assert forall h | run - start < h < j - start :: q[h] == p[start + h] && IsTerminator(q[h]);
      assert forall h | run - start < h < j - start :: !EndsAt(q, h);
      if j == |p| || IsSpace(p[j]) {
        assert q[j - start - 1] == p[j - 1];
        assert EndsAt(q, j - start);
        e := j;
        while e < |p| && IsSpace(p[e])
          invariant j <= e <= |p|
          invariant SkipSpace(q, j - start) == SkipSpace(q, e - start)
        {
          assert q[e - start] == p[e];
          e := e + 1;
        }
        return true, j, e;
      }
    }
  }

  /** The sentences of one stripped paragraph, after those so far. */
  method AppendSentences(chunks: seq<string>, para: string) returns (more: seq<string>)
    ensures more == chunks + Sentences(para)
  {
    hide Strip, Sentences;
    more := chunks;
    var start := 0;
    assert para[0..] == para;
    var found, j, e := FindEnd(para, start);
    while found
      invariant start <= |para| && found == (FirstEnd(para[start..]) != 0)
      invariant found ==> j == start + FirstEnd(para[start..]) && j <= e <= |para|
      invariant found ==> e == start + SkipSpace(para[start..], j - start)
      invariant more + Sentences(para[start..]) == chunks + Sentences(para)
      decreases |para| - start
    {
      assert para[start..j] == para[start..][..j - start];
      assert para[e..] == para[start..][e - start..];
      SentencesUnfold(para[start..]);
      more := more + NonEmpty(Strip(para[start..j]));
      start := e;
      found, j, e := FindEnd(para, start);
    }
    SentencesUnfold(para[start..]);
    more := more + NonEmpty(Strip(para[start..]));
  }

  method SoftSplit(chunks: seq<string>, max: nat) returns (out: seq<string>)
    requires max >= 1
    ensures out == SoftAll(chunks, max)
  {
    hide Strip, Soft, SoftAll;
    out := [];
    SoftAllUnfold([], max);
    for i := 0 to |chunks|
      invariant out == SoftAll(chunks[..i], max)
    {
      SoftAllUnfold(chunks[..i + 1], max);
      assert chunks[..i + 1][..i] == chunks[..i];
      var c := chunks[i];
      ghost var done := out;
      while |c| > max
        invariant out + Soft(c, max) == done + Soft(chunks[i], max)
        decreases |c|
      {
        SoftUnfold(c, max);
        var cut := LastSpace(c, max);
        if cut <= 0 { cut := max; }
        StripShrinks(c[cut..]);
        out := out + NonEmpty(Strip(c[..cut]));
        c := Strip(c[cut..]);
      }
      SoftUnfold(c, max);
      out := out + NonEmpty(c);
    }
    assert chunks[..|chunks|] == chunks;
  }

  /** split_sentences. */
  method SplitSentences(text: string, max: nat) returns (out: seq<string>)
    requires max >= 1
    ensures out == Split(text, max)
    ensures Chunks(out) && Short(out, max) && Ink(Concat(out)) == Ink(text)
  {
    SplitConserves(text, max);
    hide Strip, Sentences, Soft, SoftAll, Ink, Chunks, Short, Concat, Lines, ParagraphSentences;
    var paras := Lines(Strip(text));
    var chunks := [];
    ParagraphsUnfold(paras[..0]);
    for i := 0 to |paras|
      invariant chunks == ParagraphSentences(paras[..i])
    {
      assert paras[..i + 1][..i] == paras[..i];
      ParagraphsUnfold(paras[..i + 1]);
      var para := Strip(paras[i]);
      if para == "" { continue; }
      chunks := AppendSentences(chunks, para);
    }
    assert paras[..|paras|] == paras;
    out := SoftSplit(chunks, max);
  }

  lemma ParagraphsUnfold(paras: seq<string>)
    ensures ParagraphSentences(paras) ==
      if paras == [] then []
      else
        var last := Strip(paras[|paras| - 1]);
        ParagraphSentences(paras[..|paras| - 1]) + if last == "" then [] else Sentences(last)
  {
  }

  lemma SentencesUnfold(p: string)
    ensures Sentences(p) ==
      if FirstEnd(p) == 0 then NonEmpty(Strip(p))
      else NonEmpty(Strip(p[..FirstEnd(p)])) + Sentences(p[SkipSpace(p, FirstEnd(p))..])
  {
  }

  lemma SoftUnfold(c: string, max: nat)
    requires max >= 1
    ensures |c| <= max ==> Soft(c, max) == NonEmpty(c)
    ensures |c| > max ==> Soft(c, max) == NonEmpty(Strip(c[..Cut(c, max)])) + Soft(Strip(c[Cut(c, max)..]), max)
  {
  }

  lemma SoftAllUnfold(cs: seq<string>, max: nat)
    requires max >= 1
    ensures SoftAll(cs, max) == if cs == [] then [] else SoftAll(cs[..|cs| - 1], max) + Soft(cs[|cs| - 1], max)
  {
  }

  // Joined with spaces

  function Join(cs: seq<string>): string {
    if cs == [] then "" else if |cs| == 1 then cs[0] else cs[0] + " " + Join(cs[1..])
  }

  /** Every whitespace is one space between two other characters. */
  predicate SingleSpaced(t: string) {
    forall i | 0 <= i < |t| && IsSpace(t[i]) :: t[i] == SPACE && 0 < i && i + 1 < |t| && !IsSpace(t[i + 1])
  }

  /** No run without a space is longer than max. */
  predicate WordsFit(t: string, max: nat) {
    forall i | 0 <= i < |t| - max :: SpaceWithin(t, i, max)
  }

  predicate SpaceWithin(t: string, i: nat, max: nat)
    requires i + max < |t|
  {
    exists k | i <= k <= i + max :: t[k] == SPACE
  }

  lemma {:induction false} JoinTwo(a: seq<string>, b: seq<string>)
    requires a != [] && b != []
    ensures Join(a + b) == Join(a) + " " + Join(b)
  {
    if |a| == 1 {
      assert (a + b)[1..] == b;
    } else {
      assert (a + b)[1..] == a[1..] + b;
      JoinTwo(a[1..], b);
      var x, y, z := a[0] + " ", Join(a[1..]), " " + Join(b);
      assert x + (y + z) == (x + y) + z;
      assert Join(a[1..]) + " " + Join(b) == y + z;
      assert Join(a) + " " + Join(b) == (x + y) + z;
    }
  }

  /** Joining short pieces leaves no long word: whenever the join is the text, the text has none. */
  lemma {:induction false} JoinedWordsFit(cs: seq<string>, max: nat)
    requires Short(cs, max)
    ensures WordsFit(Join(cs), max)
  {
    var t := Join(cs);
    if |cs| > 1 {
      var c, rest := cs[0], Join(cs[1..]);
      JoinedWordsFit(cs[1..], max);
      assert t == c + " " + rest;
      forall i | 0 <= i < |t| - max ensures SpaceWithin(t, i, max) {
        if i <= |c| {
          assert t[|c|] == SPACE;
        } else {
          var i' := i - |c| - 1;
          assert SpaceWithin(rest, i', max);
          var k :| i' <= k <= i' + max && rest[k] == SPACE;
          assert t[k + |c| + 1] == SPACE;
        }
      }
    }
  }

  // When the join gives the text back

  /** One space, with no whitespace on either side. */
  predicate LoneSpace(t: string, k: nat) {
    0 < k < |t| - 1 && t[k] == SPACE && !IsSpace(t[k - 1]) && !IsSpace(t[k + 1])
  }

  predicate LoneEnds(t: string) {
    forall j | 1 <= j < |t| && EndsAt(t, j) :: LoneSpace(t, j)
  }

  /** Every soft cut of the sentence falls on a lone space. */
  predicate SoftLone(c: string, max: nat)
    requires max >= 1
    decreases |c|
  {
    |c| > max ==> LoneSpace(c, Cut(c, max)) && SoftLone(c[Cut(c, max) + 1..], max)
  }

  predicate AllSoftLone(cs: seq<string>, max: nat)
    requires max >= 1
  {
    forall i | 0 <= i < |cs| :: SoftLone(cs[i], max)
  }

  /** No outer whitespace, no newline, one space after each sentence end, and one wherever a long sentence is cut. */
  predicate Rebuilds(text: string, max: nat)
    requires max >= 1
  {
    text != "" ==> Tight(text) && NEWLINE !in text && LoneEnds(text) && AllSoftLone(Sentences(text), max)
  }

  lemma CutAtLone(t: string, k: nat)
    requires Tight(t) && LoneSpace(t, k)
    ensures Tight(t[..k]) && Tight(t[k + 1..]) && t[..k] != "" && t[k + 1..] != ""
    ensures Strip(t[..k]) == t[..k] && Strip(t[k..]) == t[k + 1..] && t == t[..k] + " " + t[k + 1..]
  {
    var b := t[k + 1..];
    StripOfTight(t[..k]);
    assert t[k..] == " " + b;
    LStripMargin(" ", b);
    StripOfTight(b);
  }

  lemma {:induction false} SoftRejoins(c: string, max: nat)
    requires max >= 1 && c != "" && Tight(c) && SoftLone(c, max)
    ensures Soft(c, max) != [] && Join(Soft(c, max)) == c
    decreases |c|
  {
    hide Strip, LoneSpace, Tight, Soft, Join;
    SoftUnfold(c, max);
    JoinOne(c);
    if |c| > max {
      var k := Cut(c, max);
      CutAtLone(c, k);
      SoftRejoins(c[k + 1..], max);
      JoinTwo([c[..k]], Soft(c[k + 1..], max));
      JoinOne(c[..k]);
    }
  }

  lemma LoneEndsAfter(p: string, j: nat)
    requires LoneEnds(p) && LoneSpace(p, j)
    ensures LoneEnds(p[j + 1..])
  {
    var q := p[j + 1..];
    forall i | 1 <= i < |q| && EndsAt(q, i) ensures LoneSpace(q, i) {
      assert EndsAt(p, j + 1 + i);
    }
  }

  lemma {:induction false} SentencesRejoin(p: string)
    requires p != "" && Tight(p) && LoneEnds(p)
    ensures Sentences(p) != [] && Join(Sentences(p)) == p
    decreases |p|
  {
    hide Strip, LoneEnds, Sentences, FirstEnd, Tight, Join, LoneSpace;
    SentencesUnfold(p);
    StripOfTight(p);
    JoinOne(p);
    var j := FirstEnd(p);
    if 0 < j < |p| {
      LoneEnd(p, j);
      CutAtLone(p, j);
      LoneEndsAfter(p, j);
      SentencesRejoin(p[j + 1..]);
      JoinTwo([p[..j]], Sentences(p[j + 1..]));
      JoinOne(p[..j]);
    } else if j == |p| {
      WholeSentence(p);
    }
  }

  lemma LoneEnd(p: string, j: nat)
    requires LoneEnds(p) && j < |p| && EndsAt(p, j)
    ensures LoneSpace(p, j) && SkipSpace(p, j) == j + 1
  {
  }

  /** A paragraph whose only end is its last character is one sentence. */
  lemma WholeSentence(p: string)
    requires p != "" && Tight(p) && FirstEnd(p) == |p|
    ensures Sentences(p) == [p]
  {
    hide Strip, FirstEnd;
    StripOfTight(p);
    StripOfTight("");
    SentencesUnfold(p);
    SentencesUnfold("");
    assert p[..|p|] == p && p[SkipSpace(p, |p|)..] == "";
    assert FirstEnd("") == 0;
  }

  predicate TightAll(cs: seq<string>) {
    forall i | 0 <= i < |cs| :: cs[i] != "" && Tight(cs[i])
  }

  lemma ChunksAreTight(cs: seq<string>)
    requires Chunks(cs)
    ensures TightAll(cs)
  {
  }

  lemma {:induction false} SoftAllRejoins(cs: seq<string>, max: nat)
    requires max >= 1 && TightAll(cs) && AllSoftLone(cs, max)
    ensures Join(SoftAll(cs, max)) == Join(cs) && (cs != [] ==> SoftAll(cs, max) != [])
  {
    hide Soft, Join, SoftAll, SoftLone, Tight;
    SoftAllUnfold(cs, max);
    if cs != [] {
      var init, c := cs[..|cs| - 1], cs[|cs| - 1];
      SoftAllRejoins(init, max);
      SoftRejoins(c, max);
      JoinOne(c);
      if init != [] {
        JoinTwo(SoftAll(init, max), Soft(c, max));
        JoinTwo(init, [c]);
        assert init + [c] == cs;
      } else {
        SoftAllUnfold(init, max);
        assert cs == [c] && [] + Soft(c, max) == Soft(c, max);
      }
    }
  }

  lemma JoinOne(c: string)
    ensures Join([c]) == c
  {
  }

  /** A join of tight pieces begins and ends with no whitespace. */
  lemma {:induction false} JoinIsTight(cs: seq<string>)
    requires TightAll(cs) && cs != []
    ensures Join(cs) != "" && Tight(Join(cs))
  {
    if |cs| > 1 {
      JoinIsTight(cs[1..]);
      var c, rest := cs[0], Join(cs[1..]);
      var t := c + " " + rest;
      assert Join(cs) == t && t[0] == c[0] && t[|t| - 1] == rest[|rest| - 1];
    }
  }

  lemma BlankPart(c: string, a: nat, b: nat)
    requires a <= b <= |c| && Blank(c[a..b])
    ensures forall i | a <= i < b :: IsSpace(c[i])
  {
    forall i | a <= i < b ensures IsSpace(c[i]) {
      assert c[a..b][i - a] == c[i];
    }
  }

  lemma InkFirst(s: string, lo: nat)
    requires s != "" && !IsSpace(s[0]) && lo <= |s| && forall i | 0 <= i < lo :: IsSpace(s[i])
    ensures lo == 0
  {
  }

  /** Where a tight text is cut before its end, the pieces stripped are its beginning and its end. */
  lemma CutPieces(c: string, k: nat) returns (k': nat)
    requires c != "" && Tight(c) && 0 < k < |c|
    ensures 0 < k' <= k && Strip(c[..k]) == c[..k'] && Blank(c[k'..k]) && !IsSpace(c[k' - 1]) && Strip(c[k..]) != ""
  {
    var lo, hi := StripSplits(c[..k]);
    assert c[..k][0..lo] == c[..k][..lo];
    BlankPart(c[..k], 0, lo);
    InkFirst(c[..k], lo);
    k' := hi;
    assert c[..k][0..hi] == c[..hi] && c[..k][hi..] == c[hi..k];
    assert !IsSpace(c[..k][0]);
    var lo', hi' := StripSplits(c[k..]);
    assert !IsSpace(c[k..][|c[k..]| - 1]);
  }

  /** If what follows the first piece is one space and then no whitespace, the cut fell on a lone space. */
  lemma CutWasLone(c: string, max: nat, k': nat, t: string)
    requires 1 <= max < |c| && Tight(c) && c <= t
    requires 0 < k' <= Cut(c, max) && Blank(c[k'..Cut(c, max)]) && !IsSpace(c[k' - 1])
    requires k' + 1 < |t| && t[k'] == SPACE && !IsSpace(t[k' + 1])
    ensures k' == Cut(c, max) && LoneSpace(c, k')
  {
    var k := Cut(c, max);
    assert forall i | 0 <= i < |c| :: c[i] == t[i];
    BlankPart(c, k', k);
    assert k == k' || k == k' + 1;
  }

  lemma ShortSoft(c: string, max: nat)
    requires max >= 1
    ensures |c| <= max ==> SoftLone(c, max)
    ensures |c| > max && LoneSpace(c, Cut(c, max)) ==> (SoftLone(c, max) <==> SoftLone(c[Cut(c, max) + 1..], max))
  {
  }

  /** A sentence at the start of a text that is the join of its pieces, whatever follows: its cuts are lone. */
  lemma {:induction false} SoftNeedsLone(c: string, max: nat, more: seq<string>, t: string)
    requires max >= 1 && c != "" && Tight(c) && OneSentence(c) && c <= t && TightAll(more)
    requires t == Join(Soft(c, max) + more)
    ensures SoftLone(c, max)
    decreases |c|
  {
    hide Strip, Soft, Tight, OneSentence, Join, LoneSpace, SoftLone, Blank;
    ShortSoft(c, max);
    if |c| > max {
      var k, tail := FirstCutIsLone(c, max, more, t);
      CutAtLone(c, k);
      PartOfSentence(c, k + 1, |c|);
      assert c[k + 1..|c|] == c[k + 1..];
      SoftNeedsLone(c[k + 1..], max, more, tail);
    }
  }

  lemma FirstCutIsLone(c: string, max: nat, more: seq<string>, t: string) returns (k: nat, tail: string)
    requires 1 <= max < |c| && Tight(c) && OneSentence(c) && c <= t && TightAll(more) && t == Join(Soft(c, max) + more)
    ensures k == Cut(c, max) && LoneSpace(c, k) && k < |c| && c[k + 1..] <= tail
    ensures tail == Join(Soft(Strip(c[k..]), max) + more)
  {
    hide Strip, Soft, Tight, OneSentence, Join, Blank;
    k := Cut(c, max);
    var k' := CutPieces(c, k);
    SoftUnfold(c, max);
    RestPieces(c, max);
    var pieces := Soft(Strip(c[k..]), max) + more;
    assert Soft(c, max) + more == [c[..k']] + pieces;
    JoinTwo([c[..k']], pieces);
    JoinOne(c[..k']);
    JoinIsTight(pieces);
    tail := Join(pieces);
    assert t == c[..k'] + " " + tail && t[k'] == SPACE && t[k' + 1] == tail[0];
    FirstIsInk(tail);
    CutWasLone(c, max, k', t);
    assert t[k + 1..] == tail;
  }

  lemma FirstIsInk(t: string)
    requires t != "" && Tight(t)
    ensures !IsSpace(t[0])
  {
  }

  lemma RestPieces(c: string, max: nat)
    requires 1 <= max < |c| && OneSentence(c) && Strip(c[Cut(c, max)..]) != ""
    ensures var rest := Strip(c[Cut(c, max)..]); TightAll(Soft(rest, max)) && Soft(rest, max) != []
  {
    hide Strip, OneSentence, Tight;
    var k := Cut(c, max);
    PartOfSentence(c, k, |c|);
    assert c[k..|c|] == c[k..];
    StripOfSentence(c[k..]);
    StripKeepsInk(c[k..]);
    SoftAreChunks(Strip(c[k..]), max);
    ChunksAreTight(Soft(Strip(c[k..]), max));
    SoftIsSome(Strip(c[k..]), max);
  }

  lemma SoftIsSome(c: string, max: nat)
    requires max >= 1 && c != "" && Tight(c)
    ensures Soft(c, max) != []
  {
    hide Strip;
    if |c| > max { var k' := CutPieces(c, Cut(c, max)); }
  }

  lemma {:induction false} SoftAllConcat(a: seq<string>, b: seq<string>, max: nat)
    requires max >= 1
    ensures SoftAll(a + b, max) == SoftAll(a, max) + SoftAll(b, max)
  {
    hide Soft;
    if b == [] {
      assert a + b == a;
    } else {
      var b' := b[..|b| - 1];
      assert (a + b)[..|a + b| - 1] == a + b';
      SoftAllConcat(a, b', max);
    }
  }

  /** The pieces of a first sentence and of the rest. */
  lemma SoftAllFirst(s: string, rest: seq<string>, max: nat)
    requires max >= 1
    ensures SoftAll([s] + rest, max) == Soft(s, max) + SoftAll(rest, max)
  {
    hide Soft;
    SoftAllConcat([s], rest, max);
    assert [s][..|[s]| - 1] == [];
  }

  /** A paragraph that is the join of its pieces has one space after each end, and lone cuts. */
  lemma {:induction false} SentencesNeedLone(p: string, max: nat)
    requires max >= 1 && p != "" && Tight(p) && NEWLINE !in p && p == Join(SoftAll(Sentences(p), max))
    ensures LoneEnds(p) && AllSoftLone(Sentences(p), max)
    decreases |p|
  {
    hide Strip, Soft, SoftAll, Sentences, FirstEnd, Tight, OneSentence, Join, LoneSpace, LoneEnds, SoftLone;
    var j := FirstEnd(p);
    assert forall i | 0 <= i < |p| :: p[i] != NEWLINE;
    if 0 < j < |p| {
      FirstNeedsLone(p, max);
      CutAtLone(p, j);
      var q := p[j + 1..];
      assert forall c | c in q :: c in p;
      SentencesNeedLone(q, max);
      EndsBefore(p, j);
    } else {
      OneSentenceOnly(p);
      SoftAllFirst(p, [], max);
      SoftAllUnfold([], max);
      assert [p] + [] == [p] && Soft(p, max) + [] == Soft(p, max);
      SoftNeedsLone(p, max, [], p);
    }
  }

  /** No end before the last character: one sentence, all ends lone. */
  lemma OneSentenceOnly(p: string)
    requires p != "" && Tight(p) && (FirstEnd(p) == 0 || FirstEnd(p) == |p|)
    requires forall i | 0 <= i < |p| :: p[i] != NEWLINE
    ensures Sentences(p) == [p] && OneSentence(p) && LoneEnds(p)
  {
    hide Strip, FirstEnd, Sentences;
    FirstEndIsOne(p);
    assert p[..|p|] == p;
    if FirstEnd(p) == 0 {
      StripOfTight(p);
      SentencesUnfold(p);
    } else {
      WholeSentence(p);
    }
  }

  /** The ends of a text are its first one and those after it. */
  lemma EndsBefore(p: string, j: nat)
    requires 0 < j == FirstEnd(p) < |p| && LoneSpace(p, j) && LoneEnds(p[j + 1..])
    ensures LoneEnds(p)
  {
    var q := p[j + 1..];
    forall i | 1 <= i < |p| && EndsAt(p, i) ensures LoneSpace(p, i) {
      if i > j + 1 {
        assert EndsAt(q, i - j - 1);
        assert LoneSpace(q, i - j - 1);
      }
    }
  }

  /** The first sentence ends at a lone space, its cuts are lone, and the rest is the join of its own pieces. */
  lemma FirstNeedsLone(p: string, max: nat)
    requires max >= 1 && Tight(p) && p != "" && (forall i | 0 <= i < |p| :: p[i] != NEWLINE)
    requires p == Join(SoftAll(Sentences(p), max)) && 0 < FirstEnd(p) < |p|
    ensures var j := FirstEnd(p);
      && LoneSpace(p, j) && SoftLone(p[..j], max) && Sentences(p) == [p[..j]] + Sentences(p[j + 1..])
      && p[j + 1..] == Join(SoftAll(Sentences(p[j + 1..]), max))
  {
    hide Soft, SoftAll, Sentences, FirstEnd, OneSentence, Join, SoftLone;
    var j := FirstEnd(p);
    var e := SkipSpace(p, j);
    var first, rest := p[..j], Sentences(p[e..]);
    assert e < |p|;
    SentencesUnfold(p);
    StripOfTight(first);
    hide Strip;
    FirstEndIsOne(p);
    SentencesAreChunks(p[e..]);
    SoftAllIsFine(rest, max);
    var more := SoftAll(rest, max);
    ChunksAreTight(more);
    SoftAllFirst(first, rest, max);
    SoftNeedsLone(first, max, more, p);
    SoftRejoins(first, max);
    RestIsSome(p[e..], max);
    JoinTwo(Soft(first, max), more);
    JoinIsTight(more);
    assert p == first + " " + Join(more) && p[j] == SPACE && p[j + 1] == Join(more)[0];
    assert e == j + 1;
  }

  lemma RestIsSome(p: string, max: nat)
    requires max >= 1 && p != "" && Tight(p)
    ensures Sentences(p) != [] && SoftAll(Sentences(p), max) != []
  {
    hide Soft, SoftAll, Ink, InkOf;
    SentencesKeepInk(p);
    InkOfTight(p);
    if SoftAll(Sentences(p), max) == [] || Sentences(p) == [] {
      NoInk(p, max);
    }
  }

  lemma InkOfTight(p: string)
    requires p != "" && Tight(p)
    ensures Ink(p) != ""
  {
    InkUnfold(p);
  }

  /** A text the split leaves nothing of has no ink. */
  lemma NoInk(p: string, max: nat)
    requires max >= 1 && (SoftAll(Sentences(p), max) == [] || Sentences(p) == [])
    ensures Ink(p) == ""
  {
    hide Sentences, Soft, Ink;
    var ss := Sentences(p);
    SentencesKeepInk(p);
    AllInk(ss, max);
    InkUnfold("");
    ConcatOne("");
  }

  lemma {:induction false} AllInk(cs: seq<string>, max: nat)
    requires max >= 1
    ensures InkOf(SoftAll(cs, max)) == InkOf(cs)
  {
    hide InkOf, Soft;
    if cs != [] {
      var init, c := cs[..|cs| - 1], cs[|cs| - 1];
      AllInk(init, max);
      SoftKeepsInk(c, max);
      InkOfOne(c);
      InkOfTwo(SoftAll(init, max), Soft(c, max));
      InkOfTwo(init, [c]);
      InkOfLine(c);
      assert init + [c] == cs;
    }
  }

  /** A text with no margin and no newline is one paragraph. */
  lemma SplitOfOne(text: string, max: nat)
    requires max >= 1 && Tight(text) && NEWLINE !in text
    ensures Split(text, max) == SoftAll(if text == "" then [] else Sentences(text), max)
  {
    hide Sentences, SoftAll, Soft, Strip, Lines;
    StripOfTight(text);
    LinesStep(text, "");
    OneParagraph(text);
  }

  lemma OneParagraph(p: string)
    requires Strip(p) == p
    ensures ParagraphSentences([p]) == if p == "" then [] else Sentences(p)
  {
    hide Sentences, Strip;
    assert [p][..|[p]| - 1] == [];
    assert ParagraphSentences([]) == [];
  }

  lemma {:induction false} NoNewlineJoined(cs: seq<string>)
    requires Chunks(cs)
    ensures NEWLINE !in Join(cs)
  {
    if |cs| == 1 {
      assert forall i | 0 <= i < |cs[0]| :: cs[0][i] != NEWLINE;
    } else if |cs| > 1 {
      NoNewlineJoined(cs[1..]);
      assert forall i | 0 <= i < |cs[0]| :: cs[0][i] != NEWLINE;
    }
  }

  /**
   Joining the chunks with spaces gives the text back exactly when it has no margin and no newline, one space after each
   sentence end, and one space wherever a sentence over the limit is cut; in particular only when every run without a
   space fits the limit.
   */
  lemma JoinRebuildsIff(text: string, max: nat)
    requires max >= 1
    ensures Join(Split(text, max)) == text <==> Rebuilds(text, max)
    ensures Rebuilds(text, max) ==> WordsFit(text, max)
  {
    hide Split, Sentences, SoftAll, WordsFit, Join, LoneEnds, AllSoftLone, Tight;
    var cs := Split(text, max);
    SplitConserves(text, max);
    JoinedWordsFit(cs, max);
    ChunksAreTight(cs);
    NoNewlineJoined(cs);
    if Join(cs) == text && text != "" {
      JoinedSome(cs);
      JoinIsTight(cs);
      SplitOfOne(text, max);
      SentencesNeedLone(text, max);
    }
    if Rebuilds(text, max) {
      EmptyTight(text);
      SplitOfOne(text, max);
      if text == "" {
        SoftAllUnfold([], max);
        JoinedNone();
      } else {
        SentencesRejoin(text);
        assert forall i | 0 <= i < |text| :: text[i] != NEWLINE;
        SentencesAreChunks(text);
        ChunksAreTight(Sentences(text));
        SoftAllRejoins(Sentences(text), max);
      }
    }
  }

  lemma EmptyTight(text: string)
    requires text != "" ==> Tight(text)
    ensures Tight(text)
  {
  }

  lemma JoinedSome(cs: seq<string>)
    requires Join(cs) != ""
    ensures cs != []
  {
  }

  lemma JoinedNone()
    ensures Join([]) == ""
  {
  }

  /** For a text whose words stand one space apart, that is exactly when every word fits. */
  lemma SingleSpacedRebuildsIff(text: string, max: nat)
    requires max >= 1 && SingleSpaced(text)
    ensures Join(Split(text, max)) == text <==> WordsFit(text, max)
  {
    hide Split, Join;
    JoinRebuildsIff(text, max);
    if WordsFit(text, max) && text != "" { SingleSpacedRebuilds(text, max); }
  }

  lemma SingleSpacedRebuilds(text: string, max: nat)
    requires max >= 1 && SingleSpaced(text) && WordsFit(text, max) && text != ""
    ensures Rebuilds(text, max)
  {
    hide Sentences, WordsFit;
    assert forall j | 1 <= j < |text| && EndsAt(text, j) :: IsSpace(text[j]);
    assert LoneEnds(text);
    SentencesFit(text, max);
  }

  lemma PartFits(t: string, lo: nat, hi: nat, max: nat)
    requires WordsFit(t, max) && lo <= hi <= |t|
    ensures WordsFit(t[lo..hi], max)
  {
    var d := t[lo..hi];
    forall i | 0 <= i < |d| - max ensures SpaceWithin(d, i, max) {
      assert SpaceWithin(t, lo + i, max);
      var k :| lo + i <= k <= lo + i + max && t[k] == SPACE;
      assert d[k - lo] == SPACE;
    }
  }

  lemma SingleCut(t: string, k: nat)
    requires SingleSpaced(t) && k < |t| && IsSpace(t[k])
    ensures LoneSpace(t, k) && SingleSpaced(t[..k]) && SingleSpaced(t[k + 1..])
  {
    var b := t[k + 1..];
    forall i | 0 <= i < |b| && IsSpace(b[i]) ensures b[i] == SPACE && 0 < i && i + 1 < |b| && !IsSpace(b[i + 1]) {
      assert b[i] == t[k + 1 + i];
    }
  }

  lemma {:induction false} SoftFits(c: string, max: nat)
    requires max >= 1 && SingleSpaced(c) && WordsFit(c, max)
    ensures SoftLone(c, max)
    decreases |c|
  {
    hide SingleSpaced, LoneSpace, SoftLone;
    ShortSoft(c, max);
    if |c| > max {
      var k := Cut(c, max);
      CutFindsSpace(c, max);
      SingleCut(c, k);
      LoneInside(c, k);
      PartFits(c, k + 1, |c|, max);
      assert c[k + 1..|c|] == c[k + 1..];
      SoftFits(c[k + 1..], max);
    }
  }

  lemma LoneInside(c: string, k: nat)
    requires LoneSpace(c, k)
    ensures k + 1 < |c|
  {
  }

  lemma CutFindsSpace(c: string, max: nat)
    requires 1 <= max < |c| && WordsFit(c, max) && SingleSpaced(c)
    ensures c[Cut(c, max)] == SPACE && IsSpace(c[Cut(c, max)])
  {
    assert SpaceWithin(c, 0, max);
    var k :| 0 <= k <= 0 + max && c[k] == SPACE;
    assert IsSpace(c[k]) && k > 0;
  }

  lemma {:induction false} SentencesFit(p: string, max: nat)
    requires max >= 1 && SingleSpaced(p) && WordsFit(p, max) && p != ""
    ensures AllSoftLone(Sentences(p), max) && Tight(p) && NEWLINE !in p
    decreases |p|
  {
    hide SingleSpaced, WordsFit, Sentences, FirstEnd, SoftLone, LoneSpace, Strip;
    EndsAreInk(p);
    StripOfTight(p);
    SentencesUnfold(p);
    var j := FirstEnd(p);
    if 0 < j < |p| {
      SingleCut(p, j);
      LoneInside(p, j);
      CutAtLone(p, j);
      SkipOne(p, j);
      PartFits(p, j + 1, |p|, max);
      PartFits(p, 0, j, max);
      assert p[j + 1..|p|] == p[j + 1..] && p[0..j] == p[..j];
      SoftFits(p[..j], max);
      SentencesFit(p[j + 1..], max);
    } else {
      SoftFits(p, max);
      if j == |p| { WholeSentence(p); }
    }
  }

  lemma SkipOne(p: string, j: nat)
    requires LoneSpace(p, j)
    ensures SkipSpace(p, j) == j + 1
  {
  }

  lemma EndsAreInk(t: string)
    requires SingleSpaced(t)
    ensures Tight(t) && NEWLINE !in t
  {
  }
}
