/** The streaming text pipeline of lang-graph/src/components/Chat.tsx:
    `processSlice`, `processMarkdown` and the accumulation window of
    `readStream`. `processMarkdown` turns LaTeX delimiters the model emits
    (`\[ \]` for display math, `\( \)` for inline math) into the dollar
    delimiters the Markdown renderer understands. */
module Markdown {
  import opened Strings

  const Backslash: char := '\\'

  /** The characters that, after a backslash, form one of the four escapes. */
  predicate IsEscapeChar(c: char) {
    c == '[' || c == ']' || c == '(' || c == ')'
  }

  /** What each escape becomes: display math `$$`, inline math `$`. */
  function Replacement(c: char): (r: string)
    requires IsEscapeChar(c)
    ensures |r| > 0 && forall i :: 0 <= i < |r| ==> r[i] == '$'
  {
    if c == '[' || c == ']' then "$$" else "$"
  }

  /** An escape pair starts at offset `i`. */
  predicate EscapeAt(s: string, i: nat) {
    i + 1 < |s| && s[i] == Backslash && IsEscapeChar(s[i + 1])
  }

  ghost predicate NoEscapes(s: string) {
    forall i: nat :: !EscapeAt(s, i)
  }

  /** JavaScript replacement-string expansion for the patterns used here:
      each `$$` stands for one literal `$`, any other character is literal. */
  function ExpandDollars(r: string): string
    decreases |r|
  {
    if |r| >= 2 && r[0] == '$' && r[1] == '$' then "$" + ExpandDollars(r[2..])
    else if |r| == 0 then ""
    else [r[0]] + ExpandDollars(r[1..])
  }

  /** `"$$$$"` inserts `$$` and `"$$"` inserts `$`. */
  lemma ReplacementStrings()
    ensures ExpandDollars("$$$$") == "$$"
    ensures ExpandDollars("$$") == "$"
  {
    assert "$$$$"[2..] == "$$";
    assert "$$"[2..] == "";
  }

  /** `s.replace(/\\c/g, rep)`: a left-to-right scan replacing every
      non-overlapping backslash-`c` pair by `rep`. */
  function ReplaceAll(s: string, c: char, rep: string): string
    decreases |s|
  {
    if |s| == 0 then ""
    else if |s| >= 2 && s[0] == Backslash && s[1] == c then rep + ReplaceAll(s[2..], c, rep)
    else [s[0]] + ReplaceAll(s[1..], c, rep)
  }

  /** `processMarkdown`: the four global replacements, in source order. */
  function ProcessMarkdown(text: string): string {
    var t1 := ReplaceAll(text, '[', ExpandDollars("$$$$"));
    var t2 := ReplaceAll(t1, ']', ExpandDollars("$$$$"));
    var t3 := ReplaceAll(t2, '(', ExpandDollars("$$"));
    ReplaceAll(t3, ')', ExpandDollars("$$"))
  }

  /** Reference definition: one left-to-right scan rewriting each of the four
      escapes and copying every other character. */
  function Unescape(s: string): (r: string)
    ensures |r| <= |s|
    ensures |r| == 0 <==> |s| == 0
    ensures |r| > 0 ==> r[0] == s[0] || r[0] == '$'
    decreases |s|
  {
    if |s| == 0 then ""
    else if EscapeAt(s, 0) then Replacement(s[1]) + Unescape(s[2..])
    else [s[0]] + Unescape(s[1..])
  }

  // ---- the four passes compose into the single scan ----

  predicate AllEscapeChars(cs: seq<char>) {
    forall i :: 0 <= i < |cs| ==> IsEscapeChar(cs[i])
  }

  /** Replacement passes applied in the order given by `cs`. */
  function Passes(s: string, cs: seq<char>): string
    requires AllEscapeChars(cs)
    decreases |cs|
  {
    if |cs| == 0 then s
    else Passes(ReplaceAll(s, cs[0], Replacement(cs[0])), cs[1..])
  }

  lemma ProcessMarkdownIsPasses(s: string)
    ensures ProcessMarkdown(s) == Passes(s, "[]()")
  {
    ReplacementStrings();
    var cs := "[]()";
    assert cs[1..] == "]()" && cs[1..][1..] == "()" && cs[1..][1..][1..] == ")" && cs[1..][1..][1..][1..] == "";
  }

  predicate NoBackslash(p: string) {
    forall i :: 0 <= i < |p| ==> p[i] != Backslash
  }

  lemma {:induction false} ReplaceAllPlain(p: string, t: string, c: char, rep: string)
    requires NoBackslash(p)
    ensures ReplaceAll(p + t, c, rep) == p + ReplaceAll(t, c, rep)
    decreases |p|
  {
    if |p| > 0 {
      assert (p + t)[1..] == p[1..] + t;
      ReplaceAllPlain(p[1..], t, c, rep);
      assert p == [p[0]] + p[1..];
    } else {
      assert p + t == t;
    }
  }

  lemma ReplaceAllEmpty(c: char, rep: string)
    ensures ReplaceAll("", c, rep) == ""
  {
  }

  /** A lone backslash (one not followed by `c`) is copied and the scan resumes after it. */
  lemma ReplaceAllBackslash(t: string, c: char, rep: string)
    requires |t| == 0 || t[0] != c
    ensures ReplaceAll([Backslash] + t, c, rep) == [Backslash] + ReplaceAll(t, c, rep)
  {
    assert ([Backslash] + t)[1..] == t;
  }

  /** After a pass, the first character is the old one or the start of a replacement. */
  lemma ReplaceAllHead(t: string, c: char, rep: string)
    requires |t| > 0 && |rep| > 0
    ensures |ReplaceAll(t, c, rep)| > 0
    ensures ReplaceAll(t, c, rep)[0] == t[0] || ReplaceAll(t, c, rep)[0] == rep[0]
  {
  }

  lemma {:induction false} PassesEmpty(cs: seq<char>)
    requires AllEscapeChars(cs)
    ensures Passes("", cs) == ""
    decreases |cs|
  {
    if |cs| > 0 {
      ReplaceAllEmpty(cs[0], Replacement(cs[0]));
      PassesEmpty(cs[1..]);
    }
  }

  lemma {:induction false} PassesPlain(p: string, t: string, cs: seq<char>)
    requires AllEscapeChars(cs) && NoBackslash(p)
    ensures Passes(p + t, cs) == p + Passes(t, cs)
    decreases |cs|
  {
    if |cs| > 0 {
      ReplaceAllPlain(p, t, cs[0], Replacement(cs[0]));
      PassesPlain(p, ReplaceAll(t, cs[0], Replacement(cs[0])), cs[1..]);
    }
  }

  lemma {:induction false} PassesEscape(d: char, t: string, cs: seq<char>)
    requires AllEscapeChars(cs) && IsEscapeChar(d)
    ensures d in cs ==> Passes([Backslash, d] + t, cs) == Replacement(d) + Passes(t, cs)
    ensures d !in cs ==> Passes([Backslash, d] + t, cs) == [Backslash, d] + Passes(t, cs)
    decreases |cs|
  {
    if |cs| > 0 {
      var c := cs[0];
      var t' := ReplaceAll(t, c, Replacement(c));
      var s := [Backslash, d] + t;
      if d == c {
        assert s[2..] == t;
        assert ReplaceAll(s, c, Replacement(c)) == Replacement(d) + t';
        PassesPlain(Replacement(d), t', cs[1..]);
      } else {
        assert s[1..] == [d] + t;
        ReplaceAllPlain([d], t, c, Replacement(c));
        assert ReplaceAll(s, c, Replacement(c)) == [Backslash] + ([d] + t');
        assert [Backslash] + ([d] + t') == [Backslash, d] + t';
        PassesEscape(d, t', cs[1..]);
      }
    }
  }

  lemma {:induction false} PassesBackslash(t: string, cs: seq<char>)
    requires AllEscapeChars(cs)
    requires |t| == 0 || !IsEscapeChar(t[0])
    ensures Passes([Backslash] + t, cs) == [Backslash] + Passes(t, cs)
    decreases |cs|
  {
    if |cs| > 0 {
      var c := cs[0];
      var rep := Replacement(c);
      ReplaceAllBackslash(t, c, rep);
      var t' := ReplaceAll(t, c, rep);
      if |t| > 0 {
        ReplaceAllHead(t, c, rep);
      } else {
        ReplaceAllEmpty(c, rep);
      }
      PassesBackslash(t', cs[1..]);
    }
  }

  /** The passes in any order of the four escape characters equal the single scan. */
  lemma {:induction false} PassesAreUnescape(s: string)
    ensures Passes(s, "[]()") == Unescape(s)
    decreases |s|
  {
    var cs := "[]()";
    if |s| == 0 {
      PassesEmpty(cs);
    } else if EscapeAt(s, 0) {
      assert s == [Backslash, s[1]] + s[2..];
      PassesEscape(s[1], s[2..], cs);
      PassesAreUnescape(s[2..]);
    } else if s[0] != Backslash {
      assert s == [s[0]] + s[1..];
      PassesPlain([s[0]], s[1..], cs);
      PassesAreUnescape(s[1..]);
    } else {
      assert s == [Backslash] + s[1..];
      PassesBackslash(s[1..], cs);
      PassesAreUnescape(s[1..]);
    }
  }

  /** `processMarkdown` rewrites each `\[` and `\]` to `$$` and each `\(` and
      `\)` to `$`, and copies every other character. */
  lemma ProcessMarkdownIsUnescape(s: string)
    ensures ProcessMarkdown(s) == Unescape(s)
  {
    ProcessMarkdownIsPasses(s);
    PassesAreUnescape(s);
  }

  // ---- properties of the rewrite ----

  lemma NoEscapesConcat(a: string, b: string)
    requires NoEscapes(a) && NoEscapes(b)
    requires |a| == 0 || |b| == 0 || a[|a| - 1] != Backslash || !IsEscapeChar(b[0])
    ensures NoEscapes(a + b)
  {
    var ab := a + b;
    forall i: nat
      ensures !EscapeAt(ab, i)
    {
      if i + 1 < |a| {
        assert !EscapeAt(a, i);
      } else if i >= |a| && i + 1 < |ab| {
        assert !EscapeAt(b, i - |a|);
      }
    }
  }

  lemma NoEscapesSuffix(s: string, k: nat)
    requires NoEscapes(s) && k <= |s|
    ensures NoEscapes(s[k..])
  {
    forall i: nat
      ensures !EscapeAt(s[k..], i)
    {
      assert !EscapeAt(s, i + k);
    }
  }

  lemma NoEscapesPrefix(s: string, k: nat)
    requires NoEscapes(s) && k <= |s|
    ensures NoEscapes(s[..k])
  {
    forall i: nat
      ensures !EscapeAt(s[..k], i)
    {
      assert !EscapeAt(s, i);
    }
  }

  /** The output of the rewrite holds none of the four escape pairs. */
  lemma {:induction false} UnescapeLeavesNoEscapes(s: string)
    ensures NoEscapes(Unescape(s))
    decreases |s|
  {
    if |s| == 0 {
    } else if EscapeAt(s, 0) {
      UnescapeLeavesNoEscapes(s[2..]);
      var head := Replacement(s[1]);
      assert NoEscapes(head) by {
        forall i: nat
          ensures !EscapeAt(head, i)
        {
        }
      }
      NoEscapesConcat(head, Unescape(s[2..]));
    } else {
      UnescapeLeavesNoEscapes(s[1..]);
      assert NoEscapes([s[0]]);
      NoEscapesConcat([s[0]], Unescape(s[1..]));
    }
  }

  /** Text already free of escapes passes through unchanged. */
  lemma {:induction false} UnescapeFixesClean(s: string)
    requires NoEscapes(s)
    ensures Unescape(s) == s
    decreases |s|
  {
    if |s| > 0 {
      assert !EscapeAt(s, 0);
      NoEscapesSuffix(s, 1);
      UnescapeFixesClean(s[1..]);
      assert s == [s[0]] + s[1..];
    }
  }

  /** `processMarkdown` removes every escape, never lengthens its input, and
      applying it twice equals applying it once. */
  lemma ProcessMarkdownProperties(s: string)
    ensures NoEscapes(ProcessMarkdown(s))
    ensures |ProcessMarkdown(s)| <= |s|
    ensures ProcessMarkdown(ProcessMarkdown(s)) == ProcessMarkdown(s)
  {
    ProcessMarkdownIsUnescape(s);
    UnescapeLeavesNoEscapes(s);
    var once := ProcessMarkdown(s);
    ProcessMarkdownIsUnescape(once);
    UnescapeFixesClean(once);
  }

  // ---- processSlice ----

  /** `processSlice(begin, end, text, transform)` with JavaScript `slice`. */
  function ProcessSlice(begin: int, end: int, text: string, transform: string -> string): string {
    JsSlice(text, 0, begin) + transform(JsSlice(text, begin, end)) + JsSlice(text, end, |text|)
  }

  /** For an in-bounds range only the middle is transformed; the two ends are
      kept, and the identity transform gives the text back. */
  lemma ProcessSliceSplices(begin: int, end: int, text: string, transform: string -> string)
    requires 0 <= begin <= end <= |text|
    ensures ProcessSlice(begin, end, text, transform) == text[..begin] + transform(text[begin..end]) + text[end..]
    ensures ProcessSlice(begin, end, text, x => x) == text
  {
    JsSliceInBounds(text, 0, begin);
    JsSliceInBounds(text, begin, end);
    JsSliceInBounds(text, end, |text|);
    assert text[..begin] + text[begin..end] + text[end..] == text;
  }

  /** A reversed range transforms the empty string and repeats text[end..begin]. */
  lemma ProcessSliceReversed(begin: int, end: int, text: string, transform: string -> string)
    requires 0 <= end < begin <= |text|
    ensures ProcessSlice(begin, end, text, transform) == text[..begin] + transform("") + text[end..]
  {
    JsSliceInBounds(text, 0, begin);
    JsSliceInBounds(text, begin, end);
    JsSliceInBounds(text, end, |text|);
  }

  // ---- readStream ----

  /** `Math.max(length - 2 * chunk.length, 0)`. */
  function WindowStart(length: nat, chunkLength: nat): nat {
    if length - 2 * chunkLength > 0 then length - 2 * chunkLength else 0
  }

  /** One iteration of `readStream`: append the chunk, then rewrite the
      trailing window of twice the chunk's length. */
  function StreamStep(acc: string, chunk: string): string {
    var grown := acc + chunk;
    ProcessSlice(WindowStart(|grown|, |chunk|), |grown|, grown, ProcessMarkdown)
  }

  /** The window starts inside the previous accumulation, text before it is
      carried over unchanged, and the window itself is unescaped. */
  lemma StreamStepShape(acc: string, chunk: string)
    ensures var w := WindowStart(|acc + chunk|, |chunk|);
            && w <= |acc|
            && |StreamStep(acc, chunk)| >= w
            && StreamStep(acc, chunk)[..w] == acc[..w]
            && StreamStep(acc, chunk) == (acc + chunk)[..w] + Unescape((acc + chunk)[w..])
  {
    var grown := acc + chunk;
    var w := WindowStart(|grown|, |chunk|);
    ProcessSliceSplices(w, |grown|, grown, ProcessMarkdown);
    ProcessMarkdownIsUnescape(grown[w..]);
    assert grown[w..|grown|] == grown[w..];
    assert grown[|grown|..] == "";
  }

  /** The window reaches back far enough that an escape split across the
      chunk boundary is rewritten: clean text stays clean. */
  lemma StreamStepKeepsClean(acc: string, chunk: string)
    requires NoEscapes(acc)
    ensures NoEscapes(StreamStep(acc, chunk))
  {
    var g := acc + chunk;
    var w := WindowStart(|g|, |chunk|);
    StreamStepShape(acc, chunk);
    var pre := g[..w];
    var tail := Unescape(g[w..]);
    assert pre == acc[..w];
    NoEscapesPrefix(acc, w);
    UnescapeLeavesNoEscapes(g[w..]);
    assert w == 0 || |tail| == 0 || !IsEscapeChar(tail[0]) || pre[w - 1] != Backslash by {
      if w > 0 && |tail| > 0 && IsEscapeChar(tail[0]) {
        assert tail[0] == g[w];
        assert w < |acc|;
        assert !EscapeAt(acc, w - 1);
      }
    }
    NoEscapesConcat(pre, tail);
  }

  /** The accumulation `readStream` holds before its i-th chunk. */
  function Before(emitted: seq<string>, i: nat): string
    requires i <= |emitted|
  {
    if i == 0 then "" else emitted[i - 1]
  }

  /** `emitted` is what `readStream` yields for `chunks`: one value per
      chunk, each the step applied to the previous one. */
  predicate Yields(emitted: seq<string>, chunks: seq<string>) {
    && |emitted| == |chunks|
    && forall i {:trigger chunks[i]} :: 0 <= i < |chunks| ==> emitted[i] == StreamStep(Before(emitted, i), chunks[i])
  }

  /** Every value `readStream` yields is free of the four escape pairs. */
  lemma {:induction false} YieldsClean(emitted: seq<string>, chunks: seq<string>, k: nat)
    requires Yields(emitted, chunks) && k <= |emitted|
    ensures forall i :: 0 <= i < k ==> NoEscapes(emitted[i])
    decreases k
  {
    if k > 0 {
      YieldsClean(emitted, chunks, k - 1);
      var prev := Before(emitted, k - 1);
      assert NoEscapes(prev) by {
        if k - 1 > 0 {
          assert prev == emitted[k - 2];
        } else {
          assert forall i: nat :: !EscapeAt(prev, i);
        }
      }
      assert emitted[k - 1] == StreamStep(prev, chunks[k - 1]);
      StreamStepKeepsClean(prev, chunks[k - 1]);
    }
  }

  /** `readStream` over already-decoded chunks: the values it yields. */
  method ReadStream(chunks: seq<string>) returns (emitted: seq<string>)
    ensures Yields(emitted, chunks)
    ensures forall i :: 0 <= i < |emitted| ==> NoEscapes(emitted[i])
  {
    var accumulated := "";
    emitted := [];
    var k := 0;
    while k < |chunks|
      invariant 0 <= k <= |chunks|
      invariant |emitted| == k
      invariant accumulated == Before(emitted, k)
      invariant Yields(emitted, chunks[..k])
    {
      var next := StreamStep(accumulated, chunks[k]);
      var grown := emitted + [next];
      forall i | 0 <= i < k + 1
        ensures grown[i] == StreamStep(Before(grown, i), chunks[..k + 1][i])
      {
        if i < k {
          assert grown[i] == emitted[i];
          assert Before(grown, i) == Before(emitted, i);
          assert chunks[..k + 1][i] == chunks[..k][i];
        }
      }
      emitted := grown;
      accumulated := next;
      k := k + 1;
    }
    assert chunks[..k] == chunks;
    YieldsClean(emitted, chunks, |emitted|);
  }
}
