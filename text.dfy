/** Text normalisation and tokenisation (`normalizar_texto`, `tokenizar`,
    `_tokenizar_normalizado` and the token pattern `[a-z0-9]+`). */
module TextNormalization {

  /** The character class of the token pattern: `[a-z0-9]`. */
  predicate IsTokenChar(c: char) {
    'a' <= c <= 'z' || '0' <= c <= '9'
  }

  predicate IsAsciiUpper(c: char) {
    'A' <= c <= 'Z'
  }

  /** A token: a non-empty run of token characters. */
  predicate IsToken(t: string) {
    |t| > 0 && forall i :: 0 <= i < |t| ==> IsTokenChar(t[i])
  }

  /** A separator: a stretch of text without any token character. */
  predicate IsGap(g: string) {
    forall i :: 0 <= i < |g| ==> !IsTokenChar(g[i])
  }

  /** Per-character normalisation, one character in, one character out:
      compatibility decomposition, removal of the combining marks, then lower
      case. For every character below U+0100 except the three vulgar
      fractions this is exactly what those three steps give
      (`FoldCharFollowsSteps`); from U+0100 on the character is kept. */
  function FoldChar(c: char): (d: char)
    ensures !IsAsciiUpper(d)
    ensures IsAsciiUpper(c) ==> d as int == c as int + 32
    ensures !IsAsciiUpper(c) && c < '\U{0080}' ==> d == c
  {
    if IsAsciiUpper(c) then (c as int + 32) as char
    else if c == '\U{00A0}' || c == '\U{00A8}' || c == '\U{00AF}' || c == '\U{00B4}' || c == '\U{00B8}' then ' '
    else if c == '\U{00B2}' then '2'
    else if c == '\U{00B3}' then '3'
    else if c == '\U{00B9}' then '1'
    else if c == '\U{00B5}' then '\U{03BC}'
    else if c == '\U{00AA}' || '\U{00C0}' <= c <= '\U{00C5}' || '\U{00E0}' <= c <= '\U{00E5}' then 'a'
    else if c == '\U{00C7}' || c == '\U{00E7}' then 'c'
    else if '\U{00C8}' <= c <= '\U{00CB}' || '\U{00E8}' <= c <= '\U{00EB}' then 'e'
    else if '\U{00CC}' <= c <= '\U{00CF}' || '\U{00EC}' <= c <= '\U{00EF}' then 'i'
    else if c == '\U{00D1}' || c == '\U{00F1}' then 'n'
    else if c == '\U{00BA}' || '\U{00D2}' <= c <= '\U{00D6}' || '\U{00F2}' <= c <= '\U{00F6}' then 'o'
    else if '\U{00D9}' <= c <= '\U{00DC}' || '\U{00F9}' <= c <= '\U{00FC}' then 'u'
    else if c == '\U{00DD}' || c == '\U{00FD}' || c == '\U{00FF}' then 'y'
    else if c == '\U{00C6}' || c == '\U{00D0}' || c == '\U{00D8}' || c == '\U{00DE}' then (c as int + 32) as char
    else c
  }

  /** `normalizar_texto`: accent stripping and lower case, character by character. */
  function Normalize(s: string): (r: string)
    ensures |r| == |s|
    ensures forall i :: 0 <= i < |r| ==> !IsAsciiUpper(r[i])
    ensures forall i :: 0 <= i < |s| && IsAsciiUpper(s[i]) ==> r[i] as int == s[i] as int + 32
    ensures forall i :: 0 <= i < |s| && s[i] < '\U{0080}' && !IsAsciiUpper(s[i]) ==> r[i] == s[i]
  {
    seq(|s|, i requires 0 <= i < |s| => FoldChar(s[i]))
  }

  /** Normalising a concatenation normalises each part. */
  lemma NormalizeConcat(a: string, b: string)
    ensures Normalize(a + b) == Normalize(a) + Normalize(b)
  {
    assert forall i :: 0 <= i < |a + b| ==> Normalize(a + b)[i] == (Normalize(a) + Normalize(b))[i];
  }

  /** Every string of a list normalised. */
  function NormalizeEach(xs: seq<string>): (ns: seq<string>)
    ensures |ns| == |xs|
    ensures forall i :: 0 <= i < |xs| ==> ns[i] == Normalize(xs[i])
  {
    seq(|xs|, i requires 0 <= i < |xs| => Normalize(xs[i]))
  }

  /** Length of the maximal run of token characters at the start of `s`. */
  function RunLength(s: string): (n: nat)
    ensures n <= |s|
    ensures forall i :: 0 <= i < n ==> IsTokenChar(s[i])
    ensures n < |s| ==> !IsTokenChar(s[n])
  {
    if s == [] || !IsTokenChar(s[0]) then 0 else 1 + RunLength(s[1..])
  }

  /** `_tokenizar_normalizado`: the maximal runs of `[a-z0-9]`, left to right,
      duplicates kept. */
  function Tokens(s: string): (ts: seq<string>)
    ensures forall k :: 0 <= k < |ts| ==> IsToken(ts[k])
    decreases |s|
  {
    if s == [] then []
    else if !IsTokenChar(s[0]) then Tokens(s[1..])
    else
      var n := RunLength(s);
      [s[..n]] + Tokens(s[n..])
  }

  /** `tokenizar`: normalise, then tokenise. */
  function Tokenize(text: string): (ts: seq<string>)
    ensures forall k :: 0 <= k < |ts| ==> IsToken(ts[k])
  {
    Tokens(Normalize(text))
  }

  /** The separators around the tokens of `s`: the stretch before the first
      token, the ones between tokens and the one after the last. */
  function Gaps(s: string): (gs: seq<string>)
    ensures |gs| == |Tokens(s)| + 1
    ensures gs[0] == [] <==> (s == [] || IsTokenChar(s[0]))
    decreases |s|
  {
    if s == [] then [[]]
    else if !IsTokenChar(s[0]) then
      var g := Gaps(s[1..]);
      [[s[0]] + g[0]] + g[1..]
    else
      [[]] + Gaps(s[RunLength(s)..])
  }

  /** Text laid out as gap, token, gap, token, ..., gap. */
  function Interleave(gaps: seq<string>, ts: seq<string>): string
    requires |gaps| == |ts| + 1
  {
    if ts == [] then gaps[0] else gaps[0] + ts[0] + Interleave(gaps[1..], ts[1..])
  }

  /** Every token is a token, every gap a gap, and tokens are separated by
      non-empty gaps, so each token is a maximal run. */
  predicate WellSeparated(gaps: seq<string>, ts: seq<string>) {
    && |gaps| == |ts| + 1
    && (forall k :: 0 <= k < |ts| ==> IsToken(ts[k]))
    && (forall k :: 0 <= k < |gaps| ==> IsGap(gaps[k]))
    && (forall k :: 0 < k < |ts| ==> gaps[k] != [])
  }

  /** Any text is its tokens laid out between its gaps. */
  lemma {:induction false} TokensDecompose(s: string)
    ensures WellSeparated(Gaps(s), Tokens(s))
    ensures Interleave(Gaps(s), Tokens(s)) == s
    decreases |s|
  {
    if s == [] {
    } else if !IsTokenChar(s[0]) {
      TokensDecompose(s[1..]);
      var g := Gaps(s[1..]);
      assert Gaps(s) == [[s[0]] + g[0]] + g[1..];
      assert Tokens(s) == Tokens(s[1..]);
      LayoutAfterGapChar(g, Tokens(s[1..]), s[0], s[1..], Gaps(s));
      assert s == [s[0]] + s[1..];
    } else {
      var n := RunLength(s);
      TokensDecompose(s[n..]);
      assert Gaps(s) == [[]] + Gaps(s[n..]);
      assert Tokens(s) == [s[..n]] + Tokens(s[n..]);
      assert Tokens(s[n..]) != [] ==> s[n..] != [] && Gaps(s[n..])[0] != [];
      LayoutAfterRun(Gaps(s[n..]), Tokens(s[n..]), s[..n], s[n..], Gaps(s), Tokens(s));
      assert s == s[..n] + s[n..];
    }
  }

  /** A separator character put before a layout joins its first gap. */
  lemma LayoutAfterGapChar(g: seq<string>, ts: seq<string>, c: char, rest: string, gs: seq<string>)
    requires WellSeparated(g, ts) && Interleave(g, ts) == rest
    requires !IsTokenChar(c) && gs == [[c] + g[0]] + g[1..]
    ensures WellSeparated(gs, ts)
    ensures Interleave(gs, ts) == [c] + rest
  {
    assert forall k :: 0 < k < |gs| ==> gs[k] == g[k];
    assert IsGap(gs[0]) by {
      assert forall i :: 0 < i < |gs[0]| ==> gs[0][i] == g[0][i - 1];
    }
    if ts != [] {
      assert gs[1..] == g[1..];
    }
  }

  /** A token put before a layout that starts with a gap (or is empty) is a
      new first token. */
  lemma LayoutAfterRun(g: seq<string>, ts: seq<string>, t: string, rest: string,
                       gs: seq<string>, ts': seq<string>)
    requires WellSeparated(g, ts) && Interleave(g, ts) == rest
    requires IsToken(t) && gs == [[]] + g && ts' == [t] + ts
    requires ts != [] ==> g[0] != []
    ensures WellSeparated(gs, ts')
    ensures Interleave(gs, ts') == t + rest
  {
    assert forall k :: 0 < k < |gs| ==> gs[k] == g[k - 1];
    assert forall k :: 0 < k < |ts'| ==> ts'[k] == ts[k - 1];
    assert gs[1..] == g && ts'[1..] == ts;
  }

  /** A leading gap produces no token. */
  lemma {:induction false} TokensSkipGap(g: string, rest: string)
    requires IsGap(g)
    ensures Tokens(g + rest) == Tokens(rest)
    decreases |g|
  {
    if g != [] {
      assert (g + rest)[0] == g[0] && (g + rest)[1..] == g[1..] + rest;
      TokensSkipGap(g[1..], rest);
    } else {
      assert g + rest == rest;
    }
  }

  /** A token followed by a non-token character (or by nothing) is a whole run. */
  lemma {:induction false} RunLengthOfToken(t: string, rest: string)
    requires IsToken(t) || t == []
    requires rest == [] || !IsTokenChar(rest[0])
    ensures RunLength(t + rest) == |t|
    decreases |t|
  {
    if t == [] {
    } else {
      assert (t + rest)[1..] == t[1..] + rest;
      RunLengthOfToken(t[1..], rest);
    }
  }

  /** Tokenising text laid out from well separated tokens gives back exactly
      those tokens: the converse of `TokensDecompose`. */
  lemma {:induction false} TokensOfInterleave(gaps: seq<string>, ts: seq<string>)
    requires WellSeparated(gaps, ts)
    ensures Tokens(Interleave(gaps, ts)) == ts
    decreases |ts|
  {
    if ts == [] {
      TokensSkipGap(gaps[0], []);
      assert gaps[0] + [] == gaps[0];
    } else {
      var t, y := ts[0], Interleave(gaps[1..], ts[1..]);
      assert WellSeparated(gaps[1..], ts[1..]);
      TokensOfInterleave(gaps[1..], ts[1..]);
      assert Interleave(gaps, ts) == gaps[0] + (t + y);
      TokensSkipGap(gaps[0], t + y);
      if |ts| > 1 {
        assert y == gaps[1] + ts[1] + Interleave(gaps[2..], ts[2..]);
        assert y[0] == gaps[1][0];
      } else {
        assert y == gaps[1];
      }
      RunLengthOfToken(t, y);
      assert (t + y)[..|t|] == t;
      assert (t + y)[|t|..] == y;
    }
  }

  /** A single token tokenises to itself. */
  lemma TokensOfToken(t: string)
    requires IsToken(t)
    ensures Tokens(t) == [t]
  {
    assert WellSeparated([[], []], [t]);
    TokensOfInterleave([[], []], [t]);
    assert Interleave([[], []], [t]) == t;
  }

  /** Text joined by a separator character tokenises to the tokens of each part. */
  lemma {:induction false} TokensOfSeparatedConcat(a: string, c: char, b: string)
    requires !IsTokenChar(c)
    ensures Tokens(a + [c] + b) == Tokens(a) + Tokens(b)
    decreases |a|
  {
    var s := a + [c] + b;
    if a == [] {
      assert s == [c] + b;
      TokensSkipGap([c], b);
    } else if !IsTokenChar(a[0]) {
      assert s[1..] == a[1..] + [c] + b;
      TokensOfSeparatedConcat(a[1..], c, b);
    } else {
      var n := RunLength(a);
      assert RunLength(s) == n by {
        RunLengthOfToken(a[..n], a[n..] + [c] + b);
        assert s == a[..n] + (a[n..] + [c] + b);
      }
      assert s[..n] == a[..n];
      assert s[n..] == a[n..] + [c] + b;
      TokensOfSeparatedConcat(a[n..], c, b);
    }
  }

  /** Normalising text laid out from gaps and words normalises each part. */
  lemma {:induction false} NormalizeInterleave(gaps: seq<string>, ws: seq<string>)
    requires |gaps| == |ws| + 1
    ensures Normalize(Interleave(gaps, ws)) == Interleave(NormalizeEach(gaps), NormalizeEach(ws))
    decreases |ws|
  {
    if ws != [] {
      NormalizeInterleave(gaps[1..], ws[1..]);
      assert NormalizeEach(gaps[1..]) == NormalizeEach(gaps)[1..];
      assert NormalizeEach(ws[1..]) == NormalizeEach(ws)[1..];
      NormalizeConcat(gaps[0] + ws[0], Interleave(gaps[1..], ws[1..]));
      NormalizeConcat(gaps[0], ws[0]);
    }
  }

  /** Every character of a laid-out text comes from one of its gaps or words. */
  lemma {:induction false} InterleaveChars(gaps: seq<string>, ws: seq<string>, c: char)
    requires |gaps| == |ws| + 1
    ensures c in Interleave(gaps, ws) ==>
              (exists k :: 0 <= k < |gaps| && c in gaps[k]) || (exists k :: 0 <= k < |ws| && c in ws[k])
    decreases |ws|
  {
    if ws != [] {
      InterleaveChars(gaps[1..], ws[1..], c);
      if c in Interleave(gaps[1..], ws[1..]) {
        if exists k :: 0 <= k < |gaps[1..]| && c in gaps[1..][k] {
          var k :| 0 <= k < |gaps[1..]| && c in gaps[1..][k];
          assert c in gaps[k + 1];
        } else {
          var k :| 0 <= k < |ws[1..]| && c in ws[1..][k];
          assert c in ws[k + 1];
        }
      }
    }
  }

  /** A laid-out text ends with the layout of any suffix of its words. */
  lemma {:induction false} InterleaveSuffix(gaps: seq<string>, ws: seq<string>, m: nat)
    requires |gaps| == |ws| + 1 && m <= |ws|
    ensures exists x :: Interleave(gaps, ws) == x + Interleave(gaps[m..], ws[m..])
    decreases m
  {
    if m == 0 {
      assert Interleave(gaps, ws) == [] + Interleave(gaps[0..], ws[0..]);
    } else {
      InterleaveSuffix(gaps[1..], ws[1..], m - 1);
      var x :| Interleave(gaps[1..], ws[1..]) == x + Interleave(gaps[1..][m - 1..], ws[1..][m - 1..]);
      assert gaps[1..][m - 1..] == gaps[m..] && ws[1..][m - 1..] == ws[m..];
      assert Interleave(gaps, ws) == (gaps[0] + ws[0] + x) + Interleave(gaps[m..], ws[m..]);
    }
  }

  /** The compatibility decomposition (NFKD) of a character below U+0100, as
      the Unicode character database gives it; every other character is
      returned as it is. */
  function Decompose(c: char): (s: string)
    ensures |s| >= 1
  {
    match c as int
    case 0x00A0 => " "
    case 0x00A8 => " \U{0308}"
    case 0x00AA => "a"
    case 0x00AF => " \U{0304}"
    case 0x00B2 => "2"
    case 0x00B3 => "3"
    case 0x00B4 => " \U{0301}"
    case 0x00B5 => "\U{03BC}"
    case 0x00B8 => " \U{0327}"
    case 0x00B9 => "1"
    case 0x00BA => "o"
    case 0x00BC => "1\U{2044}4"
    case 0x00BD => "1\U{2044}2"
    case 0x00BE => "3\U{2044}4"
    case 0x00C0 => "A\U{0300}"
    case 0x00C1 => "A\U{0301}"
    case 0x00C2 => "A\U{0302}"
    case 0x00C3 => "A\U{0303}"
    case 0x00C4 => "A\U{0308}"
    case 0x00C5 => "A\U{030A}"
    case 0x00C7 => "C\U{0327}"
    case 0x00C8 => "E\U{0300}"
    case 0x00C9 => "E\U{0301}"
    case 0x00CA => "E\U{0302}"
    case 0x00CB => "E\U{0308}"
    case 0x00CC => "I\U{0300}"
    case 0x00CD => "I\U{0301}"
    case 0x00CE => "I\U{0302}"
    case 0x00CF => "I\U{0308}"
    case 0x00D1 => "N\U{0303}"
    case 0x00D2 => "O\U{0300}"
    case 0x00D3 => "O\U{0301}"
    case 0x00D4 => "O\U{0302}"
    case 0x00D5 => "O\U{0303}"
    case 0x00D6 => "O\U{0308}"
    case 0x00D9 => "U\U{0300}"
    case 0x00DA => "U\U{0301}"
    case 0x00DB => "U\U{0302}"
    case 0x00DC => "U\U{0308}"
    case 0x00DD => "Y\U{0301}"
    case 0x00E0 => "a\U{0300}"
    case 0x00E1 => "a\U{0301}"
    case 0x00E2 => "a\U{0302}"
    case 0x00E3 => "a\U{0303}"
    case 0x00E4 => "a\U{0308}"
    case 0x00E5 => "a\U{030A}"
    case 0x00E7 => "c\U{0327}"
    case 0x00E8 => "e\U{0300}"
    case 0x00E9 => "e\U{0301}"
    case 0x00EA => "e\U{0302}"
    case 0x00EB => "e\U{0308}"
    case 0x00EC => "i\U{0300}"
    case 0x00ED => "i\U{0301}"
    case 0x00EE => "i\U{0302}"
    case 0x00EF => "i\U{0308}"
    case 0x00F1 => "n\U{0303}"
    case 0x00F2 => "o\U{0300}"
    case 0x00F3 => "o\U{0301}"
    case 0x00F4 => "o\U{0302}"
    case 0x00F5 => "o\U{0303}"
    case 0x00F6 => "o\U{0308}"
    case 0x00F9 => "u\U{0300}"
    case 0x00FA => "u\U{0301}"
    case 0x00FB => "u\U{0302}"
    case 0x00FC => "u\U{0308}"
    case 0x00FD => "y\U{0301}"
    case 0x00FF => "y\U{0308}"
    case _ => [c]
  }

  /** The compatibility decomposition of a string, character by character. */
  function DecomposeAll(s: string): string {
    if s == [] then [] else DecomposeAll(s[..|s| - 1]) + Decompose(s[|s| - 1])
  }

  /** A combining mark (`unicodedata.combining` non-zero) of the block
      U+0300..U+036F, which holds every mark the decompositions above produce.
      The combining grapheme joiner U+034F has combining class 0 and is not
      one. */
  predicate IsCombining(c: char) {
    '\U{0300}' <= c <= '\U{036F}' && c != '\U{034F}'
  }

  /** The string without its combining marks. */
  function StripMarks(s: string): (r: string)
    ensures forall i :: 0 <= i < |r| ==> !IsCombining(r[i])
  {
    if s == [] then []
    else StripMarks(s[..|s| - 1]) + (if IsCombining(s[|s| - 1]) then [] else [s[|s| - 1]])
  }

  /** `str.lower` on the characters below U+0100 and on those their
      decompositions produce: A-Z and U+00C0..U+00DE except U+00D7 move up by
      32, every other one is kept. */
  function LowerChar(c: char): char {
    if 'A' <= c <= 'Z' || ('\U{00C0}' <= c <= '\U{00DE}' && c != '\U{00D7}') then (c as int + 32) as char else c
  }

  function LowerAll(s: string): (r: string)
    ensures |r| == |s|
    ensures forall i :: 0 <= i < |s| ==> r[i] == LowerChar(s[i])
  {
    seq(|s|, i requires 0 <= i < |s| => LowerChar(s[i]))
  }

  /** `normalizar_texto` as its three steps: decompose, drop the combining
      marks, lower the case. */
  function NormalizeBySteps(s: string): string {
    LowerAll(StripMarks(DecomposeAll(s)))
  }

  /** The vulgar fractions U+00BC..U+00BE, which decompose into three
      characters. */
  predicate IsVulgarFraction(c: char) {
    '\U{00BC}' <= c <= '\U{00BE}'
  }

  /** The characters whose normalisation is one character: below U+0100 and
      not a vulgar fraction. */
  predicate FoldsToOneChar(c: char) {
    c < '\U{0100}' && !IsVulgarFraction(c)
  }

  /** Removing marks from a concatenation removes them from each part. */
  lemma {:induction false} StripMarksConcat(a: string, b: string)
    ensures StripMarks(a + b) == StripMarks(a) + StripMarks(b)
    decreases |b|
  {
    if b != [] {
      var b', x := b[..|b| - 1], b[|b| - 1];
      assert (a + b)[..|a + b| - 1] == a + b' && (a + b)[|a + b| - 1] == x;
      StripMarksConcat(a, b');
      var t := if IsCombining(x) then [] else [x];
      assert StripMarks(b) == StripMarks(b') + t;
      assert StripMarks(a + b) == (StripMarks(a) + StripMarks(b')) + t;
      assert (StripMarks(a) + StripMarks(b')) + t == StripMarks(a) + (StripMarks(b') + t);
    } else {
      assert a + b == a;
    }
  }

  /** Each of these characters decomposes into a base character, followed by
      at most one combining mark, and the base lowered is `FoldChar`'s result. */
  predicate IsBaseAndMark(c: char) {
    var d := Decompose(c);
    && !IsCombining(d[0]) && LowerChar(d[0]) == FoldChar(c)
    && (|d| == 1 || (|d| == 2 && IsCombining(d[1])))
  }

  lemma DecomposeBelowA0(c: char)
    requires c < '\U{00A0}'
    ensures IsBaseAndMark(c)
  {
  }

  lemma DecomposeA0ToBF(c: char)
    requires '\U{00A0}' <= c < '\U{00C0}' && !IsVulgarFraction(c)
    ensures IsBaseAndMark(c)
  {
  }

  lemma DecomposeC0ToCF(c: char)
    requires '\U{00C0}' <= c < '\U{00D0}'
    ensures IsBaseAndMark(c)
  {
  }

  lemma DecomposeD0ToDF(c: char)
    requires '\U{00D0}' <= c < '\U{00E0}'
    ensures IsBaseAndMark(c)
  {
  }

  lemma DecomposeE0ToEF(c: char)
    requires '\U{00E0}' <= c < '\U{00F0}'
    ensures IsBaseAndMark(c)
  {
  }

  lemma DecomposeF0ToFF(c: char)
    requires '\U{00F0}' <= c < '\U{0100}'
    ensures IsBaseAndMark(c)
  {
  }

  lemma DecomposeIsBaseAndMark(c: char)
    requires FoldsToOneChar(c)
    ensures IsBaseAndMark(c)
  {
    if c < '\U{00A0}' {
      DecomposeBelowA0(c);
    } else if c < '\U{00C0}' {
      DecomposeA0ToBF(c);
    } else if c < '\U{00D0}' {
      DecomposeC0ToCF(c);
    } else if c < '\U{00E0}' {
      DecomposeD0ToDF(c);
    } else if c < '\U{00F0}' {
      DecomposeE0ToEF(c);
    } else {
      DecomposeF0ToFF(c);
    }
  }

  /** A base character followed by at most one mark loses the mark. */
  lemma StripBaseAndMark(d: string)
    requires |d| >= 1 && !IsCombining(d[0])
    requires |d| == 1 || (|d| == 2 && IsCombining(d[1]))
    ensures StripMarks(d) == [d[0]]
  {
    assert d[..1] == [d[0]] && [d[0]][..0] == [];
    if |d| == 2 {
      assert d[..|d| - 1] == [d[0]];
    }
  }

  /** A one-character string decomposes as its character. */
  lemma DecomposeAllOne(c: char)
    ensures DecomposeAll([c]) == Decompose(c)
  {
    assert [c][..0] == [];
  }

  /** For every character that normalises to one character, `FoldChar` gives
      what decomposition, mark removal and lower case give. */
  lemma FoldCharFollowsSteps(c: char)
    requires FoldsToOneChar(c)
    ensures NormalizeBySteps([c]) == [FoldChar(c)]
  {
    DecomposeAllOne(c);
    DecomposeIsBaseAndMark(c);
    StripBaseAndMark(Decompose(c));
  }

  /** Mark removal and lower case applied to a concatenation. */
  lemma StripLowerConcat(x: string, d: string)
    ensures LowerAll(StripMarks(x + d)) == LowerAll(StripMarks(x)) + LowerAll(StripMarks(d))
  {
    StripMarksConcat(x, d);
    var u, v := StripMarks(x), StripMarks(d);
    assert LowerAll(u + v) == LowerAll(u) + LowerAll(v);
  }

  /** Decomposing text and one more character. */
  lemma DecomposeAllSnoc(p: string, c: char)
    ensures DecomposeAll(p + [c]) == DecomposeAll(p) + DecomposeAll([c])
  {
    assert (p + [c])[..|p + [c]| - 1] == p;
    DecomposeAllOne(c);
  }

  /** The three steps applied to text and one more character. */
  lemma NormalizeByStepsSnoc(p: string, c: char)
    ensures NormalizeBySteps(p + [c]) == NormalizeBySteps(p) + NormalizeBySteps([c])
  {
    DecomposeAllSnoc(p, c);
    StripLowerConcat(DecomposeAll(p), DecomposeAll([c]));
  }

  /** On text made of such characters, `Normalize` is exactly the three steps
      of `normalizar_texto`. */
  lemma {:induction false} NormalizeFollowsSteps(s: string)
    requires forall i :: 0 <= i < |s| ==> FoldsToOneChar(s[i])
    ensures Normalize(s) == NormalizeBySteps(s)
    decreases |s|
  {
    if s != [] {
      var p, c := s[..|s| - 1], s[|s| - 1];
      assert s == p + [c];
      NormalizeFollowsSteps(p);
      FoldCharFollowsSteps(c);
      NormalizeByStepsSnoc(p, c);
      NormalizeConcat(p, [c]);
    }
  }
}
