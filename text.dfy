/**
 * The string operations app.py relies on, written out: Python's whitespace set,
 * `str.strip()`, `str.split()` without arguments, `" ".join`, `in` on strings,
 * `str.replace(pat, "")`, `str.lower()`/`str.upper()`/`str.title()` (ASCII letters only)
 * and `str.split(",")[0]`.
 */
module Text {
  import Sequences

  /** The characters for which Python's `str.isspace()` holds. */
  predicate IsSpace(c: char) {
    var n := c as int;
    (9 <= n <= 13) || (28 <= n <= 32) || n == 0x85 || n == 0xA0 || n == 0x1680
    || (0x2000 <= n <= 0x200A) || n == 0x2028 || n == 0x2029 || n == 0x202F
    || n == 0x205F || n == 0x3000
  }

  predicate IsDigit(c: char) { '0' <= c <= '9' }

  predicate IsUpper(c: char) { 'A' <= c <= 'Z' }

  predicate IsLower(c: char) { 'a' <= c <= 'z' }

  predicate IsLetter(c: char) { IsUpper(c) || IsLower(c) }

  function LowerChar(c: char): char {
    if IsUpper(c) then (c as int + 32) as char else c
  }

  function UpperChar(c: char): char {
    if IsLower(c) then (c as int - 32) as char else c
  }

  /** `s.lower()` */
  function Lower(s: string): string {
    seq(|s|, i requires 0 <= i < |s| => LowerChar(s[i]))
  }

  /** `s.upper()` */
  function Upper(s: string): string {
    seq(|s|, i requires 0 <= i < |s| => UpperChar(s[i]))
  }

  /** Leading whitespace removed (`s.lstrip()`). */
  function TrimStart(s: string): (r: string)
    ensures |r| <= |s| && r == s[|s| - |r|..]
    ensures r == [] || !IsSpace(r[0])
    ensures forall i :: 0 <= i < |s| - |r| ==> IsSpace(s[i])
  {
    if s != [] && IsSpace(s[0]) then TrimStart(s[1..]) else s
  }

  /** Trailing whitespace removed (`s.rstrip()`). */
  function TrimEnd(s: string): (r: string)
    ensures |r| <= |s| && r == s[..|r|]
    ensures r == [] || !IsSpace(r[|r| - 1])
    ensures forall i :: |r| <= i < |s| ==> IsSpace(s[i])
  {
    if s != [] && IsSpace(s[|s| - 1]) then TrimEnd(s[..|s| - 1]) else s
  }

  /** `s.strip()`: empty exactly when `s` is all whitespace, never starts or ends with
      whitespace, and leaves an already stripped string alone. */
  function Strip(s: string): (r: string)
    ensures |r| <= |s|
    ensures r == [] <==> forall i :: 0 <= i < |s| ==> IsSpace(s[i])
    ensures r == [] || (!IsSpace(r[0]) && !IsSpace(r[|r| - 1]))
    ensures s != [] && !IsSpace(s[0]) && !IsSpace(s[|s| - 1]) ==> r == s
  {
    var t := TrimStart(s);
    var r := TrimEnd(t);
    assert r == [] ==> t == [];
    r
  }

  /** `r` is the slice of `s` starting at `i`, and everything outside it is whitespace. */
  predicate StrippedAt(s: string, r: string, i: nat) {
    i + |r| <= |s| && s[i..i + |r|] == r
    && (forall k :: 0 <= k < i ==> IsSpace(s[k]))
    && (forall k :: i + |r| <= k < |s| ==> IsSpace(s[k]))
  }

  /** `strip()` keeps a slice of its input and removes only whitespace around it. */
  lemma StripSpec(s: string)
    ensures exists i: nat :: StrippedAt(s, Strip(s), i)
  {
    var t := TrimStart(s);
    var r := TrimEnd(t);
    var i := |s| - |t|;
    assert t == s[i..];
    assert r == t[..|r|];
    Sequences.SliceOfSuffix(s, i, |r|);
    assert s[i..i + |r|] == r;
    assert forall k :: 0 <= k < i ==> IsSpace(s[k]);
    assert forall k :: i + |r| <= k < |s| ==> s[k] == t[k - i];
    assert StrippedAt(s, r, i);
    StripIsTrims(s);
  }

  lemma StripIsTrims(s: string)
    ensures Strip(s) == TrimEnd(TrimStart(s))
  {
  }

  /** A token of `str.split()`: non-empty and free of whitespace. */
  predicate IsWord(w: string) {
    w != [] && forall i :: 0 <= i < |w| ==> !IsSpace(w[i])
  }

  /** Every element is a token of `str.split()`. */
  predicate AllWords(ws: seq<string>) {
    ws == [] || (IsWord(ws[0]) && AllWords(ws[1..]))
  }

  /** Length of the leading run of non-whitespace characters. */
  function WordEnd(t: string): (n: nat)
    ensures n <= |t|
    ensures forall i :: 0 <= i < n ==> !IsSpace(t[i])
    ensures n == |t| || IsSpace(t[n])
  {
    if t == [] || IsSpace(t[0]) then 0 else 1 + WordEnd(t[1..])
  }

  /** `s.split()`: the maximal runs of non-whitespace characters, in order. */
  function Words(s: string): (ws: seq<string>)
    ensures AllWords(ws)
    decreases |s|
  {
    var t := TrimStart(s);
    if t == [] then []
    else
      var n := WordEnd(t);
      var ws := [t[..n]] + Words(t[n..]);
      assert ws[1..] == Words(t[n..]);
      ws
  }

  /** `" ".join(ws)` */
  function Join(ws: seq<string>): string {
    if ws == [] then ""
    else if |ws| == 1 then ws[0]
    else ws[0] + " " + Join(ws[1..])
  }

  /** `" ".join(s.split())`: internal whitespace runs collapsed to one space, ends trimmed. */
  function Collapse(s: string): string {
    Join(Words(s))
  }

  lemma WordsOfSpacePrefixed(r: string)
    ensures Words(" " + r) == Words(r)
  {
    Sequences.ConcatTail(" ", r);
    assert TrimStart(" " + r) == TrimStart(r);
  }

  lemma {:induction false} JoinEnds(ws: seq<string>)
    requires ws != []
    requires AllWords(ws)
    ensures |Join(ws)| >= |ws[0]| && Join(ws)[..|ws[0]|] == ws[0]
    ensures Join(ws) != [] && !IsSpace(Join(ws)[0]) && !IsSpace(Join(ws)[|Join(ws)| - 1])
  {
    assert IsWord(ws[0]);
    if |ws| > 1 {
      JoinEnds(ws[1..]);
    }
  }

  /** Splitting a single-space join of words gives the words back. */
  lemma {:induction false} WordsOfJoin(ws: seq<string>)
    requires AllWords(ws)
    ensures Words(Join(ws)) == ws
  {
    if |ws| == 1 {
      WordsOfWord(ws[0]);
    } else if |ws| > 1 {
      WordsOfWordThen(ws[0], Join(ws[1..]));
      WordsOfJoin(ws[1..]);
      assert ws == [ws[0]] + ws[1..];
    }
  }

  /** A word alone splits into itself. */
  lemma WordsOfWord(w: string)
    requires IsWord(w)
    ensures Words(w) == [w]
  {
    assert TrimStart(w) == w;
    assert WordEnd(w) == |w|;
    assert w[..|w|] == w && w[|w|..] == [];
  }

  /** A word followed by a space splits off as the first token. */
  lemma WordsOfWordThen(w: string, r: string)
    requires IsWord(w)
    ensures Words(w + " " + r) == [w] + Words(r)
  {
    var j := w + " " + r;
    assert TrimStart(j) == j by { assert j[0] == w[0]; }
    assert WordEnd(j) == |w| by {
      assert j[|w|] == ' ';
      assert forall i :: 0 <= i < |w| ==> j[i] == w[i];
    }
    assert j[..|w|] == w;
    assert j[|w|..] == " " + r;
    WordsOfSpacePrefixed(r);
  }

  /** A single-space join of words has no whitespace at either end. */
  lemma StripOfJoin(ws: seq<string>)
    requires ws != []
    requires AllWords(ws)
    ensures Strip(Join(ws)) == Join(ws)
  {
    JoinEnds(ws);
    var j := Join(ws);
    assert TrimStart(j) == j;
    assert TrimEnd(j) == j;
  }

  /** The characters of `s` that are not whitespace, in order. */
  function NonSpace(s: string): string {
    if s == [] then [] else (if IsSpace(s[0]) then [] else [s[0]]) + NonSpace(s[1..])
  }

  /** The words concatenated. */
  function Concat(ws: seq<string>): string {
    if ws == [] then [] else ws[0] + Concat(ws[1..])
  }

  lemma {:induction false} NonSpaceConcat(a: string, b: string)
    ensures NonSpace(a + b) == NonSpace(a) + NonSpace(b)
  {
    if a != [] {
      NonSpaceConcat(a[1..], b);
      Sequences.ConcatTail(a, b);
      var h := if IsSpace(a[0]) then [] else [a[0]];
      assert NonSpace(a + b) == h + NonSpace(a[1..] + b);
      assert NonSpace(a) == h + NonSpace(a[1..]);
      Sequences.ConcatAssoc(h, NonSpace(a[1..]), NonSpace(b));
    } else {
      assert a + b == b;
    }
  }

  lemma {:induction false} NonSpaceOfWord(w: string)
    requires forall i :: 0 <= i < |w| ==> !IsSpace(w[i])
    ensures NonSpace(w) == w
  {
    if w != [] {
      NonSpaceOfWord(w[1..]);
      assert w == [w[0]] + w[1..];
    }
  }

  lemma {:induction false} NonSpaceOfSpaces(w: string)
    requires forall i :: 0 <= i < |w| ==> IsSpace(w[i])
    ensures NonSpace(w) == []
  {
    if w != [] {
      NonSpaceOfSpaces(w[1..]);
    }
  }

  /** `split()` loses exactly the whitespace: its words, concatenated, are the characters
      of `s` that are not whitespace, in order; it gives no word exactly when `s` is all
      whitespace. */
  lemma {:induction false} WordsSpec(s: string)
    ensures Concat(Words(s)) == NonSpace(s)
    ensures Words(s) == [] <==> forall i :: 0 <= i < |s| ==> IsSpace(s[i])
    decreases |s|
  {
    var t := TrimStart(s);
    var i := |s| - |t|;
    Sequences.SplitAt(s, i);
    NonSpaceConcat(s[..i], t);
    NonSpaceOfSpaces(s[..i]);
    assert NonSpace(s) == NonSpace(t);
    if t != [] {
      var n := WordEnd(t);
      WordsSpec(t[n..]);
      WordsStep(s, t, n);
      assert Concat(Words(s)) == t[..n] + NonSpace(t[n..]);
      assert !IsSpace(s[i]);
    } else {
      assert Words(s) == [];
    }
  }

  /** Every character of `g` is whitespace. */
  predicate IsSpaces(g: string) {
    forall i :: 0 <= i < |g| ==> IsSpace(g[i])
  }

  /** `gaps[0] + ws[0] + gaps[1] + ws[1] + … + gaps[|ws|]`. */
  function Interleave(gaps: seq<string>, ws: seq<string>): (r: string)
    requires |gaps| == |ws| + 1
    ensures |r| >= |gaps[0]|
    decreases |ws|
  {
    if ws == [] then gaps[0] else gaps[0] + ws[0] + Interleave(gaps[1..], ws[1..])
  }

  /** `s` is its words with whitespace gaps around them, and the gaps between two words
      are not empty: each word of `split()` is a maximal run of non-whitespace. */
  lemma {:induction false} WordsLayout(s: string) returns (gaps: seq<string>)
    ensures |gaps| == |Words(s)| + 1
    ensures forall k :: 0 <= k < |gaps| ==> IsSpaces(gaps[k])
    ensures forall k :: 0 < k < |gaps| - 1 ==> gaps[k] != []
    ensures s == Interleave(gaps, Words(s))
    decreases |s|
  {
    var t := TrimStart(s);
    var g0 := s[..|s| - |t|];
    LeadingGap(s, t);
    if t == [] {
      gaps := [g0];
    } else {
      var n := WordEnd(t);
      var w0, u := t[..n], t[n..];
      var ws, wu := Words(s), Words(u);
      assert ws == [w0] + wu;
      var gu := WordsLayout(u);
      Sequences.SplitAt(t, n);
      gaps := LayoutCons(s, g0, w0, u, wu, ws, gu);
    }
  }

  /** What `TrimStart` drops is a whitespace gap. */
  lemma LeadingGap(s: string, t: string)
    requires |t| <= |s| && t == s[|s| - |t|..]
    requires forall i :: 0 <= i < |s| - |t| ==> IsSpace(s[i])
    requires t == [] || !IsSpace(t[0])
    ensures s == s[..|s| - |t|] + t && IsSpaces(s[..|s| - |t|])
  {
    Sequences.SplitAt(s, |s| - |t|);
  }

  /** The layout of `g0 + w0 + u` from the layout of `u`. */
  lemma LayoutCons(s: string, g0: string, w0: string, u: string, wu: seq<string>, ws: seq<string>,
                   gu: seq<string>) returns (gaps: seq<string>)
    requires s == g0 + (w0 + u) && IsSpaces(g0) && (u != [] ==> IsSpace(u[0]))
    requires ws == [w0] + wu && AllWords(wu)
    requires |gu| == |wu| + 1 && u == Interleave(gu, wu)
    requires forall k :: 0 <= k < |gu| ==> IsSpaces(gu[k])
    requires forall k :: 0 < k < |gu| - 1 ==> gu[k] != []
    ensures gaps == [g0] + gu && |gaps| == |ws| + 1
    ensures forall k :: 0 <= k < |gaps| ==> IsSpaces(gaps[k])
    ensures forall k :: 0 < k < |gaps| - 1 ==> gaps[k] != []
    ensures s == Interleave(gaps, ws)
  {
    gaps := [g0] + gu;
    assert ws[0] == w0 && ws[1..] == wu;
    assert gaps[0] == g0 && gaps[1..] == gu;
    Sequences.ConcatAssoc(g0, w0, u);
    if wu != [] {
      InterleaveStart(gu, wu);
    }
    GapsCons(g0, gu);
  }

  /** Text laid out with a word in it is not empty, and it starts with whitespace only
      when its first gap is not empty. */
  lemma InterleaveStart(gaps: seq<string>, ws: seq<string>)
    requires |gaps| == |ws| + 1 && ws != [] && IsWord(ws[0])
    ensures Interleave(gaps, ws) != []
    ensures IsSpace(Interleave(gaps, ws)[0]) ==> gaps[0] != []
  {
    var r := Interleave(gaps, ws);
    assert r == gaps[0] + ws[0] + Interleave(gaps[1..], ws[1..]);
    if gaps[0] == [] {
      assert r[0] == ws[0][0];
    }
  }

  /** A whitespace gap put in front of whitespace gaps whose interior ones are non-empty. */
  lemma GapsCons(g0: string, gu: seq<string>)
    requires IsSpaces(g0) && forall k :: 0 <= k < |gu| ==> IsSpaces(gu[k])
    requires forall k :: 0 < k < |gu| - 1 ==> gu[k] != []
    requires |gu| > 1 ==> gu[0] != []
    ensures forall k :: 0 <= k < |[g0] + gu| ==> IsSpaces(([g0] + gu)[k])
    ensures forall k :: 0 < k < |[g0] + gu| - 1 ==> ([g0] + gu)[k] != []
  {
    forall k | 0 <= k < |[g0] + gu| ensures IsSpaces(([g0] + gu)[k]) {
      if k > 0 {
        assert ([g0] + gu)[k] == gu[k - 1];
      }
    }
  }

  /** One word of `split()`: the leading non-whitespace run of the trimmed string. */
  lemma WordsStep(s: string, t: string, n: nat)
    requires t == TrimStart(s) && t != [] && n == WordEnd(t)
    ensures Words(s) == [t[..n]] + Words(t[n..])
    ensures NonSpace(t) == t[..n] + NonSpace(t[n..])
    ensures Concat(Words(s)) == t[..n] + Concat(Words(t[n..]))
  {
    Sequences.SplitAt(t, n);
    NonSpaceConcat(t[..n], t[n..]);
    NonSpaceOfWord(t[..n]);
    var ws := Words(s);
    assert ws[0] == t[..n] && ws[1..] == Words(t[n..]);
  }

  /** Collapsing twice is collapsing once. */
  lemma CollapseIdempotent(s: string)
    ensures Collapse(Collapse(s)) == Collapse(s)
  {
    WordsOfJoin(Words(s));
  }

  /** `sub` occurs in `s` starting at index `i`. */
  predicate OccursAt(s: string, sub: string, i: nat) {
    i + |sub| <= |s| && s[i..i + |sub|] == sub
  }

  /** `sub in s` */
  function Contains(s: string, sub: string): bool
    decreases |s|
  {
    if sub <= s then true
    else if s == [] then false
    else Contains(s[1..], sub)
  }

  /** `Contains` finds an occurrence exactly when there is one. */
  lemma {:induction false} ContainsSpec(s: string, sub: string)
    ensures Contains(s, sub) <==> exists i: nat :: OccursAt(s, sub, i)
    decreases |s|
  {
    if sub <= s {
      assert OccursAt(s, sub, 0);
    } else if s == [] {
      assert forall i: nat :: !OccursAt(s, sub, i);
    } else {
      ContainsSpec(s[1..], sub);
      var b := Contains(s[1..], sub);
      assert forall i: nat :: OccursAt(s[1..], sub, i) <==> OccursAt(s, sub, i + 1) by {
        forall i: nat ensures OccursAt(s[1..], sub, i) <==> OccursAt(s, sub, i + 1) {
          if i + 1 + |sub| <= |s| { assert s[1..][i..i + |sub|] == s[i + 1..i + 1 + |sub|]; }
        }
      }
      assert !OccursAt(s, sub, 0);
      assert b ==> exists i: nat :: OccursAt(s, sub, i) by {
        if b { var i: nat :| OccursAt(s[1..], sub, i); assert OccursAt(s, sub, i + 1); }
      }
      assert (exists i: nat :: OccursAt(s, sub, i)) ==> b by {
        if exists i: nat :: OccursAt(s, sub, i) {
          var i: nat :| OccursAt(s, sub, i);
          assert i > 0;
          assert OccursAt(s[1..], sub, i - 1);
        }
      }
    }
  }

  /** `s.replace(pat, "")`: occurrences removed left to right, without overlap. */
  function RemoveAll(s: string, pat: string): (r: string)
    requires pat != []
    ensures |r| <= |s|
    ensures !Contains(s, pat) ==> r == s
    decreases |s|
  {
    if s == [] then []
    else if pat <= s then
      assert s[0..|pat|] == pat;
      RemoveAll(s[|pat|..], pat)
    else
      assert !Contains(s, pat) ==> !Contains(s[1..], pat) by {
        ContainsSpec(s, pat);
        ContainsSpec(s[1..], pat);
        if Contains(s[1..], pat) {
          var i: nat :| OccursAt(s[1..], pat, i);
          assert s[i + 1..i + 1 + |pat|] == s[1..][i..i + |pat|];
          assert OccursAt(s, pat, i + 1);
        }
      }
      [s[0]] + RemoveAll(s[1..], pat)
  }

  /** `replace` leaves a string without the pattern alone, never lengthens it, and removes
      at least the first occurrence when there is one. */
  lemma {:induction false} RemoveAllSpec(s: string, pat: string)
    requires pat != []
    ensures |RemoveAll(s, pat)| <= |s|
    ensures !Contains(s, pat) ==> RemoveAll(s, pat) == s
    ensures Contains(s, pat) ==> |RemoveAll(s, pat)| + |pat| <= |s|
    decreases |s|
  {
    if s != [] && !(pat <= s) {
      RemoveAllSpec(s[1..], pat);
    }
  }

  /** `replace` works left to right: when the first occurrence of `pat` in `a + pat + b`
      starts right after `a`, the prefix `a` is kept, that occurrence is removed, and the
      rest is `b` with its own occurrences removed. */
  lemma {:induction false} RemoveAllStep(a: string, pat: string, b: string)
    requires pat != []
    requires forall i :: 0 <= i < |a| ==> !OccursAt(a + pat + b, pat, i)
    ensures RemoveAll(a + pat + b, pat) == a + RemoveAll(b, pat)
    decreases |a|
  {
    var s := a + pat + b;
    if a == [] {
      assert s == pat + b;
      assert s[..|pat|] == pat && s[|pat|..] == b;
    } else {
      assert !OccursAt(s, pat, 0);
      NoEarlierOccurrenceInTail(a, pat, b);
      RemoveAllStep(a[1..], pat, b);
      var r := RemoveAll(a[1..] + pat + b, pat);
      assert RemoveAll(s, pat) == [a[0]] + r;
      Sequences.ConcatAssoc([a[0]], a[1..], RemoveAll(b, pat));
      assert a == [a[0]] + a[1..];
    }
  }

  /** Dropping the first character of `a` keeps the first occurrence after it. */
  lemma NoEarlierOccurrenceInTail(a: string, pat: string, b: string)
    requires a != []
    requires forall i :: 0 <= i < |a| ==> !OccursAt(a + pat + b, pat, i)
    ensures (a + pat + b)[1..] == a[1..] + pat + b
    ensures forall i :: 0 <= i < |a| - 1 ==> !OccursAt(a[1..] + pat + b, pat, i)
  {
    var s := a + pat + b;
    Sequences.ConcatAssoc(a, pat, b);
    Sequences.ConcatTail(a, pat + b);
    Sequences.ConcatAssoc(a[1..], pat, b);
    forall i | 0 <= i < |a| - 1 ensures !OccursAt(a[1..] + pat + b, pat, i) {
      assert !OccursAt(s, pat, i + 1);
      OccursInTail(s, pat, i);
    }
  }

  /** An occurrence in `s[1..]` is an occurrence in `s` one place later. */
  lemma OccursInTail(s: string, pat: string, i: nat)
    requires s != []
    ensures OccursAt(s[1..], pat, i) == OccursAt(s, pat, i + 1)
  {
    if i + 1 + |pat| <= |s| {
      assert s[1..][i..i + |pat|] == s[i + 1..i + 1 + |pat|];
    }
  }

  /** Python's `str.title()` on ASCII letters: a letter is upper-cased when the character
      before it is not a letter, lower-cased otherwise; other characters are kept. */
  function Title(s: string): string {
    TitleFrom(s, false)
  }

  function TitleFrom(s: string, afterLetter: bool): (r: string)
    ensures |r| == |s|
  {
    if s == [] then []
    else
      var c := s[0];
      var c' := if !IsLetter(c) then c else if afterLetter then LowerChar(c) else UpperChar(c);
      [c'] + TitleFrom(s[1..], IsLetter(c))
  }

  /** Title-casing changes letter case only. */
  lemma {:induction false} LowerOfTitleFrom(s: string, afterLetter: bool)
    ensures Lower(TitleFrom(s, afterLetter)) == Lower(s)
  {
    if s != [] {
      LowerOfTitleFrom(s[1..], IsLetter(s[0]));
      var t := TitleFrom(s, afterLetter);
      assert t[1..] == TitleFrom(s[1..], IsLetter(s[0]));
      assert forall i :: 1 <= i < |s| ==> Lower(t)[i] == Lower(t[1..])[i - 1];
      assert forall i :: 1 <= i < |s| ==> Lower(s)[i] == Lower(s[1..])[i - 1];
    }
  }

  lemma LowerOfTitle(s: string)
    ensures |Title(s)| == |s|
    ensures Lower(Title(s)) == Lower(s)
  {
    LowerOfTitleFrom(s, false);
  }

  lemma {:induction false} TitleFromIdempotent(s: string, afterLetter: bool)
    ensures TitleFrom(TitleFrom(s, afterLetter), afterLetter) == TitleFrom(s, afterLetter)
  {
    if s != [] {
      TitleFromIdempotent(s[1..], IsLetter(s[0]));
      var t := TitleFrom(s, afterLetter);
      assert t[1..] == TitleFrom(s[1..], IsLetter(s[0]));
      assert IsLetter(t[0]) == IsLetter(s[0]);
    }
  }

  /** Title-casing a title-cased string changes nothing. */
  lemma TitleIdempotent(s: string)
    ensures Title(Title(s)) == Title(s)
  {
    TitleFromIdempotent(s, false);
  }

  /** `s.split(",")[0]`: everything before the first comma. */
  function BeforeComma(s: string): (r: string)
    ensures r <= s
    ensures ',' !in r
    ensures r == s || s[|r|] == ','
  {
    if s == [] || s[0] == ',' then [] else [s[0]] + BeforeComma(s[1..])
  }

  /** `s.rstrip('.')` */
  function TrimDots(s: string): string {
    if s != [] && s[|s| - 1] == '.' then TrimDots(s[..|s| - 1]) else s
  }

  /** `TrimDots` removes exactly the trailing run of dots: what is left is a prefix that
      does not end in a dot, and everything after it is a dot. */
  lemma {:induction false} TrimDotsSpec(s: string)
    ensures TrimDots(s) <= s
    ensures TrimDots(s) == [] || TrimDots(s)[|TrimDots(s)| - 1] != '.'
    ensures forall i :: |TrimDots(s)| <= i < |s| ==> s[i] == '.'
  {
    if s != [] && s[|s| - 1] == '.' {
      TrimDotsSpec(s[..|s| - 1]);
    }
  }

  /** `any(ch.isdigit() for ch in s)` */
  predicate HasDigit(s: string) {
    exists i :: 0 <= i < |s| && IsDigit(s[i])
  }
}
