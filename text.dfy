/** The selected-text normalisation of the context-menu handler:
    trim, then replace every run of whitespace with one hyphen. */
module Text {

  /** JavaScript's `\s` class, which is also the set `String.prototype.trim`
      strips: the WhiteSpace and LineTerminator code points of ECMAScript. */
  predicate IsSpace(c: char) {
    var n := c as int;
    n == 0x09 || n == 0x0A || n == 0x0B || n == 0x0C || n == 0x0D || n == 0x20 ||
    n == 0xA0 || n == 0x1680 || (0x2000 <= n <= 0x200A) || n == 0x2028 ||
    n == 0x2029 || n == 0x202F || n == 0x205F || n == 0x3000 || n == 0xFEFF
  }

  predicate NoSpace(s: string) {
    forall i :: 0 <= i < |s| ==> !IsSpace(s[i])
  }

  predicate AllSpace(s: string) {
    forall i :: 0 <= i < |s| ==> IsSpace(s[i])
  }

  /** No two hyphens next to each other. */
  predicate NoDoubleHyphen(s: string) {
    forall i :: 0 <= i < |s| - 1 ==> s[i] == '-' ==> s[i + 1] != '-'
  }

  /** Leading whitespace removed: the longest suffix that does not start with whitespace. */
  function TrimStart(s: string): (r: string)
    ensures |r| <= |s| && r == s[|s| - |r|..]
    ensures forall i :: 0 <= i < |s| - |r| ==> IsSpace(s[i])
    ensures r == [] || !IsSpace(r[0])
  {
    if s != [] && IsSpace(s[0]) then TrimStart(s[1..]) else s
  }

  /** Trailing whitespace removed: the longest prefix that does not end with whitespace. */
  function TrimEnd(s: string): (r: string)
    ensures |r| <= |s| && r == s[..|r|]
    ensures forall i :: |r| <= i < |s| ==> IsSpace(s[i])
    ensures r == [] || !IsSpace(r[|r| - 1])
  {
    if s != [] && IsSpace(s[|s| - 1]) then TrimEnd(s[..|s| - 1]) else s
  }

  /** `String.prototype.trim`. */
  function Trim(s: string): (r: string)
    ensures r == [] || (!IsSpace(r[0]) && !IsSpace(r[|r| - 1]))
  {
    var t := TrimStart(s);
    var r := TrimEnd(t);
    assert r == [] || r[0] == t[0];
    r
  }

  /** `r` is the piece of `s` starting at `i`, with only whitespace around it. */
  predicate IsMiddleOf(s: string, r: string, i: int) {
    0 <= i <= |s| - |r| && r == s[i..i + |r|] && AllSpace(s[..i]) && AllSpace(s[i + |r|..])
  }

  lemma MiddleOfSlices(s: string, k: nat, t: string, r: string)
    requires k <= |s| && t == s[k..] && |r| <= |t| && r == t[..|r|]
    requires forall j :: 0 <= j < k ==> IsSpace(s[j])
    requires forall j :: |r| <= j < |t| ==> IsSpace(t[j])
    ensures IsMiddleOf(s, r, k)
  {
    assert r == s[k..k + |r|];
    assert s[k + |r|..] == t[|r|..];
  }

  /** `trim` keeps one contiguous piece of its input and drops only
      whitespace on either side of it. */
  lemma TrimKeepsMiddle(s: string)
    ensures exists i :: IsMiddleOf(s, Trim(s), i)
  {
    var t := TrimStart(s);
    MiddleOfSlices(s, |s| - |t|, t, TrimEnd(t));
    assert IsMiddleOf(s, Trim(s), |s| - |t|);
  }

  /** `replace(/\s+/g, '-')`: every maximal run of whitespace becomes one hyphen. */
  function CollapseSpaces(s: string): (r: string)
    ensures NoSpace(r)
    decreases |s|
  {
    if s == [] then []
    else if IsSpace(s[0]) then "-" + CollapseSpaces(TrimStart(s))
    else [s[0]] + CollapseSpaces(s[1..])
  }

  /** The path segment built from the selection (background.js:9). */
  function Normalize(selection: string): (r: string)
    ensures NoSpace(r)
  {
    CollapseSpaces(Trim(selection))
  }

  // ---------------------------------------------------------------------
  // An independent description of the result: the words of the input,
  // joined by hyphens.

  /** The longest prefix without whitespace. */
  function Word(s: string): (w: string)
    ensures |w| <= |s| && w == s[..|w|] && NoSpace(w)
    ensures |w| < |s| ==> IsSpace(s[|w|])
  {
    if s == [] || IsSpace(s[0]) then [] else [s[0]] + Word(s[1..])
  }

  /** The maximal whitespace-free runs of `s`, in order. */
  function Words(s: string): (ws: seq<string>)
    ensures forall w <- ws :: w != [] && NoSpace(w)
    decreases |s|
  {
    var t := TrimStart(s);
    if t == [] then []
    else
      var w := Word(t);
      [w] + Words(t[|w|..])
  }

  function JoinWithHyphens(ws: seq<string>): string {
    if ws == [] then []
    else if |ws| == 1 then ws[0]
    else ws[0] + "-" + JoinWithHyphens(ws[1..])
  }

  function Concat(ws: seq<string>): string {
    if ws == [] then [] else ws[0] + Concat(ws[1..])
  }

  /** The characters of `s` that are not whitespace, in order. */
  function NonSpaceChars(s: string): string {
    if s == [] then []
    else if IsSpace(s[0]) then NonSpaceChars(s[1..])
    else [s[0]] + NonSpaceChars(s[1..])
  }

  /** The characters of `s` other than `-`, in order. */
  function DropHyphens(s: string): string {
    if s == [] then []
    else if s[0] == '-' then DropHyphens(s[1..])
    else [s[0]] + DropHyphens(s[1..])
  }

  // ---------------------------------------------------------------------
  // Lemmas

  lemma TrimStartNoLeadingSpace(s: string)
    requires s == [] || !IsSpace(s[0])
    ensures TrimStart(s) == s
  {
  }

  lemma {:induction false} CollapseAfterWord(w: string, rest: string)
    requires NoSpace(w)
    ensures CollapseSpaces(w + rest) == w + CollapseSpaces(rest)
  {
    if w == [] {
      assert w + rest == rest;
    } else {
      assert (w + rest)[0] == w[0] && (w + rest)[1..] == w[1..] + rest;
      CollapseAfterWord(w[1..], rest);
      assert [w[0]] + (w[1..] + CollapseSpaces(rest)) == w + CollapseSpaces(rest);
    }
  }

  lemma TrimStartAllSpace(s: string)
    requires AllSpace(s)
    ensures TrimStart(s) == []
  {
  }

  lemma AllSpaceAppend(p: string, q: string)
    requires AllSpace(p) && AllSpace(q)
    ensures AllSpace(p + q)
  {
  }

  lemma WordsOfAllSpace(s: string)
    requires AllSpace(s)
    ensures Words(s) == []
  {
    TrimStartAllSpace(s);
  }

  lemma TrimStartNotAllSpace(s: string)
    requires !AllSpace(s)
    ensures TrimStart(s) != []
  {
  }

  lemma DropFromAppend(a: string, b: string, k: nat)
    requires k <= |a|
    ensures (a + b)[k..] == a[k..] + b
  {
  }

  lemma SplitAt(s: string, k: nat)
    requires k <= |s|
    ensures s == s[..k] + s[k..]
  {
  }

  lemma {:induction false} TrimStartAppend(p: string, q: string)
    requires !AllSpace(p)
    ensures TrimStart(p + q) == TrimStart(p) + q
  {
    assert p != [];
    assert (p + q)[0] == p[0];
    if IsSpace(p[0]) {
      assert (p + q)[1..] == p[1..] + q;
      assert !AllSpace(p[1..]) by {
        var i :| 0 <= i < |p| && !IsSpace(p[i]);
        assert p[1..][i - 1] == p[i];
      }
      TrimStartAppend(p[1..], q);
    }
  }

  lemma {:induction false} WordAppend(t: string, q: string)
    requires q == [] || IsSpace(q[0]) || |Word(t)| < |t|
    ensures Word(t + q) == Word(t)
  {
    if t == [] {
    } else if IsSpace(t[0]) {
      assert (t + q)[0] == t[0];
    } else {
      assert (t + q)[0] == t[0] && (t + q)[1..] == t[1..] + q;
      WordAppend(t[1..], q);
    }
  }

  /** Trailing whitespace adds no word. */
  lemma {:induction false} WordsIgnoreTrailingSpace(p: string, q: string)
    requires AllSpace(q)
    ensures Words(p + q) == Words(p)
    decreases |p|
  {
    if AllSpace(p) {
      AllSpaceAppend(p, q);
      WordsOfAllSpace(p + q);
      WordsOfAllSpace(p);
    } else {
      var t := TrimStart(p);
      var w := Word(t);
      TrimStartNotAllSpace(p);
      TrimStartAppend(p, q);
      assert q == [] || IsSpace(q[0]);
      WordAppend(t, q);
      assert (t + q)[0] == t[0];
      WordsSkipLeadingSpace(p + q);
      WordsUnfold(t + q);
      WordsSkipLeadingSpace(p);
      WordsUnfold(t);
      DropFromAppend(t, q, |w|);
      WordsIgnoreTrailingSpace(t[|w|..], q);
    }
  }

  lemma WordsUnfold(u: string)
    requires u != [] && !IsSpace(u[0])
    ensures Words(u) == [Word(u)] + Words(u[|Word(u)|..])
  {
    TrimStartNoLeadingSpace(u);
  }

  lemma WordsSkipLeadingSpace(s: string)
    ensures Words(s) == Words(TrimStart(s))
  {
    TrimStartNoLeadingSpace(TrimStart(s));
  }

  lemma AppendAssoc(a: string, b: string, c: string)
    ensures a + (b + c) == a + b + c
  {
  }

  lemma JoinCons(w: string, ws: seq<string>)
    requires ws != []
    ensures JoinWithHyphens([w] + ws) == w + "-" + JoinWithHyphens(ws)
  {
    assert ([w] + ws)[1..] == ws;
  }

  /** On text without outer whitespace, collapsing equals joining the words. */
  lemma {:induction false} CollapseJoinsWords(u: string)
    requires u == [] || (!IsSpace(u[0]) && !IsSpace(u[|u| - 1]))
    ensures CollapseSpaces(u) == JoinWithHyphens(Words(u))
    decreases |u|
  {
    if u != [] {
      var w := Word(u);
      var rest := u[|w|..];
      SplitAt(u, |w|);
      CollapseAfterWord(w, rest);
      WordsUnfold(u);
      if rest == [] {
        assert Words(rest) == [];
        assert CollapseSpaces(u) == w;
      } else {
        var v := TrimStart(rest);
        assert rest[|rest| - 1] == u[|u| - 1];
        assert v != [] && v[|v| - 1] == rest[|rest| - 1];
        assert CollapseSpaces(rest) == "-" + CollapseSpaces(v);
        CollapseJoinsWords(v);
        WordsSkipLeadingSpace(rest);
        assert Words(v) != [] by { WordsUnfold(v); }
        JoinCons(w, Words(v));
        calc {
          CollapseSpaces(u);
          w + CollapseSpaces(rest);
          w + ("-" + JoinWithHyphens(Words(v)));
          { AppendAssoc(w, "-", JoinWithHyphens(Words(v))); }
          w + "-" + JoinWithHyphens(Words(v));
          JoinWithHyphens([w] + Words(rest));
          JoinWithHyphens(Words(u));
        }
      }
    }
  }

  /** What `TrimEnd` drops is a run of whitespace after what it keeps. */
  lemma TrimEndSplit(t: string)
    ensures t == TrimEnd(t) + t[|TrimEnd(t)|..]
    ensures AllSpace(t[|TrimEnd(t)|..])
  {
    var u := TrimEnd(t);
    SplitAt(t, |u|);
    assert t[..|u|] == u;
  }

  /** The normalised text is the input's words joined by single hyphens. */
  lemma NormalizeIsJoinedWords(selection: string)
    ensures Normalize(selection) == JoinWithHyphens(Words(selection))
  {
    var t := TrimStart(selection);
    var u := TrimEnd(t);
    assert Trim(selection) == u;
    CollapseJoinsWords(u);
    TrimEndSplit(t);
    WordsIgnoreTrailingSpace(u, t[|u|..]);
    assert Words(u) == Words(t);
    WordsSkipLeadingSpace(selection);
  }

  lemma {:induction false} NonSpaceCharsAppend(a: string, b: string)
    ensures NonSpaceChars(a + b) == NonSpaceChars(a) + NonSpaceChars(b)
  {
    if a != [] {
      assert (a + b)[0] == a[0] && (a + b)[1..] == a[1..] + b;
      NonSpaceCharsAppend(a[1..], b);
    } else {
      assert a + b == b;
    }
  }

  lemma {:induction false} NonSpaceCharsOfWord(w: string)
    requires NoSpace(w)
    ensures NonSpaceChars(w) == w
  {
    if w != [] {
      NonSpaceCharsOfWord(w[1..]);
    }
  }

  lemma {:induction false} NonSpaceCharsSkipSpace(s: string)
    ensures NonSpaceChars(TrimStart(s)) == NonSpaceChars(s)
    decreases |s|
  {
    if s != [] && IsSpace(s[0]) {
      NonSpaceCharsSkipSpace(s[1..]);
    }
  }

  /** Read in order, the words hold exactly the non-whitespace characters. */
  lemma {:induction false} WordsKeepNonSpaceChars(s: string)
    ensures Concat(Words(s)) == NonSpaceChars(s)
    decreases |s|
  {
    var t := TrimStart(s);
    NonSpaceCharsSkipSpace(s);
    if t == [] {
    } else {
      var w := Word(t);
      var rest := t[|w|..];
      WordsUnfold(t);
      WordsSkipLeadingSpace(s);
      SplitAt(t, |w|);
      NonSpaceCharsAppend(w, rest);
      NonSpaceCharsOfWord(w);
      WordsKeepNonSpaceChars(rest);
      assert ([w] + Words(rest))[1..] == Words(rest);
    }
  }

  lemma {:induction false} DropHyphensAppend(a: string, b: string)
    ensures DropHyphens(a + b) == DropHyphens(a) + DropHyphens(b)
  {
    if a != [] {
      assert (a + b)[0] == a[0] && (a + b)[1..] == a[1..] + b;
      DropHyphensAppend(a[1..], b);
    } else {
      assert a + b == b;
    }
  }

  lemma {:induction false} DropHyphensOfJoin(ws: seq<string>)
    ensures DropHyphens(JoinWithHyphens(ws)) == DropHyphens(Concat(ws))
  {
    if |ws| == 1 {
      assert Concat(ws) == ws[0] + Concat([]);
      assert ws[0] + [] == ws[0];
    } else if |ws| > 1 {
      var j := JoinWithHyphens(ws[1..]);
      DropHyphensOfJoin(ws[1..]);
      DropHyphensAppend(ws[0] + "-", j);
      DropHyphensAppend(ws[0], "-");
      DropHyphensAppend(ws[0], Concat(ws[1..]));
      assert DropHyphens("-") == [];
    }
  }

  lemma {:induction false} DropHyphensNoHyphen(s: string)
    requires '-' !in s
    ensures DropHyphens(s) == s
  {
    if s != [] {
      assert s[0] in s;
      assert forall c :: c in s[1..] ==> c in s;
      DropHyphensNoHyphen(s[1..]);
    }
  }

  lemma {:induction false} NonSpaceCharsSubset(s: string)
    ensures forall c :: c in NonSpaceChars(s) ==> c in s
  {
    if s != [] {
      NonSpaceCharsSubset(s[1..]);
      assert forall c :: c in s[1..] ==> c in s;
    }
  }

  /** Apart from the hyphens, the normalised text is exactly the
      non-whitespace characters of the selection, in their original order;
      when the selection has no hyphen of its own, removing the hyphens from
      the result gives back exactly those characters. */
  lemma NormalizeKeepsText(selection: string)
    ensures DropHyphens(Normalize(selection)) == DropHyphens(NonSpaceChars(selection))
    ensures '-' !in selection ==> DropHyphens(Normalize(selection)) == NonSpaceChars(selection)
  {
    NormalizeIsJoinedWords(selection);
    DropHyphensOfJoin(Words(selection));
    WordsKeepNonSpaceChars(selection);
    if '-' !in selection {
      NonSpaceCharsSubset(selection);
      DropHyphensNoHyphen(NonSpaceChars(selection));
    }
  }

  lemma SliceKeepsAbsent(s: string, lo: nat, hi: nat)
    requires lo <= hi <= |s| && '-' !in s
    ensures '-' !in s[lo..hi]
  {
  }

  /** Words of a hyphen-free text are hyphen-free. */
  lemma {:induction false} WordsHyphenFree(s: string)
    requires '-' !in s
    ensures forall w <- Words(s) :: '-' !in w
    decreases |s|
  {
    var t := TrimStart(s);
    if t != [] {
      var w := Word(t);
      var rest := t[|w|..];
      assert '-' !in t by { SliceKeepsAbsent(s, |s| - |t|, |s|); }
      assert '-' !in w by { SliceKeepsAbsent(t, 0, |w|); }
      assert '-' !in rest by { SliceKeepsAbsent(t, |w|, |t|); }
      WordsUnfold(t);
      WordsSkipLeadingSpace(s);
      WordsHyphenFree(rest);
      assert Words(s) == [w] + Words(rest);
    }
  }

  /** Joining non-empty, hyphen-free words puts exactly one hyphen between
      neighbours and none at either end. */
  lemma {:induction false} JoinShape(ws: seq<string>)
    requires forall w <- ws :: w != [] && '-' !in w
    ensures var r := JoinWithHyphens(ws);
      (r == [] <==> ws == []) &&
      (r != [] ==> r[0] != '-' && r[|r| - 1] != '-') &&
      NoDoubleHyphen(r)
  {
    if |ws| == 1 {
      assert ws[0] in ws;
      assert forall i :: 0 <= i < |ws[0]| ==> ws[0][i] in ws[0];
    } else if |ws| > 1 {
      var w := ws[0];
      assert w in ws;
      var j := JoinWithHyphens(ws[1..]);
      forall x | x in ws[1..]
        ensures x in ws
      {
        var i :| 0 <= i < |ws[1..]| && ws[1..][i] == x;
        assert ws[i + 1] == x;
      }
      JoinShape(ws[1..]);
      var r := w + "-" + j;
      assert r == JoinWithHyphens(ws);
      assert forall i :: 0 <= i < |w| ==> w[i] in w;
      assert r[0] == w[0];
      assert r[|r| - 1] == j[|j| - 1];
      forall i | 0 <= i < |r| - 1
        ensures r[i] == '-' ==> r[i + 1] != '-'
      {
        if i < |w| {
          assert r[i] == w[i];
        } else if i == |w| {
          assert r[i + 1] == j[0];
        } else {
          assert r[i] == j[i - |w| - 1] && r[i + 1] == j[i - |w|];
        }
      }
    }
  }

  /** For a selection without hyphens of its own, the normalised text neither
      starts nor ends with a hyphen and never holds two in a row, because the
      selection is trimmed before runs are collapsed. */
  lemma NormalizeHyphenShape(selection: string)
    requires '-' !in selection
    ensures var r := Normalize(selection);
      (r != [] ==> r[0] != '-' && r[|r| - 1] != '-') && NoDoubleHyphen(r)
  {
    NormalizeIsJoinedWords(selection);
    WordsHyphenFree(selection);
    JoinShape(Words(selection));
  }
}
