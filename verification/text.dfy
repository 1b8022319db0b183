/** Title text shape of data_processor.py: the emoji class, `remove_emoji`,
    `contains_emoji`, `clean_text` and the whitespace split behind the word count. */
module TextClean {
  import opened Chars

  /* ---------------------------------------------------------------------
     The emoji class. One table serves both removal and detection; the
     bounds are the ones written in the character class, inclusive.
     --------------------------------------------------------------------- */

  const EmojiRanges: seq<(int, int)> := [
    (0x1F600, 0x1F64F),  // emoticons
    (0x1F300, 0x1F5FF),  // symbols & pictographs
    (0x1F680, 0x1F6FF),  // transport & map symbols
    (0x1F700, 0x1F77F),  // alchemical symbols
    (0x1F780, 0x1F7FF),  // geometric shapes extended
    (0x1F800, 0x1F8FF),  // supplemental arrows-C
    (0x1F900, 0x1F9FF),  // supplemental symbols and pictographs
    (0x1FA00, 0x1FA6F),  // chess symbols
    (0x1FA70, 0x1FAFF),  // symbols and pictographs extended-A
    (0x2702, 0x27B0),    // dingbats
    (0x24C2, 0x1F251)    // enclosed characters, and everything between
  ]

  predicate InRanges(x: int, ranges: seq<(int, int)>) {
    exists k :: 0 <= k < |ranges| && ranges[k].0 <= x <= ranges[k].1
  }

  predicate IsEmoji(c: char) {
    InRanges(c as int, EmojiRanges)
  }

  /** The table is three intervals: the last entry alone covers U+24C2..U+1F251,
      which includes CJK ideographs, Hangul and the ideographic space. */
  lemma EmojiIntervals(c: char)
    ensures IsEmoji(c) <==>
      || 0x24C2 <= c as int <= 0x1F251
      || 0x1F300 <= c as int <= 0x1F64F
      || 0x1F680 <= c as int <= 0x1FAFF
  {
    var x := c as int;
    if 0x24C2 <= x <= 0x1F251 {
      assert EmojiRanges[10].0 <= x <= EmojiRanges[10].1;
    } else if 0x1F300 <= x <= 0x1F5FF {
      assert EmojiRanges[1].0 <= x <= EmojiRanges[1].1;
    } else if 0x1F600 <= x <= 0x1F64F {
      assert EmojiRanges[0].0 <= x <= EmojiRanges[0].1;
    } else if 0x1F680 <= x <= 0x1F6FF {
      assert EmojiRanges[2].0 <= x <= EmojiRanges[2].1;
    } else if 0x1F700 <= x <= 0x1F77F {
      assert EmojiRanges[3].0 <= x <= EmojiRanges[3].1;
    } else if 0x1F780 <= x <= 0x1F7FF {
      assert EmojiRanges[4].0 <= x <= EmojiRanges[4].1;
    } else if 0x1F800 <= x <= 0x1F8FF {
      assert EmojiRanges[5].0 <= x <= EmojiRanges[5].1;
    } else if 0x1F900 <= x <= 0x1F9FF {
      assert EmojiRanges[6].0 <= x <= EmojiRanges[6].1;
    } else if 0x1FA00 <= x <= 0x1FA6F {
      assert EmojiRanges[7].0 <= x <= EmojiRanges[7].1;
    } else if 0x1FA70 <= x <= 0x1FAFF {
      assert EmojiRanges[8].0 <= x <= EmojiRanges[8].1;
    }
  }

  predicate NoEmoji(s: string) {
    forall i :: 0 <= i < |s| ==> !IsEmoji(s[i])
  }

  /** `remove_emoji`: every code point of the class deleted, the rest kept in order. */
  function RemoveEmoji(t: string): (r: string)
    ensures |r| <= |t|
    ensures NoEmoji(r)
    ensures NoEmoji(t) ==> r == t
    ensures !NoEmoji(t) ==> |r| < |t|
    ensures forall i :: 0 <= i < |r| ==> r[i] in t
  {
    if t == [] then []
    else if IsEmoji(t[0]) then RemoveEmoji(t[1..])
    else [t[0]] + RemoveEmoji(t[1..])
  }

  /** Removal works character by character: the result for a joined text is
      the joined results. */
  lemma {:induction false} RemoveEmojiConcat(a: string, b: string)
    ensures RemoveEmoji(a + b) == RemoveEmoji(a) + RemoveEmoji(b)
  {
    if a != [] {
      assert (a + b)[0] == a[0] && (a + b)[1..] == a[1..] + b;
      RemoveEmojiConcat(a[1..], b);
    } else {
      assert a + b == b;
    }
  }

  /** One character is deleted when it is in the class and kept otherwise. */
  lemma RemoveEmojiOne(c: char)
    ensures RemoveEmoji([c]) == if IsEmoji(c) then [] else [c]
  {
    assert [c][1..] == [];
  }

  /** `contains_emoji`: some code point of the text is in the class. Detection
      and removal agree: a text is reported as holding emoji exactly when
      removal changes it. */
  predicate ContainsEmoji(t: string): (b: bool)
    ensures b <==> RemoveEmoji(t) != t
  {
    exists i :: 0 <= i < |t| && IsEmoji(t[i])
  }

  /* ---------------------------------------------------------------------
     Whitespace runs.
     --------------------------------------------------------------------- */

  /** The text without its longest leading whitespace run. */
  function DropSpaces(s: string): (r: string)
    ensures |r| <= |s| && r == s[|s| - |r|..]
    ensures r == [] || !IsSpace(r[0])
    ensures forall i :: 0 <= i < |s| - |r| ==> IsSpace(s[i])
  {
    if s != [] && IsSpace(s[0]) then DropSpaces(s[1..]) else s
  }

  /** The text without its longest trailing whitespace run. */
  function TrimEnd(s: string): (r: string)
    ensures |r| <= |s| && r == s[..|r|]
    ensures r == [] || !IsSpace(r[|r| - 1])
    ensures forall i :: |r| <= i < |s| ==> IsSpace(s[i])
  {
    if s != [] && IsSpace(s[|s| - 1]) then TrimEnd(s[..|s| - 1]) else s
  }

  /** `str.strip()` */
  function Strip(s: string): string {
    TrimEnd(DropSpaces(s))
  }

  /** The length of the leading run of non-whitespace characters. */
  function WordLength(s: string): (n: nat)
    ensures n <= |s|
    ensures forall i :: 0 <= i < n ==> !IsSpace(s[i])
    ensures n < |s| ==> IsSpace(s[n])
  {
    if s == [] || IsSpace(s[0]) then 0 else 1 + WordLength(s[1..])
  }

  /** `re.sub(r'\s+', ' ', s)`: each maximal whitespace run becomes one space. */
  function Collapse(s: string): string
    decreases |s|
  {
    if s == [] then []
    else if IsSpace(s[0]) then [' '] + Collapse(DropSpaces(s))
    else [s[0]] + Collapse(s[1..])
  }

  predicate IsWord(w: string) {
    |w| > 0 && forall i :: 0 <= i < |w| ==> !IsSpace(w[i])
  }

  predicate AllWords(ws: seq<string>) {
    forall k :: 0 <= k < |ws| ==> IsWord(ws[k])
  }

  /** `str.split()`: the maximal non-whitespace runs, in order. */
  function Words(s: string): (ws: seq<string>)
    ensures AllWords(ws)
    decreases |s|
  {
    var t := DropSpaces(s);
    if t == [] then []
    else
      var n := WordLength(t);
      var ws := Words(t[n..]);
      FirstWord(t);
      ConsWord(t[..n], ws);
      [t[..n]] + ws
  }

  lemma FirstWord(t: string)
    requires t != [] && !IsSpace(t[0])
    ensures IsWord(t[..WordLength(t)])
  {
  }

  lemma ConsWord(w: string, ws: seq<string>)
    requires IsWord(w) && AllWords(ws)
    ensures AllWords([w] + ws)
  {
    forall k | 0 <= k < |[w] + ws|
      ensures IsWord(([w] + ws)[k])
    {
      if k > 0 {
        assert ([w] + ws)[k] == ws[k - 1];
      }
    }
  }

  /** `' '.join(ws)` */
  function JoinWords(ws: seq<string>): string {
    if ws == [] then ""
    else if |ws| == 1 then ws[0]
    else ws[0] + " " + JoinWords(ws[1..])
  }

  /** `clean_text`: emoji removed first, then whitespace runs collapsed and the ends stripped. */
  function CleanText(t: string): (r: string)
    ensures r == JoinWords(Words(RemoveEmoji(t)))
    ensures NoEmoji(r)
    ensures r == [] || (!IsSpace(r[0]) && !IsSpace(r[|r| - 1]))
    ensures forall i :: 0 <= i < |r| && IsSpace(r[i]) ==> r[i] == ' '
    ensures forall i :: 0 <= i < |r| - 1 ==> !(IsSpace(r[i]) && IsSpace(r[i + 1]))
  {
    var s := RemoveEmoji(t);
    StripCollapse(s);
    JoinEnds(Words(s));
    JoinSpaces(Words(s));
    WordsNoEmoji(s);
    JoinNoEmoji(Words(s));
    Strip(Collapse(s))
  }

  /* ---------------------------------------------------------------------
     Proofs about the whitespace functions.
     --------------------------------------------------------------------- */

  lemma DropSpacesOfWordStart(s: string)
    requires s == [] || !IsSpace(s[0])
    ensures DropSpaces(s) == s
  {
  }

  lemma {:induction false} CollapseWordPrefix(w: string, rest: string)
    requires forall i :: 0 <= i < |w| ==> !IsSpace(w[i])
    ensures Collapse(w + rest) == w + Collapse(rest)
    decreases |w|
  {
    if w != [] {
      var s := w + rest;
      assert s[0] == w[0] && !IsSpace(s[0]);
      assert s[1..] == w[1..] + rest;
      assert Collapse(s) == [w[0]] + Collapse(w[1..] + rest);
      CollapseWordPrefix(w[1..], rest);
      assert [w[0]] + (w[1..] + Collapse(rest)) == ([w[0]] + w[1..]) + Collapse(rest);
      assert w == [w[0]] + w[1..];
    } else {
      assert w + rest == rest;
    }
  }

  function Trail(s: string): string {
    if |s| > 0 && IsSpace(s[|s| - 1]) then " " else ""
  }

  lemma JoinCons(w: string, ws: seq<string>)
    requires ws != []
    ensures JoinWords([w] + ws) == w + " " + JoinWords(ws)
  {
    assert ([w] + ws)[1..] == ws;
  }

  lemma WordsFromWord(s: string)
    requires s != [] && !IsSpace(s[0])
    ensures Words(s) == [s[..WordLength(s)]] + Words(s[WordLength(s)..])
  {
    DropSpacesOfWordStart(s);
  }

  lemma WordsSkipSpaces(s: string)
    ensures Words(s) == Words(DropSpaces(s))
  {
    DropSpacesOfWordStart(DropSpaces(s));
  }

  lemma TrailOfSuffix(s: string, u: string, k: nat)
    requires k <= |s| && u == s[k..] && u != []
    ensures Trail(s) == Trail(u)
  {
    assert s[|s| - 1] == u[|u| - 1];
  }

  lemma ConcatAssoc(w: string, j: string, t: string)
    ensures w + ([' '] + (j + t)) == (w + " " + j) + t
  {
  }

  /** The last word of the text, with nothing after it. */
  lemma CollapseLastWord(s: string)
    requires s != [] && !IsSpace(s[0]) && WordLength(s) == |s|
    ensures Collapse(s) == JoinWords(Words(s)) + Trail(s)
  {
    WordsFromWord(s);
    assert s[|s|..] == [];
    assert Words(s[|s|..]) == [];
    CollapseWordPrefix(s, []);
    assert s + [] == s;
  }

  /** The last word of the text, followed by whitespace only. */
  lemma CollapseTrailingSpace(s: string)
    requires s != [] && !IsSpace(s[0])
    requires WordLength(s) < |s| && DropSpaces(s[WordLength(s)..]) == []
    ensures Collapse(s) == JoinWords(Words(s)) + Trail(s)
  {
    var n := WordLength(s);
    var w, rest := s[..n], s[n..];
    SplitAt(s, n);
    TrailingRun(rest);
    assert Collapse(s) == w + " " by {
      CollapseWordPrefix(w, rest);
    }
    assert JoinWords(Words(s)) == w by {
      WordsFromWord(s);
      assert JoinWords([w]) == w;
    }
    TrailOfSuffix(s, rest, n);
  }

  lemma SplitAt(s: string, n: nat)
    requires n <= |s|
    ensures s == s[..n] + s[n..]
  {
  }

  /** Nothing left after the leading whitespace: the text is whitespace only. */
  lemma SpacesOnly(s: string)
    requires DropSpaces(s) == []
    ensures forall i :: 0 <= i < |s| ==> IsSpace(s[i])
  {
  }

  /** A non-empty text with nothing after its leading whitespace collapses to one space. */
  lemma TrailingRun(rest: string)
    requires rest != [] && DropSpaces(rest) == []
    ensures Collapse(rest) == " " && Words(rest) == [] && Trail(rest) == " "
  {
    SpacesOnly(rest);
    SpaceRun(rest);
  }

  /** A text that is all whitespace collapses to one space and has no words. */
  lemma SpaceRun(rest: string)
    requires rest != [] && forall i :: 0 <= i < |rest| ==> IsSpace(rest[i])
    ensures Collapse(rest) == " " && Words(rest) == [] && Trail(rest) == " "
  {
    assert DropSpaces(rest) == [];
    WordsSkipSpaces(rest);
    assert IsSpace(rest[|rest| - 1]);
  }

  /** Splitting a text into its first word, the whitespace after it, and the rest `u`. */
  lemma SplitFirstWord(s: string, u: string)
    requires s != [] && !IsSpace(s[0])
    requires WordLength(s) < |s| && u == DropSpaces(s[WordLength(s)..])
    ensures Collapse(s) == s[..WordLength(s)] + ([' '] + Collapse(u))
    ensures Words(s) == [s[..WordLength(s)]] + Words(u)
  {
    var n := WordLength(s);
    var w, rest := s[..n], s[n..];
    assert s == w + rest;
    WordsFromWord(s);
    WordsSkipSpaces(rest);
    CollapseWordPrefix(w, rest);
  }

  lemma TrailAfterWord(s: string, u: string)
    requires WordLength(s) < |s| && u == DropSpaces(s[WordLength(s)..]) && u != []
    ensures Trail(s) == Trail(u)
  {
    var rest := s[WordLength(s)..];
    assert u[|u| - 1] == rest[|rest| - 1] == s[|s| - 1];
  }

  /** A word, whitespace, and a remainder `u` that the claim already holds for. */
  lemma CollapseMoreWords(s: string, u: string)
    requires s != [] && !IsSpace(s[0])
    requires WordLength(s) < |s| && u == DropSpaces(s[WordLength(s)..]) && u != []
    requires Collapse(u) == JoinWords(Words(u)) + Trail(u)
    ensures Collapse(s) == JoinWords(Words(s)) + Trail(s)
  {
    var w := s[..WordLength(s)];
    SplitFirstWord(s, u);
    var j := JoinWords(Words(u));
    WordsFromWord(u);
    JoinCons(w, Words(u));
    TrailAfterWord(s, u);
    ConcatAssoc(w, j, Trail(s));
  }

  /** On a text that does not start with whitespace, collapsing gives the joined
      words, plus one space if the text ended in whitespace. */
  lemma {:induction false} CollapseFromWord(s: string)
    requires s == [] || !IsSpace(s[0])
    ensures Collapse(s) == JoinWords(Words(s)) + Trail(s)
    decreases |s|
  {
    if s != [] {
      var n := WordLength(s);
      if n == |s| {
        CollapseLastWord(s);
      } else {
        var u := DropSpaces(s[n..]);
        if u == [] {
          CollapseTrailingSpace(s);
        } else {
          CollapseFromWord(u);
          CollapseMoreWords(s, u);
        }
      }
    }
  }

  /** Joined words are empty only for no words, and never start or end with whitespace. */
  lemma {:induction false} JoinEnds(ws: seq<string>)
    requires AllWords(ws)
    ensures var j := JoinWords(ws);
      && (j == [] <==> ws == [])
      && (j != [] ==> !IsSpace(j[0]) && !IsSpace(j[|j| - 1]))
  {
    if |ws| > 1 {
      JoinEnds(ws[1..]);
      assert IsWord(ws[0]);
    }
  }

  /** In joined words, whitespace occurs only as single spaces between words. */
  lemma {:induction false} JoinSpaces(ws: seq<string>)
    requires AllWords(ws)
    ensures var j := JoinWords(ws);
      && (forall i :: 0 <= i < |j| && IsSpace(j[i]) ==> j[i] == ' ')
      && (forall i :: 0 <= i < |j| - 1 ==> !(IsSpace(j[i]) && IsSpace(j[i + 1])))
  {
    if |ws| > 1 {
      JoinSpaces(ws[1..]);
      JoinEnds(ws[1..]);
      var w, j' := ws[0], JoinWords(ws[1..]);
      var j := JoinWords(ws);
      assert j == w + " " + j';
      assert IsWord(w);
      forall i | 0 <= i < |j| - 1
        ensures !(IsSpace(j[i]) && IsSpace(j[i + 1]))
      {
        if i >= |w| + 1 {
          assert j[i] == j'[i - |w| - 1] && j[i + 1] == j'[i - |w|];
        }
      }
    }
  }

  /** Joining emoji-free words adds no emoji. */
  lemma {:induction false} JoinNoEmoji(ws: seq<string>)
    requires AllNoEmoji(ws)
    ensures NoEmoji(JoinWords(ws))
  {
    if |ws| > 1 {
      JoinNoEmoji(ws[1..]);
      var w, j' := ws[0], JoinWords(ws[1..]);
      var j := JoinWords(ws);
      assert j == w + " " + j';
      assert !IsEmoji(' ') by { EmojiIntervals(' '); }
      assert NoEmoji(w);
      forall i | 0 <= i < |j|
        ensures !IsEmoji(j[i])
      {
        if i > |w| {
          assert j[i] == j'[i - |w| - 1];
        }
      }
    }
  }

  /** `strip` removes exactly the padding around joined words. */
  lemma StripPadded(a: string, j: string, b: string)
    requires forall i :: 0 <= i < |a| ==> IsSpace(a[i])
    requires forall i :: 0 <= i < |b| ==> IsSpace(b[i])
    requires j == [] || (!IsSpace(j[0]) && !IsSpace(j[|j| - 1]))
    ensures Strip(a + j + b) == j
  {
    if j == [] {
      AllSpace(a + j + b);
    } else {
      DropPadding(a, j + b);
      Assoc(a, j, b);
      TrimPadding(j, b);
    }
  }

  lemma AllSpace(s: string)
    requires forall i :: 0 <= i < |s| ==> IsSpace(s[i])
    ensures Strip(s) == []
  {
  }

  lemma DropPadding(a: string, t: string)
    requires forall i :: 0 <= i < |a| ==> IsSpace(a[i])
    requires t != [] && !IsSpace(t[0])
    ensures DropSpaces(a + t) == t
  {
    var s := a + t;
    var d := DropSpaces(s);
    assert s[|a|] == t[0];
    assert |d| == |t|;
  }

  lemma TrimPadding(j: string, b: string)
    requires forall i :: 0 <= i < |b| ==> IsSpace(b[i])
    requires j != [] && !IsSpace(j[|j| - 1])
    ensures TrimEnd(j + b) == j
  {
    var d := j + b;
    assert d[|j| - 1] == j[|j| - 1];
    assert |TrimEnd(d)| == |j|;
  }

  lemma Assoc(a: string, b: string, c: string)
    ensures a + (b + c) == a + b + c
  {
  }

  lemma PaddingIsSpace(x: string)
    requires x == " " || x == ""
    ensures forall i :: 0 <= i < |x| ==> IsSpace(x[i])
  {
  }

  function Lead(s: string): string {
    if s != [] && IsSpace(s[0]) then " " else ""
  }

  lemma CollapseLead(s: string)
    ensures Collapse(s) == Lead(s) + Collapse(DropSpaces(s))
  {
    if s == [] || !IsSpace(s[0]) {
      DropSpacesOfWordStart(s);
    }
  }

  /** `re.sub(r'\s+', ' ', s).strip()` is the words of `s` joined by single spaces. */
  lemma StripCollapse(s: string)
    ensures Strip(Collapse(s)) == JoinWords(Words(s))
  {
    var u := DropSpaces(s);
    WordsSkipSpaces(s);
    CollapseFromWord(u);
    var j := JoinWords(Words(u));
    JoinEnds(Words(u));
    CollapseLead(s);
    Assoc(Lead(s), j, Trail(u));
    PaddingIsSpace(Lead(s));
    PaddingIsSpace(Trail(u));
    StripPadded(Lead(s), j, Trail(u));
  }

  predicate AllNoEmoji(ws: seq<string>) {
    forall k :: 0 <= k < |ws| ==> NoEmoji(ws[k])
  }

  lemma {:induction false} WordsNoEmoji(s: string)
    requires NoEmoji(s)
    ensures AllNoEmoji(Words(s))
    decreases |s|
  {
    var t := DropSpaces(s);
    if t != [] {
      var n := WordLength(t);
      SliceNoEmoji(s, |s| - |t|, |s|);
      SliceNoEmoji(t, n, |t|);
      SliceNoEmoji(t, 0, n);
      WordsNoEmoji(t[n..]);
      ConsNoEmoji(t[..n], Words(t[n..]));
    }
  }

  lemma SliceNoEmoji(s: string, i: nat, j: nat)
    requires NoEmoji(s) && i <= j <= |s|
    ensures NoEmoji(s[i..j])
  {
    assert forall k :: 0 <= k < j - i ==> s[i..j][k] == s[i + k];
  }

  lemma ConsNoEmoji(w: string, ws: seq<string>)
    requires NoEmoji(w) && AllNoEmoji(ws)
    ensures AllNoEmoji([w] + ws)
  {
    forall k | 0 <= k < |[w] + ws|
      ensures NoEmoji(([w] + ws)[k])
    {
      if k > 0 {
        assert ([w] + ws)[k] == ws[k - 1];
      }
    }
  }

  lemma {:induction false} WordLengthOfWord(w: string, rest: string)
    requires IsWord(w) && (rest == [] || IsSpace(rest[0]))
    ensures WordLength(w + rest) == |w|
    decreases |w|
  {
    var s := w + rest;
    assert s[0] == w[0];
    if |w| > 1 {
      assert s[1..] == w[1..] + rest;
      WordLengthOfWord(w[1..], rest);
    } else {
      assert s[1..] == rest;
    }
  }

  lemma WordThenRest(w: string, rest: string)
    requires IsWord(w) && (rest == [] || IsSpace(rest[0]))
    ensures Words(w + rest) == [w] + Words(rest)
  {
    var s := w + rest;
    assert s != [] && !IsSpace(s[0]) by {
      assert s[0] == w[0];
    }
    assert WordLength(s) == |w| by {
      WordLengthOfWord(w, rest);
    }
    assert s[..|w|] == w && s[|w|..] == rest;
    WordsFromWord(s);
  }

  lemma WordsOfSpaceThenJoin(ws: seq<string>)
    requires AllWords(ws) && ws != []
    ensures Words(" " + JoinWords(ws)) == Words(JoinWords(ws))
  {
    var j := JoinWords(ws);
    JoinEnds(ws);
    assert DropSpaces(" " + j) == j;
    WordsSkipSpaces(" " + j);
  }

  lemma WordsJoinCons(ws: seq<string>)
    requires AllWords(ws) && |ws| > 1
    requires Words(JoinWords(ws[1..])) == ws[1..]
    ensures Words(JoinWords(ws)) == ws
  {
    var w, rest := ws[0], ws[1..];
    var j' := JoinWords(rest);
    assert JoinWords(ws) == w + (" " + j') by {
      Assoc(w, " ", j');
    }
    assert Words(w + (" " + j')) == [w] + Words(" " + j') by {
      assert IsWord(w);
      WordThenRest(w, " " + j');
    }
    assert Words(" " + j') == rest by {
      WordsOfSpaceThenJoin(rest);
    }
    assert [w] + rest == ws;
  }

  lemma WordsOfOne(ws: seq<string>)
    requires AllWords(ws) && |ws| == 1
    ensures Words(JoinWords(ws)) == ws
  {
    var w := ws[0];
    assert ws == [w] && IsWord(w);
    assert JoinWords(ws) == w;
    assert Words(w) == [w] by {
      WordThenRest(w, []);
      assert w + [] == w;
      assert Words([]) == [];
    }
  }

  /** Splitting joined words gives the words back. */
  lemma {:induction false} WordsJoin(ws: seq<string>)
    requires AllWords(ws)
    ensures Words(JoinWords(ws)) == ws
  {
    if ws == [] {
      assert Words([]) == [];
    } else if |ws| == 1 {
      WordsOfOne(ws);
    } else {
      WordsJoin(ws[1..]);
      WordsJoinCons(ws);
    }
  }

  /** Cleaning keeps the words of the emoji-free title, and cleaning twice changes nothing. */
  lemma CleanTextIdempotent(t: string)
    ensures Words(CleanText(t)) == Words(RemoveEmoji(t))
    ensures CleanText(CleanText(t)) == CleanText(t)
  {
    var c := CleanText(t);
    WordsJoin(Words(RemoveEmoji(t)));
    assert RemoveEmoji(c) == c;
  }
}
