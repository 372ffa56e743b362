/** The string operations the handler applies to the provider's reply:
    `String.prototype.trim`, `split(/\s+/)` and `length`.  A JavaScript
    string is modelled as a sequence of characters. */
module JsText {

  /** ECMAScript's WhiteSpace and LineTerminator code points: the set that
      `trim` strips and that the regular-expression class `\s` matches. */
  const WsChars: set<char> := {
    '\t', '\n', '\U{B}', '\U{C}', '\r', ' ', '\U{A0}', '\U{1680}',
    '\U{2000}', '\U{2001}', '\U{2002}', '\U{2003}', '\U{2004}', '\U{2005}',
    '\U{2006}', '\U{2007}', '\U{2008}', '\U{2009}', '\U{200A}',
    '\U{2028}', '\U{2029}', '\U{202F}', '\U{205F}', '\U{3000}', '\U{FEFF}'
  }

  predicate IsWs(c: char) {
    c in WsChars
  }

  /** No whitespace at either end. */
  predicate NoEdgeWs(s: string) {
    s == [] || (!IsWs(s[0]) && !IsWs(s[|s| - 1]))
  }

  predicate NoWs(s: string) {
    forall i :: 0 <= i < |s| ==> !IsWs(s[i])
  }

  /** `t` occurs in `s` at offset `lead`, with only whitespace before and after it. */
  predicate Padded(s: string, lead: nat, t: string) {
    && lead + |t| <= |s|
    && s[lead..lead + |t|] == t
    && (forall k :: 0 <= k < lead ==> IsWs(s[k]))
    && (forall k :: lead + |t| <= k < |s| ==> IsWs(s[k]))
  }

  /** Index of the first non-whitespace character of `s`, or `|s|` when there is none. */
  function FirstNonWs(s: string): (i: nat)
    ensures i <= |s|
    ensures forall k :: 0 <= k < i ==> IsWs(s[k])
    ensures i < |s| ==> !IsWs(s[i])
  {
    if s == [] || !IsWs(s[0]) then 0 else 1 + FirstNonWs(s[1..])
  }

  /** Index just past the last non-whitespace character of `s`, or 0 when there is none. */
  function EndNonWs(s: string): (e: nat)
    ensures e <= |s|
    ensures forall k :: e <= k < |s| ==> IsWs(s[k])
    ensures e > 0 ==> !IsWs(s[e - 1])
  {
    if s == [] || !IsWs(s[|s| - 1]) then |s| else EndNonWs(s[..|s| - 1])
  }

  /** `s.trim()`: the text between the leading and the trailing whitespace. */
  function Trim(s: string): (r: string)
    ensures NoEdgeWs(r)
    ensures Padded(s, FirstNonWs(s), r)
  {
    var a := FirstNonWs(s);
    if a == |s| then [] else s[a..EndNonWs(s)]
  }

  /** Trim is the only way to cut `s` into whitespace, a text without
      whitespace at its ends, and whitespace. */
  lemma TrimUnique(s: string, lead: nat, t: string)
    requires Padded(s, lead, t) && NoEdgeWs(t)
    ensures Trim(s) == t
  {
    assert t != [] ==> s[lead] == t[0] && s[lead + |t| - 1] == t[|t| - 1];
  }

  /** Trimming a text that has no whitespace at its ends leaves it alone; in
      particular trim is idempotent. */
  lemma TrimKeeps(s: string)
    requires NoEdgeWs(s)
    ensures Trim(s) == s
  {
    TrimUnique(s, 0, s);
  }

  /** Index of the first whitespace character of `s`, or `|s|` when there is none. */
  function FirstWs(s: string): (i: nat)
    ensures i <= |s|
    ensures forall k :: 0 <= k < i ==> !IsWs(s[k])
    ensures i < |s| ==> IsWs(s[i])
  {
    if s == [] || IsWs(s[0]) then 0 else 1 + FirstWs(s[1..])
  }

  /** `s.split(/\s+/)`: the pieces between maximal runs of whitespace.  The
      regular expression matches at least one character and greedily, so each
      run of whitespace is one separator; a run at either end yields an empty
      first or last piece, and the empty string yields one empty piece. */
  function SplitWs(s: string): (pieces: seq<string>)
    ensures |pieces| >= 1
    decreases |s|
  {
    if FirstWs(s) == |s| then [s]
    else [s[..FirstWs(s)]] + SplitWs(s[GapEnd(s)..])
  }

  /** Index just past the first run of whitespace, which starts at `FirstWs(s)`. */
  function GapEnd(s: string): (j: nat)
    requires FirstWs(s) < |s|
    ensures FirstWs(s) < j <= |s|
  {
    assert s[FirstWs(s)..][0] == s[FirstWs(s)];
    FirstWs(s) + FirstNonWs(s[FirstWs(s)..])
  }

  /** Number of maximal runs of non-whitespace characters in `s`, counted at
      their first characters; `afterWs` says whether what precedes `s` is
      whitespace (or nothing). */
  function RunsAfter(s: string, afterWs: bool): nat {
    if s == [] then 0
    else (if afterWs && !IsWs(s[0]) then 1 else 0) + RunsAfter(s[1..], IsWs(s[0]))
  }

  function Runs(s: string): nat {
    RunsAfter(s, true)
  }

  lemma {:induction false} RunsOverWord(s: string, n: nat, afterWs: bool)
    requires 0 < n <= |s| && forall k :: 0 <= k < n ==> !IsWs(s[k])
    ensures RunsAfter(s, afterWs) == (if afterWs then 1 else 0) + RunsAfter(s[n..], false)
    decreases n
  {
    if n > 1 {
      RunsOverWord(s[1..], n - 1, false);
      assert s[1..][n - 1..] == s[n..];
    }
  }

  lemma {:induction false} RunsOverSpace(s: string, n: nat, afterWs: bool)
    requires 0 < n <= |s| && forall k :: 0 <= k < n ==> IsWs(s[k])
    ensures RunsAfter(s, afterWs) == RunsAfter(s[n..], true)
    decreases n
  {
    if n > 1 {
      RunsOverSpace(s[1..], n - 1, true);
      assert s[1..][n - 1..] == s[n..];
    }
  }

  /** No piece of a split contains whitespace. */
  lemma {:induction false} SplitPiecesHaveNoWs(s: string)
    ensures forall p :: p in SplitWs(s) ==> NoWs(p)
    decreases |s|
  {
    var i := FirstWs(s);
    if i == |s| {
      assert SplitWs(s) == [s];
      assert NoWs(s);
    } else {
      var j := GapEnd(s);
      SplitPiecesHaveNoWs(s[j..]);
      var w := s[..i];
      assert NoWs(w) by {
        forall k | 0 <= k < |w| ensures !IsWs(w[k]) {
          assert w[k] == s[k];
        }
      }
      SplitMembers(s);
      forall p | p in SplitWs(s) ensures NoWs(p) {
        if p != w {
          assert p in SplitWs(s[j..]);
        }
      }
    }
  }

  /** A piece of the split is the word before the first whitespace run or a
      piece of the split of what follows that run. */
  lemma SplitMembers(s: string)
    requires FirstWs(s) < |s|
    ensures forall p :: p in SplitWs(s) ==> p == s[..FirstWs(s)] || p in SplitWs(s[GapEnd(s)..])
  {
    assert SplitWs(s) == [s[..FirstWs(s)]] + SplitWs(s[GapEnd(s)..]);
  }

  /** On a non-empty text without whitespace at its ends, `split(/\s+/)`
      yields one piece per maximal run of non-whitespace. */
  lemma {:induction false} SplitCountsRuns(s: string)
    requires s != [] && NoEdgeWs(s)
    ensures |SplitWs(s)| == Runs(s)
    decreases |s|
  {
    var i := FirstWs(s);
    if i == |s| {
      RunsOverWord(s, |s|, true);
      assert s[|s|..] == [];
      assert SplitWs(s) == [s];
    } else {
      var j := SplitRest(s);
      SplitCountsRuns(s[j..]);
    }
  }

  /** The pieces of such a text are all non-empty: they are its words. */
  lemma {:induction false} SplitPiecesNonEmpty(s: string)
    requires s != [] && NoEdgeWs(s)
    ensures forall p :: p in SplitWs(s) ==> p != []
    decreases |s|
  {
    var i := FirstWs(s);
    if i == |s| {
      assert SplitWs(s) == [s];
    } else {
      var j := SplitRest(s);
      SplitPiecesNonEmpty(s[j..]);
    }
  }

  /** The split of a text with whitespace inside, but not at its ends, is a
      non-empty word followed by the split of a shorter such text. */
  lemma SplitRest(s: string) returns (j: nat)
    requires s != [] && NoEdgeWs(s) && FirstWs(s) < |s|
    ensures 0 < FirstWs(s) < j < |s| && NoEdgeWs(s[j..])
    ensures SplitWs(s) == [s[..FirstWs(s)]] + SplitWs(s[j..])
    ensures Runs(s) == 1 + Runs(s[j..])
  {
    j := GapEnd(s);
    GapBounds(s);
    GapRuns(s);
  }

  /** The first whitespace run of such a text starts after its first
      character and ends before its last one. */
  lemma GapBounds(s: string)
    requires s != [] && NoEdgeWs(s) && FirstWs(s) < |s|
    ensures 0 < FirstWs(s) && GapEnd(s) < |s| && NoEdgeWs(s[GapEnd(s)..])
  {
    var i := FirstWs(s);
    var rest := s[i..];
    var n := FirstNonWs(rest);
    var j := GapEnd(s);
    assert 0 < i by { assert !IsWs(s[0]); }
    assert n < |rest| by {
      assert rest[|rest| - 1] == s[|s| - 1];
    }
    assert NoEdgeWs(s[j..]) by {
      assert s[j..][0] == rest[n];
    }
  }

  /** The runs of such a text are its first word and the runs after the gap. */
  lemma GapRuns(s: string)
    requires s != [] && NoEdgeWs(s) && FirstWs(s) < |s|
    ensures Runs(s) == 1 + Runs(s[GapEnd(s)..])
  {
    GapBounds(s);
    var i := FirstWs(s);
    var rest := s[i..];
    var n := FirstNonWs(rest);
    var j := GapEnd(s);
    assert Runs(s) == 1 + RunsAfter(rest, false) by {
      RunsOverWord(s, i, true);
    }
    assert RunsAfter(rest, false) == Runs(s[j..]) by {
      RunsOverSpace(rest, n, false);
      assert rest[n..] == s[j..];
    }
  }

  /** Words separated by single spaces. */
  function JoinWords(ws: seq<string>): string {
    if ws == [] then []
    else if |ws| == 1 then ws[0]
    else ws[0] + " " + JoinWords(ws[1..])
  }

  /** Non-empty words without whitespace. */
  predicate AreWords(ws: seq<string>) {
    forall i :: 0 <= i < |ws| ==> ws[i] != [] && NoWs(ws[i])
  }

  lemma {:induction false} FirstWsAfterWord(w: string, t: string)
    requires NoWs(w) && (t == [] || IsWs(t[0]))
    ensures FirstWs(w + t) == |w|
    decreases |w|
  {
    if w == [] {
      assert w + t == t;
    } else {
      assert (w + t)[1..] == w[1..] + t;
      FirstWsAfterWord(w[1..], t);
    }
  }

  /** Splitting a word, one space and a text that starts with no whitespace
      splits off the word. */
  lemma SplitAfterWord(w: string, rest: string)
    requires w != [] && NoWs(w) && rest != [] && NoEdgeWs(rest)
    ensures SplitWs(w + " " + rest) == [w] + SplitWs(rest)
    ensures NoEdgeWs(w + " " + rest)
  {
    var s := w + " " + rest;
    WordSpaceParts(w, rest);
  }

  /** Where the word, the space and the rest sit in `w + " " + rest`. */
  lemma WordSpaceParts(w: string, rest: string)
    requires w != [] && NoWs(w) && rest != [] && NoEdgeWs(rest)
    ensures var s := w + " " + rest;
      && FirstWs(s) == |w| < |s| && GapEnd(s) == |w| + 1
      && s[..|w|] == w && s[|w| + 1..] == rest
      && NoEdgeWs(s)
  {
    var s := w + " " + rest;
    assert FirstWs(s) == |w| by {
      assert s == w + (" " + rest);
      FirstWsAfterWord(w, " " + rest);
    }
    assert FirstNonWs(s[|w|..]) == 1 by {
      assert s[|w|..] == " " + rest;
      assert (" " + rest)[1..] == rest;
    }
    assert s[..|w|] == w && s[|w| + 1..] == rest;
    assert NoEdgeWs(s) by {
      assert s[0] == w[0] && s[|s| - 1] == rest[|rest| - 1];
    }
  }

  /** `split(/\s+/)` undoes joining words with single spaces. */
  lemma {:induction false} SplitJoin(ws: seq<string>)
    requires ws != [] && AreWords(ws)
    ensures SplitWs(JoinWords(ws)) == ws
    ensures NoEdgeWs(JoinWords(ws)) && JoinWords(ws) != []
    decreases |ws|
  {
    if |ws| == 1 {
      FirstWsAfterWord(ws[0], []);
      assert ws[0] + [] == ws[0];
    } else {
      assert AreWords(ws[1..]) by {
        assert forall i :: 0 <= i < |ws| - 1 ==> ws[1..][i] == ws[i + 1];
      }
      SplitJoin(ws[1..]);
      SplitAfterWord(ws[0], JoinWords(ws[1..]));
      assert ws == [ws[0]] + ws[1..];
    }
  }
}
