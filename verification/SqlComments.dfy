/** Comment removal and statement splitting, the first passes of the SQL guard. */
module SqlComments {
  import opened Text

  predicate PairAt(s: string, i: int, a: char, b: char) {
    0 <= i < |s| - 1 && s[i] == a && s[i + 1] == b
  }

  predicate HasPair(s: string, a: char, b: char) {
    exists i :: 0 <= i < |s| && PairAt(s, i, a, b)
  }

  /** Where the first closing mark at or after `from` starts, or the length when there is none. */
  function ClosingMark(s: string, from: nat): (r: nat)
    requires from <= |s|
    ensures from <= r <= |s|
    ensures r < |s| ==> PairAt(s, r, '*', '/')
    ensures forall i | from <= i < r :: !PairAt(s, i, '*', '/')
    decreases |s| - from
  {
    if from == |s| || PairAt(s, from, '*', '/') then from else ClosingMark(s, from + 1)
  }

  predicate StartsLineComment(s: string) { PairAt(s, 0, '-', '-') }

  /** An opening mark counts only when it is closed further on; an unclosed one stays in the text. */
  predicate StartsBlockComment(s: string) { PairAt(s, 0, '/', '*') && ClosingMark(s, 2) < |s| }

  /** The length of the comment at the start of s; a line comment leaves its newline behind. */
  function CommentLength(s: string): (n: nat)
    requires StartsLineComment(s) || StartsBlockComment(s)
    ensures 2 <= n <= |s|
  {
    if StartsLineComment(s) then IndexOf(s, 2, '\n') else ClosingMark(s, 2) + 2
  }

  /** Every comment becomes one space. */
  function StripComments(s: string): string
    decreases |s|
  {
    if s == "" then ""
    else if StartsLineComment(s) || StartsBlockComment(s) then " " + StripComments(s[CommentLength(s)..])
    else [s[0]] + StripComments(s[1..])
  }

  /** The normal form: no line-comment mark, and no opening mark with a closing mark after it. */
  ghost predicate CommentFree(s: string) {
    && (forall i :: !PairAt(s, i, '-', '-'))
    && (forall i, j :: PairAt(s, i, '/', '*') && PairAt(s, j, '*', '/') ==> j < i + 2)
  }

  lemma PairShift(s: string, n: nat, i: int, a: char, b: char)
    requires n <= |s|
    ensures PairAt(s[n..], i, a, b) ==> PairAt(s, i + n, a, b)
    ensures i >= n && PairAt(s, i, a, b) ==> PairAt(s[n..], i - n, a, b)
  {
  }

  /** Stripping creates no pair of marks: what is adjacent afterwards was adjacent before. */
  lemma {:induction false} StripKeepsFirst(s: string, c: char)
    requires StripComments(s) != "" && StripComments(s)[0] == c && c != ' '
    ensures s != "" && s[0] == c && !StartsLineComment(s) && !StartsBlockComment(s)
    ensures StripComments(s) == [c] + StripComments(s[1..])
  {
  }

  lemma {:induction false} StripCreatesNoPair(s: string, i: nat, a: char, b: char)
    requires a != ' ' && b != ' '
    requires PairAt(StripComments(s), i, a, b)
    ensures HasPair(s, a, b)
    decreases |s|
  {
    var r := StripComments(s);
    if i == 0 {
      StripKeepsFirst(s, a);
      StripKeepsFirst(s[1..], b);
      assert PairAt(s, 0, a, b);
    } else {
      var n := if StartsLineComment(s) || StartsBlockComment(s) then CommentLength(s) else 1;
      assert r[1..] == StripComments(s[n..]);
      PairShift(r, 1, i, a, b);
      StripCreatesNoPair(s[n..], i - 1, a, b);
      var k :| 0 <= k < |s[n..]| && PairAt(s[n..], k, a, b);
      PairShift(s, n, k, a, b);
      assert PairAt(s, k + n, a, b);
    }
  }

  /** One pass reaches the normal form. */
  lemma {:induction false} StripReachesNormalForm(s: string)
    ensures CommentFree(StripComments(s))
    decreases |s|
  {
    var r := StripComments(s);
    if s == "" {
    } else {
      var comment := StartsLineComment(s) || StartsBlockComment(s);
      var n := if comment then CommentLength(s) else 1;
      var rest := StripComments(s[n..]);
      StripReachesNormalForm(s[n..]);
      assert r[1..] == rest;
      forall i ensures !PairAt(r, i, '-', '-') {
        PairShift(r, 1, i, '-', '-');
        if PairAt(r, 0, '-', '-') {
          StripKeepsFirst(s, '-');
          StripKeepsFirst(s[1..], '-');
        }
      }
      forall i, j | PairAt(r, i, '/', '*') && PairAt(r, j, '*', '/') ensures j < i + 2 {
        PairShift(r, 1, i, '/', '*');
        PairShift(r, 1, j, '*', '/');
        if i == 0 && j >= 2 {
          OpeningMarkStaysUnclosed(s, j);
        }
      }
    }
  }

  lemma NoMarkBeyond(s: string)
    requires |s| >= 2 && ClosingMark(s, 2) == |s|
    ensures !HasPair(s[2..], '*', '/')
  {
    forall k | 0 <= k < |s[2..]| ensures !PairAt(s[2..], k, '*', '/') {
      PairShift(s, 2, k, '*', '/');
      assert !PairAt(s, k + 2, '*', '/');
    }
  }

  lemma OpeningMarkStaysUnclosed(s: string, j: nat)
    requires PairAt(StripComments(s), 0, '/', '*') && j >= 2
    ensures !PairAt(StripComments(s), j, '*', '/')
  {
    var r := StripComments(s);
    StripKeepsFirst(s, '/');
    StripKeepsFirst(s[1..], '*');
    assert PairAt(s, 0, '/', '*');
    assert r[2..] == StripComments(s[2..]) by { assert s[1..][1..] == s[2..]; }
    NoMarkBeyond(s);
    PairShift(r, 2, j, '*', '/');
    if PairAt(r[2..], j - 2, '*', '/') {
      StripCreatesNoPair(s[2..], j - 2, '*', '/');
    }
  }

  /** Text in normal form is left alone. */
  lemma {:induction false} StripIsIdentityOnNormalForm(s: string)
    requires CommentFree(s)
    ensures StripComments(s) == s
    decreases |s|
  {
    if s == "" {
    } else {
      assert !StartsLineComment(s) && !StartsBlockComment(s);
      SliceStaysCommentFree(s, 1, |s|);
      assert s[1..|s|] == s[1..];
      StripIsIdentityOnNormalForm(s[1..]);
    }
  }

  lemma SliceStaysCommentFree(s: string, from: nat, to: nat)
    requires from <= to <= |s| && CommentFree(s)
    ensures CommentFree(s[from..to])
  {
    var t := s[from..to];
    forall i ensures PairAt(t, i, '-', '-') ==> PairAt(s, i + from, '-', '-') {}
    forall i ensures PairAt(t, i, '/', '*') ==> PairAt(s, i + from, '/', '*') {}
    forall i ensures PairAt(t, i, '*', '/') ==> PairAt(s, i + from, '*', '/') {}
  }

  /** Stripping twice, or stripping any slice of stripped text, changes nothing more. */
  lemma StripIsIdempotent(s: string, from: nat, to: nat)
    requires from <= to <= |StripComments(s)|
    ensures StripComments(StripComments(s)) == StripComments(s)
    ensures StripComments(StripComments(s)[from..to]) == StripComments(s)[from..to]
  {
    StripReachesNormalForm(s);
    StripIsIdentityOnNormalForm(StripComments(s));
    SliceStaysCommentFree(StripComments(s), from, to);
    StripIsIdentityOnNormalForm(StripComments(s)[from..to]);
  }

  // ---- Statements -----------------------------------------------------------------------------

  /** The trimmed, non-empty parts between semicolons. */
  function Pieces(s: string): seq<string>
    decreases |s|
  {
    var k := IndexOf(s, 0, ';');
    var head := Trim(s[..k]);
    (if head == "" then [] else [head]) + if k == |s| then [] else Pieces(s[k + 1..])
  }

  function Statements(sql: string): seq<string> { Pieces(StripComments(sql)) }

  /** Trimmed, not empty, free of semicolons. */
  predicate IsSingle(s: string) {
    s != "" && Trimmed(s) && ';' !in s
  }

  /** A single statement without comments. */
  ghost predicate IsStatement(s: string) { IsSingle(s) && CommentFree(s) }

  lemma TrimmedPartIsStatement(part: string)
    requires CommentFree(part) && ';' !in part && Trim(part) != ""
    ensures IsStatement(Trim(part))
  {
    var from := TrimSlice(part);
    SliceStaysCommentFree(part, from, from + |Trim(part)|);
  }

  lemma {:induction false} PiecesAreStatements(s: string)
    requires CommentFree(s)
    ensures forall p | p in Pieces(s) :: IsStatement(p)
    decreases |s|
  {
    var k := IndexOf(s, 0, ';');
    assert CommentFree(s[..k]) by {
      SliceStaysCommentFree(s, 0, k);
      assert s[0..k] == s[..k];
    }
    if Trim(s[..k]) == "" {
    } else {
      TrimmedPartIsStatement(s[..k]);
    }
    if k == |s| {
    } else {
      assert CommentFree(s[k + 1..]) by {
        SliceStaysCommentFree(s, k + 1, |s|);
        assert s[k + 1..|s|] == s[k + 1..];
      }
      PiecesAreStatements(s[k + 1..]);
    }
  }

  lemma StatementsOfStatement(s: string)
    requires IsStatement(s)
    ensures Statements(s) == [s]
  {
    StripIsIdentityOnNormalForm(s);
    var k := IndexOf(s, 0, ';');
    assert k == |s| && s[..k] == s;
    TrimOfTrimmed(s);
  }

  lemma StatementsAreStatements(sql: string)
    ensures forall p | p in Statements(sql) :: IsStatement(p)
  {
    StripReachesNormalForm(sql);
    PiecesAreStatements(StripComments(sql));
  }
}
