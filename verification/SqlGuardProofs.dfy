/** What the guard's rewriting passes can and cannot create. */
module SqlGuardProofs {
  import opened Text
  import opened SqlComments
  import opened SqlGuard

  // ---- LIMIT clauses --------------------------------------------------------------------------

  /** The whole rest of the text from p on is one LIMIT clause. */
  predicate EndsInLimit(s: string, p: int) {
    LimitAt(s, p) && LimitEnd(s, p) == |s|
  }

  /** The checked statement has no LIMIT clause at its very end, so one gets appended. */
  ghost predicate LacksFinalLimit(s: string) {
    forall p :: !EndsInLimit(s, p)
  }

  lemma LimitLetters(s: string, p: int)
    requires LimitAt(s, p)
    ensures forall i | p <= i < p + 5 :: IsWord(s[i])
    ensures s[p] in {'l', 'L'}
    ensures forall i | p + 5 <= i < NumberStart(s, p) :: IsSpace(s[i])
    ensures forall i | NumberStart(s, p) <= i < LimitEnd(s, p) :: IsDigit(s[i])
  {
  }

  /** Two LIMIT clauses never overlap. */
  lemma LimitsAreDisjoint(s: string, p: int, q: int)
    requires LimitAt(s, p) && LimitAt(s, q) && p < q
    ensures LimitEnd(s, p) <= q
  {
    LimitLetters(s, p);
    LimitLetters(s, q);
    assert !IsWord(s[q - 1]);
  }

  /** So scanning left to right finds every one of them, in increasing order. */
  lemma {:induction false} ScanFindsAll(s: string, from: nat, p: int)
    requires from <= p && LimitAt(s, p)
    ensures p in LimitMatches(s, from)
    decreases |s| - from
  {
    if from == p {
      assert LimitMatches(s, from)[0] == p;
    } else if LimitAt(s, from) {
      LimitsAreDisjoint(s, from, p);
      ScanFindsAll(s, LimitEnd(s, from), p);
    } else {
      ScanFindsAll(s, from + 1, p);
    }
  }

  lemma {:induction false} ScanIsIncreasing(s: string, from: nat)
    requires from <= |s|
    ensures forall m | m in LimitMatches(s, from) :: from <= m
    ensures forall i, j | 0 <= i < j < |LimitMatches(s, from)| :: LimitMatches(s, from)[i] < LimitMatches(s, from)[j]
    decreases |s| - from
  {
    hide LimitAt, LimitEnd;
    if from == |s| {
    } else if LimitAt(s, from) {
      LimitEndsLater(s, from);
      ScanIsIncreasing(s, LimitEnd(s, from));
      var rest, ms := LimitMatches(s, LimitEnd(s, from)), LimitMatches(s, from);
      assert ms == [from] + rest;
      forall i, j | 0 <= i < j < |ms| ensures ms[i] < ms[j] {
        assert rest[j - 1] in rest;
        assert i > 0 ==> ms[i] == rest[i - 1];
      }
    } else {
      ScanIsIncreasing(s, from + 1);
    }
  }

  lemma LimitEndsLater(s: string, p: nat)
    requires LimitAt(s, p)
    ensures 0 <= p <= |s| - 5 && p < LimitEnd(s, p) <= |s|
  {
  }

  /** The last match of the scan is the final clause whenever there is one. */
  lemma LastMatchIsFinal(s: string, p: int)
    requires EndsInLimit(s, p)
    ensures LimitMatches(s, 0) != [] && LimitMatches(s, 0)[|LimitMatches(s, 0)| - 1] == p
  {
    var ms := LimitMatches(s, 0);
    ScanFindsAll(s, 0, p);
    ScanIsIncreasing(s, 0);
    var last := ms[|ms| - 1];
    if p < last {
      LimitsAreDisjoint(s, p, last);
    } else if last < p {
      var k :| 0 <= k < |ms| && ms[k] == p;
    }
  }

  /** On a checked statement the row limit keeps or lowers the final LIMIT when there is one. */
  lemma EnforceKeepsOrLowers(stmt: string, limit: nat, p: int)
    requires IsSingle(stmt) && limit > 0 && EndsInLimit(stmt, p)
    ensures EnforceRowLimit(stmt, limit)
            == Accepted(if LimitValue(stmt, p) > limit then stmt[..p] + LimitClause(limit) else stmt)
  {
    NothingToTrim(stmt);
    LastMatchIsFinal(stmt, p);
    EnforceByLastMatch(stmt, limit, p);
    RelimitFinal(stmt, p, limit);
  }

  lemma EnforceByLastMatch(stmt: string, limit: nat, last: int)
    requires limit > 0 && TrimRightOf(TrimRight(stmt), ';') == stmt
    requires LimitMatches(stmt, 0) != [] && LimitMatches(stmt, 0)[|LimitMatches(stmt, 0)| - 1] == last
    ensures LimitAt(stmt, last) && EnforceRowLimit(stmt, limit) == Accepted(Relimited(stmt, stmt, last, limit))
  {
    assert last in LimitMatches(stmt, 0);
  }

  lemma RelimitFinal(stmt: string, p: nat, limit: nat)
    requires EndsInLimit(stmt, p)
    ensures Relimited(stmt, stmt, p, limit)
            == if LimitValue(stmt, p) > limit then stmt[..p] + LimitClause(limit) else stmt
  {
    DropAll(stmt, |stmt|);
    AppendNothing(stmt[..p] + LimitClause(limit), stmt[|stmt|..]);
  }

  /** Otherwise one LIMIT clause is appended. */
  lemma EnforceAppends(stmt: string, limit: nat)
    requires IsSingle(stmt) && limit > 0 && LacksFinalLimit(stmt)
    ensures EnforceRowLimit(stmt, limit) == Accepted(stmt + " " + LimitClause(limit))
  {
    NothingToTrim(stmt);
    var ms := LimitMatches(stmt, 0);
    if ms != [] {
      var last := ms[|ms| - 1];
      assert last in ms && !EndsInLimit(stmt, last);
      EnforceByLastMatch(stmt, limit, last);
      var tail := stmt[LimitEnd(stmt, last)..];
      SolidTailSurvivesTrimming(tail);
    }
  }

  lemma NothingToTrim(stmt: string)
    requires IsSingle(stmt)
    ensures TrimRightOf(TrimRight(stmt), ';') == stmt
  {
    assert stmt[|stmt| - 1] in stmt;
  }

  lemma SolidTailSurvivesTrimming(tail: string)
    requires tail != "" && !IsSpace(tail[|tail| - 1]) && ';' !in tail
    ensures Trim(TrimRightOf(Trim(tail), ';')) != ""
  {
    var t := Trim(tail);
    if t == "" {
      EmptyTrimIsBlank(tail);
    } else {
      var from := TrimSlice(tail);
      assert t[|t| - 1] == tail[from + |t| - 1];
      assert TrimRightOf(t, ';') == t;
      TrimOfTrimmed(t);
    }
  }

  // ---- What a lowered or appended clause leaves alone -----------------------------------------

  /** The part in front of a new clause: the statement up to its final LIMIT, or all of it and a space. */
  ghost predicate CutBefore(stmt: string, prefix: string) {
    && prefix != "" && prefix <= stmt + " "
    && !IsWord(prefix[|prefix| - 1])
    && (prefix == stmt + " " || LimitAt(stmt, |prefix|))
  }

  lemma ClauseLetters(limit: nat)
    ensures
      var c := LimitClause(limit);
      && |c| > 6 && Lower(c)[..6] == "limit " && c[..6] == "LIMIT "
      && (forall i | 6 <= i < |c| :: IsDigit(c[i]) && Lower(c)[i] == c[i])
  {
    var c := LimitClause(limit);
    assert Lower(c)[..6] == "limit ";
  }

  lemma LowerKeepsWords(s: string)
    ensures forall i | 0 <= i < |s| :: IsWord(Lower(s)[i]) == IsWord(s[i])
  {
  }

  lemma PlainSuffixStaysCommentFree(s: string, suffix: string)
    requires CommentFree(s) && forall c | c in suffix :: c !in {'-', '/', '*'}
    ensures CommentFree(s + suffix)
  {
    var t := s + suffix;
    forall i, a, b | PairAt(t, i, a, b) && a in {'-', '/', '*'} && b in {'-', '/', '*'}
      ensures PairAt(s, i, a, b)
    {
      assert forall k | |s| <= k < |t| :: t[k] in suffix;
    }
  }

  lemma NewClauseMakesAStatement(stmt: string, prefix: string, limit: nat)
    requires IsStatement(stmt) && CutBefore(stmt, prefix)
    ensures IsStatement(prefix + LimitClause(limit))
  {
    var c := LimitClause(limit);
    ClauseLetters(limit);
    PlainSuffixStaysCommentFree(stmt, " ");
    SliceStaysCommentFree(stmt + " ", 0, |prefix|);
    assert (stmt + " ")[0..|prefix|] == prefix;
    forall x | x in c ensures x !in {'-', '/', '*', ';'} {
      var i :| 0 <= i < |c| && c[i] == x;
      assert i < 6 ==> x == c[..6][i];
    }
    PlainSuffixStaysCommentFree(prefix, c);
    assert forall x | x in prefix :: x in stmt + " ";
    assert prefix[0] == (stmt + " ")[0] == stmt[0];
  }

  // ---- Keywords -------------------------------------------------------------------------------

  /** No keyword starts like the new clause, and none has a gap followed by one. */
  predicate Foreign(keyword: string) {
    && keyword != "" && IsWord(keyword[0]) && keyword[0] != 'l' && !IsDigit(keyword[0])
    && IsWord(keyword[|keyword| - 1])
    && forall j | 0 <= j < |keyword| - 1 :: !IsWord(keyword[j]) ==> keyword[j + 1] != 'l'
  }

  lemma KeywordsAreForeign(keyword: string)
    requires keyword in FORBIDDEN
    ensures Foreign(keyword)
  {
    hide Foreign;
    var i :| 0 <= i < |FORBIDDEN| && FORBIDDEN[i] == keyword;
    if i < 5 {
      EarlyKeyword(i);
    } else if i < 10 {
      MiddleKeyword(i);
    } else {
      LateKeyword(i);
    }
  }

  lemma EarlyKeyword(i: nat)
    requires i < 5
    ensures Foreign(FORBIDDEN[i])
  {
  }

  lemma MiddleKeyword(i: nat)
    requires 5 <= i < 10
    ensures Foreign(FORBIDDEN[i])
  {
  }

  lemma LateKeyword(i: nat)
    requires 10 <= i < |FORBIDDEN|
    ensures Foreign(FORBIDDEN[i])
  {
  }

  /** A keyword found once the clause is added lies wholly, with its boundaries, in front of it. */
  lemma KeywordLiesBefore(t: string, clause: string, keyword: string, i: nat)
    requires t != "" && !IsWord(t[|t| - 1]) && Foreign(keyword)
    requires |clause| > 6 && clause[..6] == "limit " && forall k | 6 <= k < |clause| :: IsDigit(clause[k])
    requires KeywordAt(t + clause, keyword, i)
    ensures i + |keyword| < |t| && KeywordAt(t, keyword, i)
  {
    var s, n := t + clause, |keyword|;
    MatchCharacters(s, keyword, i);
    assert forall k | 0 <= k < 6 :: s[|t| + k] == clause[..6][k] == "limit "[k];
    assert forall k | |t| + 6 <= k < |s| :: IsDigit(s[k]);
    assert forall k | |t| <= k < |t| + 5 :: IsWord(s[k]);
    assert s[|t| + 5] == ' ' && s[i] == keyword[0];
    assert i < |t|;
    assert !IsWord(s[|t| - 1]) && s[|t|] == 'l';
    assert i + n < |t|;
    assert t[i..i + n] == s[i..i + n];
  }

  lemma MatchCharacters(s: string, pattern: string, i: nat)
    requires MatchesAt(s, pattern, i)
    ensures forall k {:trigger s[k]} | i <= k < i + |pattern| :: s[k] == pattern[k - i]
  {
    assert forall k {:trigger s[k]} | i <= k < i + |pattern| :: s[k] == s[i..i + |pattern|][k - i];
  }

  lemma NewClauseAddsNoKeyword(stmt: string, prefix: string, limit: nat, keyword: string)
    requires CutBefore(stmt, prefix) && keyword in FORBIDDEN
    requires HasKeyword(Lower(prefix + LimitClause(limit)), keyword)
    ensures HasKeyword(Lower(stmt), keyword)
  {
    hide HasKeyword, Foreign, LimitClause;
    var t, c := Lower(prefix), Lower(LimitClause(limit));
    LowerConcat(prefix, LimitClause(limit));
    ClauseLetters(limit);
    KeywordsAreForeign(keyword);
    LowerKeepsWords(prefix);
    LowerConcat(stmt, " ");
    assert t <= Lower(stmt + " ") && Lower(" ") == " ";
    KeywordFallsBack(Lower(stmt), t, c, keyword);
  }

  lemma KeywordFallsBack(low: string, t: string, clause: string, keyword: string)
    requires t != "" && t <= low + " " && !IsWord(t[|t| - 1]) && Foreign(keyword)
    requires |clause| > 6 && clause[..6] == "limit " && forall k | 6 <= k < |clause| :: IsDigit(clause[k])
    requires HasKeyword(t + clause, keyword)
    ensures HasKeyword(low, keyword)
  {
    var i :| 0 <= i <= |t + clause| - |keyword| && KeywordAt(t + clause, keyword, i);
    KeywordLiesBefore(t, clause, keyword, i);
    KeywordInPrefix(low, t, keyword, i);
  }

  lemma KeywordInPrefix(low: string, t: string, keyword: string, i: nat)
    requires t <= low + " " && KeywordAt(t, keyword, i) && i + |keyword| < |t|
    ensures HasKeyword(low, keyword)
  {
    var n := |keyword|;
    assert low[i..i + n] == t[i..i + n];
    assert i > 0 ==> low[i - 1] == t[i - 1];
    assert i + n < |low| ==> low[i + n] == t[i + n];
    assert KeywordAt(low, keyword, i);
  }

  // ---- First word -----------------------------------------------------------------------------

  lemma {:induction false} WordEndAgrees(a: string, b: string, from: nat, end: nat)
    requires from <= end < |a| && end < |b| && a[..end + 1] == b[..end + 1]
    requires WordEnd(a, from) == end
    ensures WordEnd(b, from) == end
    decreases end - from
  {
    assert a[from] == a[..end + 1][from] == b[..end + 1][from] == b[from];
    if from == end {
    } else {
      WordEndAgrees(a, b, from + 1, end);
    }
  }

  lemma {:induction false} WordEndWithSpace(s: string, from: nat)
    requires from <= |s|
    ensures WordEnd(s + " ", from) == WordEnd(s, from)
    decreases |s| - from
  {
    if from < |s| && !IsSpace(s[from]) {
      WordEndWithSpace(s, from + 1);
    }
  }

  lemma AllowedStartsLackLimit(word: string, p: nat)
    requires word in ALLOWED_STARTS && p + 3 <= |word|
    ensures !(word[p] == 'l' && word[p + 1] == 'i' && word[p + 2] == 'm')
  {
  }

  lemma FirstWordEndsBeforeLimit(stmt: string, p: nat)
    requires LimitAt(stmt, p) && FirstWord(stmt) in ALLOWED_STARTS
    ensures WordEnd(stmt, 0) < p
  {
    var end := WordEnd(stmt, 0);
    LimitLetters(stmt, p);
    assert p <= end ==> p + 5 <= end;
    if p + 5 <= end {
      AllowedStartsLackLimit(FirstWord(stmt), p);
    }
  }

  lemma NewClauseKeepsFirstWord(stmt: string, prefix: string, limit: nat)
    requires CutBefore(stmt, prefix) && FirstWord(stmt) in ALLOWED_STARTS
    ensures FirstWord(prefix + LimitClause(limit)) == FirstWord(stmt)
  {
    var padded, out, end := stmt + " ", prefix + LimitClause(limit), WordEnd(stmt, 0);
    WordEndWithSpace(stmt, 0);
    if prefix != padded {
      FirstWordEndsBeforeLimit(stmt, |prefix|);
    }
    assert padded[..end + 1] == prefix[..end + 1] == out[..end + 1];
    WordEndAgrees(padded, out, 0, end);
    assert out[..end] == padded[..end] == stmt[..end];
  }

  // ---- Tables ---------------------------------------------------------------------------------

  lemma {:induction false} TokenEndInConcat(a: string, b: string, from: nat)
    requires from <= |a| && (b == "" || !InToken(b[0]))
    ensures TokenEnd(a + b, from) == TokenEnd(a, from)
    decreases |a| - from
  {
    if from < |a| && InToken(a[from]) {
      TokenEndInConcat(a, b, from + 1);
    }
  }

  lemma {:induction false} TokensOfConcat(a: string, b: string)
    requires b == "" || !InToken(b[0])
    ensures Tokens(a + b) == Tokens(a) + Tokens(b)
    decreases |a|
  {
    if a == "" {
      assert a + b == b;
    } else if StartsToken(a[0]) {
      var end := TokenEnd(a, 1);
      TokenEndInConcat(a, b, 1);
      assert (a + b)[..end] == a[..end] && (a + b)[end..] == a[end..] + b;
      TokensOfConcat(a[end..], b);
    } else {
      assert (a + b)[1..] == a[1..] + b;
      TokensOfConcat(a[1..], b);
    }
  }

  lemma {:induction false} NoTokens(s: string)
    requires forall i | 0 <= i < |s| :: !StartsToken(s[i])
    ensures Tokens(s) == {}
  {
    if s == "" {
    } else {
      NoTokens(s[1..]);
    }
  }

  lemma TokensOfBareLimit()
    ensures Tokens(" limit") == Tokens("limit") == {"limit"}
  {
    assert " limit"[1..] == "limit";
    var s := "limit";
    assert TokenEnd(s, 5) == 5 && TokenEnd(s, 4) == 5 && TokenEnd(s, 3) == 5;
    assert TokenEnd(s, 2) == 5 && TokenEnd(s, 1) == 5;
    assert s[..5] == s && s[5..] == "";
  }

  /** Of the digits and spaces that follow, nothing is a token. */
  lemma TokensUpToWord(head: string, tail: string)
    requires tail != "" && IsSpace(tail[0]) && forall i | 0 <= i < |tail| :: IsSpace(tail[i]) || IsDigit(tail[i])
    ensures Tokens(head + tail) == Tokens(head)
  {
    TokensOfConcat(head, tail);
    NoTokens(tail);
  }

  lemma TokensOfBareLimitAfter(low: string, tail: string)
    requires tail != "" && IsSpace(tail[0]) && forall i | 0 <= i < |tail| :: IsSpace(tail[i]) || IsDigit(tail[i])
    ensures Tokens(low + " " + ("limit" + tail)) == Tokens(low) + {"limit"}
  {
    hide Tokens;
    assert low + " " + ("limit" + tail) == (low + " limit") + tail;
    TokensUpToWord(low + " limit", tail);
    TokensOfConcat(low, " limit");
    TokensOfBareLimit();
  }

  /** In lower case the clause is the word, a space and digits. */
  lemma ClauseTail(limit: nat) returns (tail: string)
    ensures Lower(LimitClause(limit)) == "limit" + tail
    ensures tail != "" && IsSpace(tail[0]) && forall i | 0 <= i < |tail| :: IsSpace(tail[i]) || IsDigit(tail[i])
  {
    hide LimitClause;
    ClauseLetters(limit);
    var c := Lower(LimitClause(limit));
    tail := c[5..];
    assert c[..5] == c[..6][..5] == "limit" && c == c[..5] + tail;
    assert tail[0] == c[..6][5];
  }

  /** Appending a clause adds exactly the token `limit`. */
  lemma TokensAfterAppending(stmt: string, limit: nat)
    ensures Tokens(Lower(stmt + " " + LimitClause(limit))) == Tokens(Lower(stmt)) + {"limit"}
  {
    hide Tokens, LimitClause;
    var tail := ClauseTail(limit);
    TokensOfBareLimitAfter(Lower(stmt), tail);
    LowerConcat(stmt + " ", LimitClause(limit));
    LowerConcat(stmt, " ");
    assert Lower(" ") == " ";
  }

  lemma FinalTail(stmt: string, p: nat) returns (tail: string)
    requires EndsInLimit(stmt, p)
    ensures Lower(stmt) == Lower(stmt[..p]) + "limit" + tail
    ensures tail != "" && IsSpace(tail[0]) && forall i | 0 <= i < |tail| :: IsSpace(tail[i]) || IsDigit(tail[i])
  {
    LimitLetters(stmt, p);
    tail := Lower(stmt)[p + 5..];
    assert Lower(stmt) == Lower(stmt[..p]) + "limit" + tail;
  }

  /** Lowering the final clause changes no token. */
  lemma TokensAfterLowering(stmt: string, p: nat, limit: nat)
    requires EndsInLimit(stmt, p)
    ensures Tokens(Lower(stmt[..p] + LimitClause(limit))) == Tokens(Lower(stmt))
  {
    hide Tokens, LimitClause;
    var tail := ClauseTail(limit);
    var was := FinalTail(stmt, p);
    var head := Lower(stmt[..p]) + "limit";
    LowerConcat(stmt[..p], LimitClause(limit));
    assert Lower(stmt[..p]) + ("limit" + tail) == head + tail;
    TokensUpToWord(head, tail);
    TokensUpToWord(head, was);
  }

  lemma MatchLiesBefore(head: string, tail: string, pattern: string, i: nat)
    requires pattern != "" && pattern[|pattern| - 1] !in tail && MatchesAt(head + tail, pattern, i)
    ensures MatchesAt(head, pattern, i)
  {
    var s, n := head + tail, |pattern|;
    MatchCharacters(s, pattern, i);
    assert forall k | |head| <= k < |s| :: s[k] in tail;
    assert s[i + n - 1] == pattern[n - 1];
    assert i + n <= |head|;
    assert head[i..i + n] == s[i..i + n];
  }

  lemma QuotesAreNotInClause(limit: nat, q: char)
    requires q in {'\'', '"'}
    ensures q !in Lower(LimitClause(limit))
  {
    ClauseLetters(limit);
    var c := Lower(LimitClause(limit));
    forall i | 0 <= i < |c| ensures c[i] != q {
      assert i < 6 ==> c[i] == c[..6][i];
    }
  }

  /** A quoted name ends in a quote, so it cannot reach into the new clause. */
  lemma MatchesInLonger(s: string, rest: string, pattern: string, i: nat)
    requires MatchesAt(s, pattern, i)
    ensures MatchesAt(s + rest, pattern, i)
  {
    assert (s + rest)[i..i + |pattern|] == s[i..i + |pattern|];
  }

  lemma NewClauseAddsNoQuotedName(stmt: string, prefix: string, limit: nat, quoted: string)
    requires CutBefore(stmt, prefix)
    requires quoted != "" && quoted[|quoted| - 1] in {'\'', '"'}
    requires Contains(Lower(prefix + LimitClause(limit)), quoted)
    ensures Contains(Lower(stmt), quoted)
  {
    hide LimitClause, LimitAt;
    var c := Lower(LimitClause(limit));
    LowerConcat(prefix, LimitClause(limit));
    LowerConcat(stmt, " ");
    var i :| 0 <= i <= |Lower(prefix) + c| - |quoted| && MatchesAt(Lower(prefix) + c, quoted, i);
    QuotesAreNotInClause(limit, quoted[|quoted| - 1]);
    MatchLiesBefore(Lower(prefix), c, quoted, i);
    var rest := Lower(stmt + " ")[|prefix|..];
    assert Lower(stmt + " ") == Lower(prefix) + rest;
    MatchesInLonger(Lower(prefix), rest, quoted, i);
    assert Lower(" ") == " ";
    MatchLiesBefore(Lower(stmt), " ", quoted, i);
  }

  /** A token: a maximal run from its first possible starting character on. */
  predicate TokenSpan(s: string, i: nat, j: nat) {
    && i < j <= |s| && StartsToken(s[i])
    && (forall k | i <= k < j :: InToken(s[k]))
    && (j == |s| || !InToken(s[j]))
    && forall k | 0 <= k < i && StartsToken(s[k]) :: exists m :: k < m < i && !InToken(s[m])
  }

  predicate HasToken(s: string, t: string) {
    exists i, j :: 0 <= i < j <= |s| && TokenSpan(s, i, j) && s[i..j] == t
  }

  lemma SpanMovesLeft(s: string, n: nat, i: nat, j: nat)
    requires n <= i < j <= |s| && TokenSpan(s, i, j)
    ensures TokenSpan(s[n..], i - n, j - n) && s[n..][i - n..j - n] == s[i..j]
  {
    forall k | 0 <= k < i - n && StartsToken(s[n..][k]) ensures exists m :: k < m < i - n && !InToken(s[n..][m]) {
      assert StartsToken(s[k + n]);
      var m :| k + n < m < i && !InToken(s[m]);
      assert !InToken(s[n..][m - n]);
    }
  }

  lemma SpanMovesRight(s: string, n: nat, i: nat, j: nat)
    requires n <= |s| && TokenSpan(s[n..], i, j)
    requires forall k | 0 <= k < n && StartsToken(s[k]) :: exists m :: k < m < i + n && !InToken(s[m])
    ensures TokenSpan(s, i + n, j + n) && s[i + n..j + n] == s[n..][i..j]
  {
    forall k | 0 <= k < i + n && StartsToken(s[k]) ensures exists m :: k < m < i + n && !InToken(s[m]) {
      if k >= n {
        assert StartsToken(s[n..][k - n]);
        var m :| k - n < m < i && !InToken(s[n..][m]);
        assert !InToken(s[m + n]);
      }
    }
    assert forall k | i + n <= k < j + n :: s[k] == s[n..][k - n];
  }

  /** The scan of the table check finds exactly the tokens. */
  lemma {:induction false} TokensAreExact(s: string, t: string)
    ensures t in Tokens(s) <==> HasToken(s, t)
    decreases |s|
  {
    if s == "" {
    } else {
      var n := if StartsToken(s[0]) then TokenEnd(s, 1) else 1;
      TokensAreExact(s[n..], t);
      hide TokenSpan, HasToken;
      if HasToken(s, t) {
        FirstTokenOrLater(s, t, n);
      }
      if HasToken(s[n..], t) {
        LaterToken(s, t, n);
      }
      if StartsToken(s[0]) && t == s[..n] {
        FirstToken(s, n);
      }
    }
  }

  lemma FirstTokenOrLater(s: string, t: string, n: nat)
    requires s != "" && n == (if StartsToken(s[0]) then TokenEnd(s, 1) else 1) && HasToken(s, t)
    ensures (StartsToken(s[0]) && t == s[..n]) || HasToken(s[n..], t)
  {
    var i, j :| 0 <= i < j <= |s| && TokenSpan(s, i, j) && s[i..j] == t;
    if i == 0 {
      assert j == n && s[0..n] == s[..n];
    } else {
      SpanStartsBeyond(s, n, i, j);
      SpanMovesLeft(s, n, i, j);
    }
  }

  lemma LaterToken(s: string, t: string, n: nat)
    requires s != "" && n == (if StartsToken(s[0]) then TokenEnd(s, 1) else 1) && HasToken(s[n..], t)
    ensures HasToken(s, t)
  {
    var i, j :| 0 <= i < j <= |s[n..]| && TokenSpan(s[n..], i, j) && s[n..][i..j] == t;
    assert StartsToken(s[0]) ==> i > 0 && !InToken(s[n]);
    SpanMovesRight(s, n, i, j);
  }

  lemma FirstToken(s: string, n: nat)
    requires s != "" && StartsToken(s[0]) && n == TokenEnd(s, 1)
    ensures HasToken(s, s[..n])
  {
    assert TokenSpan(s, 0, n) && s[0..n] == s[..n];
  }

  lemma SpanStartsBeyond(s: string, n: nat, i: nat, j: nat)
    requires s != "" && n == (if StartsToken(s[0]) then TokenEnd(s, 1) else 1)
    requires 0 < i < j <= |s| && TokenSpan(s, i, j)
    ensures n <= i
  {
    if StartsToken(s[0]) {
      var m :| 0 < m < i && !InToken(s[m]);
    }
  }

  // ---- The whole pass -------------------------------------------------------------------------

  /** What a statement has to satisfy, apart from the limit. */
  ghost predicate Harmless(stmt: string, blacklist: seq<string>) {
    && IsStatement(stmt)
    && FirstWord(stmt) in ALLOWED_STARTS
    && (forall k | k in FORBIDDEN :: !HasKeyword(Lower(stmt), k))
    && (forall t | t in blacklist :: BlacklistName(t) == "" || !Mentions(Lower(stmt), BlacklistName(t)))
  }

  /** Acceptance, exactly: one harmless statement and a positive limit. The second stripping changes nothing. */
  lemma ValidateAccepts(sql: string, limit: int, blacklist: seq<string>)
    ensures Validate(sql, limit, blacklist).Accepted?
            <==> limit > 0 && |Statements(sql)| == 1 && Harmless(Statements(sql)[0], blacklist)
    ensures Validate(sql, limit, blacklist).Accepted?
            ==> Validate(sql, limit, blacklist) == EnforceRowLimit(Statements(sql)[0], limit)
  {
    hide Statements, StripComments, CommentFree, HasKeyword, Mentions, FirstWord, Lower, BlacklistName;
    hide LimitMatches, Relimited, TrimRight, TrimRightOf, Trimmed;
    StatementsAreStatements(sql);
    if |Statements(sql)| == 1 {
      var stmt := Statements(sql)[0];
      assert stmt in Statements(sql);
      StripIsIdentityOnNormalForm(stmt);
    }
  }

  /**
   * Whatever the guard lets through is harmless and ends in a LIMIT no higher than allowed. It names nothing
   * on the blacklist but `limit`, and that exactly when the clause was appended.
   */
  lemma AcceptedShape(sql: string, limit: int, blacklist: seq<string>, out: string)
    requires Validate(sql, limit, blacklist) == Accepted(out)
    ensures limit > 0 && |Statements(sql)| == 1
    ensures IsStatement(out) && FirstWord(out) in ALLOWED_STARTS
    ensures forall k | k in FORBIDDEN :: !HasKeyword(Lower(out), k)
    ensures forall t | t in blacklist && BlacklistName(t) != "" ::
              Mentions(Lower(out), BlacklistName(t))
              <==> BlacklistName(t) == "limit" && LacksFinalLimit(Statements(sql)[0])
    ensures exists p :: EndsInLimit(out, p) && LimitValue(out, p) <= limit
                        && OnlyTheLimitDiffers(Statements(sql)[0], out, p, limit)
  {
    hide Validate, EnforceRowLimit, Statements, LimitClause, LimitAt, LimitEnd;
    hide FirstWord, HasKeyword, Mentions, CommentFree;
    ValidateAccepts(sql, limit, blacklist);
    var stmt := Statements(sql)[0];
    if p :| EndsInLimit(stmt, p) {
      EnforceKeepsOrLowers(stmt, limit, p);
      FinalLimitIsALimit(stmt, p);
      if LimitValue(stmt, p) > limit {
        CutAtFinalLimit(stmt, p);
        NewClauseIsHarmless(stmt, stmt[..p], limit);
        NewClauseEnds(stmt, stmt[..p], limit);
      } else {
        assert OnlyTheLimitDiffers(stmt, out, p, limit);
      }
    } else {
      EnforceAppends(stmt, limit);
      NewClauseIsHarmless(stmt, stmt + " ", limit);
      NewClauseEnds(stmt, stmt + " ", limit);
    }
    forall t | t in blacklist && BlacklistName(t) != ""
      ensures Mentions(Lower(out), BlacklistName(t)) <==> BlacklistName(t) == "limit" && LacksFinalLimit(stmt)
    {
      MentionsAfterEnforcing(stmt, limit, out, BlacklistName(t));
    }
  }

  /** Enforcing the limit brings in the name `limit` when it appends a clause, and no other name ever. */
  lemma MentionsAfterEnforcing(stmt: string, limit: nat, out: string, name: string)
    requires IsSingle(stmt) && FirstWord(stmt) in ALLOWED_STARTS && limit > 0
    requires EnforceRowLimit(stmt, limit) == Accepted(out) && !Mentions(Lower(stmt), name)
    ensures Mentions(Lower(out), name) <==> name == "limit" && LacksFinalLimit(stmt)
  {
    hide EnforceRowLimit, LimitClause, LimitAt, LimitEnd, FirstWord, Mentions, IsSingle;
    if p :| EndsInLimit(stmt, p) {
      EnforceKeepsOrLowers(stmt, limit, p);
      FinalLimitIsALimit(stmt, p);
      if LimitValue(stmt, p) > limit {
        CutAtFinalLimit(stmt, p);
        MentionsAfterNewClause(stmt, stmt[..p], limit, name);
      }
    } else {
      EnforceAppends(stmt, limit);
      MentionsAfterNewClause(stmt, stmt + " ", limit, name);
    }
  }

  /** Kept as it was; or the number of the final LIMIT lowered; or one LIMIT appended where none was final. */
  ghost predicate OnlyTheLimitDiffers(stmt: string, out: string, p: nat, limit: nat)
    requires p <= |out|
  {
    || out == stmt
    || (EndsInLimit(stmt, p) && LimitValue(stmt, p) > limit && out == stmt[..p] + LimitClause(limit))
    || (LacksFinalLimit(stmt) && p == |stmt| + 1 && out == stmt + " " + LimitClause(limit))
  }

  lemma FinalLimitIsALimit(stmt: string, p: int)
    requires EndsInLimit(stmt, p)
    ensures 0 <= p <= |stmt|
  {
  }

  lemma CutAtFinalLimit(stmt: string, p: nat)
    requires EndsInLimit(stmt, p) && FirstWord(stmt) in ALLOWED_STARTS
    ensures CutBefore(stmt, stmt[..p])
  {
    FirstWordEndsBeforeLimit(stmt, p);
    assert stmt[..p] <= stmt + " ";
  }

  lemma NewClauseIsHarmless(stmt: string, prefix: string, limit: nat)
    requires Harmless(stmt, []) && CutBefore(stmt, prefix)
    ensures Harmless(prefix + LimitClause(limit), [])
  {
    NewClauseMakesAStatement(stmt, prefix, limit);
    NewClauseKeepsFirstWord(stmt, prefix, limit);
    forall k | k in FORBIDDEN ensures !HasKeyword(Lower(prefix + LimitClause(limit)), k) {
      if HasKeyword(Lower(prefix + LimitClause(limit)), k) {
        NewClauseAddsNoKeyword(stmt, prefix, limit, k);
      }
    }
  }

  /** The new clause is itself the final LIMIT and carries exactly the limit. */
  lemma NewClauseEnds(stmt: string, prefix: string, limit: nat)
    requires CutBefore(stmt, prefix)
    ensures EndsInLimit(prefix + LimitClause(limit), |prefix|)
    ensures LimitValue(prefix + LimitClause(limit), |prefix|) == limit
  {
    ClauseScans(prefix, NatToString(limit));
    ParsePrinted(limit);
  }

  lemma ClauseScans(prefix: string, digits: string)
    requires prefix != "" && !IsWord(prefix[|prefix| - 1]) && digits != "" && AllDigits(digits)
    ensures
      var out := prefix + ("LIMIT " + digits);
      EndsInLimit(out, |prefix|) && LimitValue(out, |prefix|) == ParseNat(digits)
  {
    hide ParseNat, SpacesEnd, DigitsEnd;
    var out, p := prefix + ("LIMIT " + digits), |prefix|;
    ClauseCharacters(prefix, digits);
    OneSpace(out, p + 5);
    RunOfDigits(out, p + 6);
  }

  lemma ClauseCharacters(prefix: string, digits: string)
    requires AllDigits(digits)
    ensures
      var out, p := prefix + ("LIMIT " + digits), |prefix|;
      && (p > 0 ==> out[p - 1] == prefix[p - 1])
      && out[p] == 'L' && out[p + 1] == 'I' && out[p + 2] == 'M' && out[p + 3] == 'I' && out[p + 4] == 'T'
      && out[p + 5] == ' ' && out[p + 6..] == digits == out[p + 6..|out|]
      && forall k | p + 6 <= k < |out| :: IsDigit(out[k])
  {
    hide IsDigit;
    var out, p := prefix + ("LIMIT " + digits), |prefix|;
    forall k | p + 6 <= k < |out| ensures out[k] == digits[k - p - 6] {}
  }

  lemma OneSpace(s: string, i: nat)
    requires i + 1 < |s| && IsSpace(s[i]) && !IsSpace(s[i + 1])
    ensures SpacesEnd(s, i) == i + 1
  {
  }

  lemma {:induction false} RunOfDigits(s: string, from: nat)
    requires from <= |s| && forall k | from <= k < |s| :: IsDigit(s[k])
    ensures DigitsEnd(s, from) == |s|
    decreases |s| - from
  {
    if from == |s| {
    } else {
      RunOfDigits(s, from + 1);
    }
  }

  /** Names mentioned after a new clause: the old ones, and `limit` when the clause was appended. */
  lemma MentionsAfterNewClause(stmt: string, prefix: string, limit: nat, name: string)
    requires CutBefore(stmt, prefix) && (prefix == stmt + " " || EndsInLimit(stmt, |prefix|))
    requires !Mentions(Lower(stmt), name)
    ensures Mentions(Lower(prefix + LimitClause(limit)), name) <==> prefix == stmt + " " && name == "limit"
  {
    var out := Lower(prefix + LimitClause(limit));
    if prefix == stmt + " " {
      TokensAfterAppending(stmt, limit);
    } else {
      assert stmt[..|prefix|] == (stmt + " ")[..|prefix|] == prefix;
      TokensAfterLowering(stmt, |prefix|, limit);
    }
    var d, s := "\"" + name + "\"", "'" + name + "'";
    assert d[|d| - 1] == '"' && s[|s| - 1] == '\'';
    if Contains(out, d) {
      NewClauseAddsNoQuotedName(stmt, prefix, limit, d);
    }
    if Contains(out, s) {
      NewClauseAddsNoQuotedName(stmt, prefix, limit, s);
    }
  }

  /** The blacklist names the word that an appended clause brings in. */
  ghost predicate BlacklistsLimit(blacklist: seq<string>) {
    exists t :: t in blacklist && BlacklistName(t) == "limit"
  }

  /** Validating an accepted result again gives it back, except when LIMIT was appended and is blacklisted. */
  lemma ValidateIsIdempotent(sql: string, limit: int, blacklist: seq<string>, out: string)
    requires Validate(sql, limit, blacklist) == Accepted(out)
    ensures |Statements(sql)| == 1
    ensures Validate(out, limit, blacklist) == Accepted(out)
            <==> !(LacksFinalLimit(Statements(sql)[0]) && BlacklistsLimit(blacklist))
  {
    hide Validate, EnforceRowLimit, Statements, LimitClause, LimitAt, LimitEnd;
    hide FirstWord, HasKeyword, Mentions, CommentFree;
    ValidateAccepts(sql, limit, blacklist);
    var stmt := Statements(sql)[0];
    if p :| EndsInLimit(stmt, p) {
      EnforceKeepsOrLowers(stmt, limit, p);
      FinalLimitIsALimit(stmt, p);
      if LimitValue(stmt, p) > limit {
        CutAtFinalLimit(stmt, p);
        RevalidateNewClause(stmt, stmt[..p], limit, blacklist);
      } else {
        StatementsOfStatement(stmt);
        ValidateAccepts(stmt, limit, blacklist);
      }
    } else {
      EnforceAppends(stmt, limit);
      RevalidateNewClause(stmt, stmt + " ", limit, blacklist);
    }
  }

  lemma RevalidateNewClause(stmt: string, prefix: string, limit: nat, blacklist: seq<string>)
    requires limit > 0 && Harmless(stmt, blacklist) && CutBefore(stmt, prefix)
    requires prefix == stmt + " " || EndsInLimit(stmt, |prefix|)
    ensures
      var out := prefix + LimitClause(limit);
      Validate(out, limit, blacklist) == Accepted(out) <==> !(prefix == stmt + " " && BlacklistsLimit(blacklist))
  {
    var out := prefix + LimitClause(limit);
    HarmlessAfterNewClause(stmt, prefix, limit, blacklist);
    NewClauseIsHarmless(stmt, prefix, limit);
    StatementsOfStatement(out);
    ValidateAccepts(out, limit, blacklist);
    NewClauseEnds(stmt, prefix, limit);
    EnforceKeepsOrLowers(out, limit, |prefix|);
  }

  lemma HarmlessAfterNewClause(stmt: string, prefix: string, limit: nat, blacklist: seq<string>)
    requires Harmless(stmt, blacklist) && CutBefore(stmt, prefix)
    requires prefix == stmt + " " || EndsInLimit(stmt, |prefix|)
    ensures Harmless(prefix + LimitClause(limit), blacklist)
            <==> !(prefix == stmt + " " && BlacklistsLimit(blacklist))
  {
    NewClauseIsHarmless(stmt, prefix, limit);
    forall t | t in blacklist && BlacklistName(t) != ""
      ensures Mentions(Lower(prefix + LimitClause(limit)), BlacklistName(t))
              <==> prefix == stmt + " " && BlacklistName(t) == "limit"
    {
      MentionsAfterNewClause(stmt, prefix, limit, BlacklistName(t));
    }
  }

  lemma ShowOneFirstWord()
    ensures FirstWord("show 1") == "show"
  {
    var s := "show 1";
    assert WordEnd(s, 4) == 4 && WordEnd(s, 3) == 4 && WordEnd(s, 2) == 4 && WordEnd(s, 1) == 4;
    assert s[..4] == "show";
  }

  lemma ShowOneHasNoKeyword(keyword: string)
    requires keyword in FORBIDDEN
    ensures !HasKeyword("show 1", keyword)
  {
    var s := "show 1";
    KeywordsAreForeign(keyword);
    assert keyword[0] !in s;
    forall i | 0 <= i <= |s| - |keyword| ensures !KeywordAt(s, keyword, i) {
      assert s[i..i + |keyword|][0] == s[i];
    }
  }

  lemma ShowOneIsAStatement()
    ensures IsStatement("show 1") && LacksFinalLimit("show 1") && Lower("show 1") == "show 1"
  {
    var s := "show 1";
    assert forall i | 0 <= i < |s| :: s[i] !in {'-', '/', '*', ';'};
  }

  lemma LimitNamesItself()
    ensures BlacklistName("limit") == "limit"
  {
    TrimOfTrimmed("limit");
    assert Lower("limit") == "limit";
  }

  lemma ShowOneIsHarmless()
    ensures Harmless("show 1", ["limit"])
  {
    ShowOneFirstWord();
    ShowOneIsAStatement();
    forall k | k in FORBIDDEN { ShowOneHasNoKeyword(k); }
    ShowOneMentionsNothing();
    LimitNamesItself();
  }

  lemma ShowOneMentionsNothing()
    ensures !Mentions("show 1", "limit")
  {
    ShowOneTokens();
    QuotedIsNowhere("show 1", "\"" + "limit" + "\"", '"');
    QuotedIsNowhere("show 1", "'" + "limit" + "'", '\'');
  }

  lemma ShowOneTokens()
    ensures Tokens("show 1") == {"show"}
  {
    var s := "show 1";
    assert TokenEnd(s, 4) == 4 && TokenEnd(s, 3) == 4 && TokenEnd(s, 2) == 4 && TokenEnd(s, 1) == 4;
    assert s[..4] == "show";
    NoTokens(s[4..]);
  }

  lemma QuotedIsNowhere(s: string, quoted: string, q: char)
    requires quoted != "" && quoted[0] == q && q !in s
    ensures !Contains(s, quoted)
  {
    forall i | 0 <= i <= |s| - |quoted| ensures !MatchesAt(s, quoted, i) {
      assert s[i..i + |quoted|][0] == s[i];
    }
  }

  /** A concrete query on which the exception bites. */
  lemma AppendedLimitMeetsBlacklist()
    ensures Validate("show 1", 5, ["limit"]) == Accepted("show 1 LIMIT 5")
    ensures Validate("show 1 LIMIT 5", 5, ["limit"]) != Accepted("show 1 LIMIT 5")
  {
    var s, blacklist := "show 1", ["limit"];
    ShowOneIsHarmless();
    ShowOneIsAStatement();
    StatementsOfStatement(s);
    ValidateAccepts(s, 5, blacklist);
    EnforceAppends(s, 5);
    ShowOneLimited();
    LimitNamesItself();
    assert "limit" in blacklist;
    ValidateIsIdempotent(s, 5, blacklist, "show 1 LIMIT 5");
  }

  lemma ShowOneLimited()
    ensures "show 1" + " " + LimitClause(5) == "show 1 LIMIT 5"
  {
    assert NatToString(5) == "5";
  }
}
