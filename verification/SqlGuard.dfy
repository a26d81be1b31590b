/** The SQL guard: statement type, forbidden keywords and tables, and the row limit. */
module SqlGuard {
  import opened Text
  import opened SqlComments

  datatype GuardError =
    | EmptyStatement
    | MultipleStatements
    | StatementNotAllowed(word: string)
    | KeywordForbidden(keyword: string)
    | TableForbidden(table: string)
    | BadRowLimit

  datatype Verdict = Accepted(sql: string) | Rejected(error: GuardError)

  /** In the order they are tried: single words alphabetically, then the one phrase. */
  const FORBIDDEN: seq<string> :=
    ["alter", "attach", "create", "delete", "detach", "drop", "grant", "insert", "merge",
     "reindex", "revoke", "truncate", "update", "vacuum", "replace into"]

  const ALLOWED_STARTS: set<string> := {"select", "with", "explain", "show", "pragma", "values"}

  // ---- Keywords -------------------------------------------------------------------------------

  predicate BoundaryBefore(s: string, i: nat)
    requires i <= |s|
  {
    i == 0 || !IsWord(s[i - 1])
  }

  predicate BoundaryAfter(s: string, i: nat)
    requires i <= |s|
  {
    i == |s| || !IsWord(s[i])
  }

  /** The keyword stands at i as a whole word. */
  predicate KeywordAt(s: string, keyword: string, i: int) {
    MatchesAt(s, keyword, i) && BoundaryBefore(s, i) && BoundaryAfter(s, i + |keyword|)
  }

  predicate HasKeyword(s: string, keyword: string) {
    exists i :: 0 <= i <= |s| - |keyword| && KeywordAt(s, keyword, i)
  }

  function FirstForbidden(s: string, keywords: seq<string>): (r: Option<string>)
    ensures r.None? <==> forall k | k in keywords :: !HasKeyword(s, k)
    ensures r.Some? ==> r.value in keywords && HasKeyword(s, r.value)
  {
    if keywords == [] then None
    else if HasKeyword(s, keywords[0]) then Some(keywords[0])
    else FirstForbidden(s, keywords[1..])
  }

  /** The leading run of non-space characters of an already trimmed statement. */
  function WordEnd(s: string, from: nat): (r: nat)
    requires from <= |s|
    ensures from <= r <= |s| && (r < |s| ==> IsSpace(s[r]))
    ensures forall i | from <= i < r :: !IsSpace(s[i])
    decreases |s| - from
  {
    if from == |s| || IsSpace(s[from]) then from else WordEnd(s, from + 1)
  }

  function FirstWord(s: string): string { Lower(s[..WordEnd(s, 0)]) }

  function CheckReadOnly(sql: string): Verdict {
    var statements := Statements(sql);
    if statements == [] then Rejected(EmptyStatement)
    else if |statements| > 1 then Rejected(MultipleStatements)
    else
      var stmt := statements[0];
      if FirstWord(stmt) !in ALLOWED_STARTS then Rejected(StatementNotAllowed(FirstWord(stmt)))
      else
        var forbidden := FirstForbidden(Lower(stmt), FORBIDDEN);
        if forbidden.Some? then Rejected(KeywordForbidden(forbidden.value)) else Accepted(stmt)
  }

  // ---- Blacklisted tables ---------------------------------------------------------------------

  predicate StartsToken(c: char) { 'a' <= c <= 'z' || c == '_' }

  predicate InToken(c: char) { StartsToken(c) || IsDigit(c) || c == '.' }

  function TokenEnd(s: string, from: nat): (r: nat)
    requires from <= |s|
    ensures from <= r <= |s| && (r < |s| ==> !InToken(s[r]))
    ensures forall i | from <= i < r :: InToken(s[i])
    decreases |s| - from
  {
    if from == |s| || !InToken(s[from]) then from else TokenEnd(s, from + 1)
  }

  /** The identifier-like tokens of lower-cased text. */
  function Tokens(s: string): set<string>
    decreases |s|
  {
    if s == "" then {}
    else if StartsToken(s[0]) then
      var end := TokenEnd(s, 1);
      {s[..end]} + Tokens(s[end..])
    else Tokens(s[1..])
  }

  /** The name occurs as a token, or in double or single quotes. */
  predicate Mentions(cleaned: string, name: string) {
    || name in Tokens(cleaned)
    || Contains(cleaned, "\"" + name + "\"")
    || Contains(cleaned, "'" + name + "'")
  }

  function BlacklistName(entry: string): string { Lower(Trim(entry)) }

  function FirstMentioned(cleaned: string, blacklist: seq<string>): (r: Option<string>)
    ensures r.None? <==> forall t | t in blacklist :: BlacklistName(t) == "" || !Mentions(cleaned, BlacklistName(t))
  {
    if blacklist == [] then None
    else
      var name := BlacklistName(blacklist[0]);
      if name != "" && Mentions(cleaned, name) then Some(blacklist[0])
      else FirstMentioned(cleaned, blacklist[1..])
  }

  function CheckForbiddenTables(sql: string, blacklist: seq<string>): Verdict {
    var mentioned := FirstMentioned(Lower(StripComments(sql)), blacklist);
    if mentioned.Some? then Rejected(TableForbidden(mentioned.value)) else Accepted(sql)
  }

  // ---- The row limit --------------------------------------------------------------------------

  function DigitsEnd(s: string, from: nat): (r: nat)
    requires from <= |s|
    ensures from <= r <= |s| && (r < |s| ==> !IsDigit(s[r]))
    ensures forall i | from <= i < r :: IsDigit(s[i])
    decreases |s| - from
  {
    if from == |s| || !IsDigit(s[from]) then from else DigitsEnd(s, from + 1)
  }

  /** The word LIMIT, in any case, not preceded by a word character, then spaces, then digits. */
  predicate LimitAt(s: string, i: int) {
    && 0 <= i <= |s| - 5
    && BoundaryBefore(s, i)
    && LowerChar(s[i]) == 'l' && LowerChar(s[i + 1]) == 'i' && LowerChar(s[i + 2]) == 'm'
    && LowerChar(s[i + 3]) == 'i' && LowerChar(s[i + 4]) == 't'
    && NumberStart(s, i) > i + 5
    && LimitEnd(s, i) > NumberStart(s, i)
  }

  function NumberStart(s: string, i: int): nat
    requires 0 <= i <= |s| - 5
  {
    SpacesEnd(s, i + 5)
  }

  function LimitEnd(s: string, i: int): nat
    requires 0 <= i <= |s| - 5
  {
    DigitsEnd(s, NumberStart(s, i))
  }

  function LimitValue(s: string, i: int): nat
    requires LimitAt(s, i)
  {
    ParseNat(s[NumberStart(s, i)..LimitEnd(s, i)])
  }

  /** Left to right, non-overlapping, as `finditer` finds them. */
  function LimitMatches(s: string, from: nat): (r: seq<nat>)
    requires from <= |s|
    ensures forall m | m in r :: LimitAt(s, m)
    decreases |s| - from
  {
    if from == |s| then []
    else if LimitAt(s, from) then [from] + LimitMatches(s, LimitEnd(s, from))
    else LimitMatches(s, from + 1)
  }

  function LimitClause(limit: nat): string { "LIMIT " + NatToString(limit) }

  function EnforceRowLimit(sql: string, limit: int): Verdict {
    if limit <= 0 then Rejected(BadRowLimit)
    else
      var body := TrimRightOf(TrimRight(sql), ';');
      var matches := LimitMatches(body, 0);
      if matches == [] then Accepted(body + " " + LimitClause(limit))
      else
        var last := matches[|matches| - 1];
        assert last in matches;
        Accepted(Relimited(sql, body, last, limit))
  }

  /** What follows the last LIMIT clause, once spaces and a trailing semicolon are dropped. */
  function AfterLimit(sql: string, end: nat): string
    requires end <= |sql|
  {
    Trim(TrimRightOf(Trim(sql[end..]), ';'))
  }

  /** Appends a clause when the last one is not final, lowers it when too high, keeps it otherwise. */
  function Relimited(sql: string, body: string, last: nat, limit: nat): string
    requires body <= sql && LimitAt(body, last)
  {
    var end := LimitEnd(body, last);
    if AfterLimit(sql, end) != "" then body + " " + LimitClause(limit)
    else if LimitValue(body, last) > limit then sql[..last] + LimitClause(limit) + sql[end..]
    else sql
  }

  function Validate(sql: string, limit: int, blacklist: seq<string>): Verdict {
    var readOnly := CheckReadOnly(sql);
    if readOnly.Rejected? then readOnly
    else
      var tables := CheckForbiddenTables(readOnly.sql, blacklist);
      if tables.Rejected? then tables else EnforceRowLimit(tables.sql, limit)
  }
}
