/** ASCII text primitives: the parts of Python's `str` and `re` that the modelled code relies on. */
module Text {

  datatype Option<+T> = None | Some(value: T)

  predicate IsSpace(c: char) { 9 <= c as int <= 13 || 28 <= c as int <= 32 }

  predicate IsDigit(c: char) { '0' <= c <= '9' }

  predicate IsWord(c: char) { 'a' <= c <= 'z' || 'A' <= c <= 'Z' || IsDigit(c) || c == '_' }

  function LowerChar(c: char): char {
    if 'A' <= c <= 'Z' then (c as int + 32) as char else c
  }

  function Lower(s: string): (r: string)
    ensures |r| == |s| && forall i | 0 <= i < |s| :: r[i] == LowerChar(s[i])
  {
    seq(|s|, i requires 0 <= i < |s| => LowerChar(s[i]))
  }

  lemma LowerConcat(a: string, b: string)
    ensures Lower(a + b) == Lower(a) + Lower(b)
  {
  }

  predicate MatchesAt(s: string, pattern: string, i: int) {
    0 <= i <= |s| - |pattern| && s[i..i + |pattern|] == pattern
  }

  predicate Contains(s: string, pattern: string) {
    exists i :: 0 <= i <= |s| - |pattern| && MatchesAt(s, pattern, i)
  }

  /** The first index at or after `from` of the character, or the length. */
  function IndexOf(s: string, from: nat, c: char): (r: nat)
    requires from <= |s|
    ensures from <= r <= |s| && (r < |s| ==> s[r] == c)
    ensures forall i | from <= i < r :: s[i] != c
    decreases |s| - from
  {
    if from == |s| || s[from] == c then from else IndexOf(s, from + 1, c)
  }

  /** The end of the whitespace that starts at `from`. */
  function SpacesEnd(s: string, from: nat): (r: nat)
    requires from <= |s|
    ensures from <= r <= |s| && (r < |s| ==> !IsSpace(s[r]))
    ensures forall i | from <= i < r :: IsSpace(s[i])
    decreases |s| - from
  {
    if from == |s| || !IsSpace(s[from]) then from else SpacesEnd(s, from + 1)
  }

  /** No whitespace at either end. */
  predicate Trimmed(s: string) {
    s == "" || (!IsSpace(s[0]) && !IsSpace(s[|s| - 1]))
  }

  predicate Blank(s: string) { forall i | 0 <= i < |s| :: IsSpace(s[i]) }

  function TrimRight(s: string): (r: string)
    ensures r <= s
  {
    if s == "" || !IsSpace(s[|s| - 1]) then s else TrimRight(s[..|s| - 1])
  }

  function TrimLeft(s: string): (r: string)
    ensures |r| <= |s|
  {
    if s == "" || !IsSpace(s[0]) then s else TrimLeft(s[1..])
  }

  lemma {:induction false} TrimRightCuts(s: string)
    ensures TrimRight(s) == "" || !IsSpace(TrimRight(s)[|TrimRight(s)| - 1])
    ensures Blank(s[|TrimRight(s)|..])
  {
    if s == "" || !IsSpace(s[|s| - 1]) {
    } else {
      TrimRightCuts(s[..|s| - 1]);
      var k, n := |TrimRight(s)|, |s| - 1;
      assert s[k..] == s[..n][k..] + [s[n]];
    }
  }

  lemma {:induction false} TrimLeftCuts(s: string)
    ensures TrimLeft(s) == "" || !IsSpace(TrimLeft(s)[0])
    ensures TrimLeft(s) == s[|s| - |TrimLeft(s)|..] && Blank(s[..|s| - |TrimLeft(s)|])
  {
    if s == "" || !IsSpace(s[0]) {
    } else {
      TrimLeftCuts(s[1..]);
      var k := |s| - |TrimLeft(s)|;
      assert s[k..] == s[1..][k - 1..];
      forall i | 0 < i < k ensures IsSpace(s[i]) {
        assert s[i] == s[1..][..k - 1][i - 1];
      }
    }
  }

  /** Python's `str.strip`. */
  function Trim(s: string): string { TrimRight(TrimLeft(s)) }

  /** The trimmed text is a slice of the original, and only whitespace is cut off. */
  lemma TrimSlice(s: string) returns (from: nat)
    ensures from + |Trim(s)| <= |s| && Trim(s) == s[from..from + |Trim(s)|]
    ensures Blank(s[..from]) && Blank(s[from + |Trim(s)|..])
    ensures Trimmed(Trim(s))
  {
    var left := TrimLeft(s);
    TrimLeftCuts(s);
    TrimRightCuts(left);
    from := |s| - |left|;
    var n := |Trim(s)|;
    assert Trim(s) == left[..n] == s[from..from + n];
    assert left[n..] == s[from + n..];
  }

  lemma EmptyTrimIsBlank(s: string)
    requires Trim(s) == ""
    ensures Blank(s)
  {
    var left := TrimLeft(s);
    TrimLeftCuts(s);
    TrimRightCuts(left);
    assert left[0..] == left && Blank(left);
    assert left == "";
    assert s[..|s|] == s;
  }

  lemma TrimOfTrimmed(s: string)
    requires Trimmed(s)
    ensures Trim(s) == s
  {
  }

  function TrimRightOf(s: string, c: char): (r: string)
    ensures r <= s
  {
    if s == "" || s[|s| - 1] != c then s else TrimRightOf(s[..|s| - 1], c)
  }

  lemma AppendNothing(a: string, b: string)
    requires b == ""
    ensures a + b == a
  {
  }

  lemma DropAll(s: string, n: nat)
    requires n == |s|
    ensures s[n..] == "" && s[..n] == s
  {
  }

  // ---- The order of code points, SQLite's and Python's ----------------------------------------

  predicate LexLeq(a: string, b: string) {
    a == "" || (b != "" && (a[0] < b[0] || (a[0] == b[0] && LexLeq(a[1..], b[1..]))))
  }

  lemma {:induction false} LexTotal(a: string, b: string)
    ensures LexLeq(a, b) || LexLeq(b, a)
  {
    if a != "" && b != "" {
      LexTotal(a[1..], b[1..]);
    }
  }

  lemma {:induction false} LexTransitive(a: string, b: string, c: string)
    requires LexLeq(a, b) && LexLeq(b, c)
    ensures LexLeq(a, c)
  {
    if a != "" && a[0] == b[0] && b[0] == c[0] {
      LexTransitive(a[1..], b[1..], c[1..]);
    }
  }

  lemma {:induction false} LexAntisymmetric(a: string, b: string)
    requires LexLeq(a, b) && LexLeq(b, a)
    ensures a == b
  {
    if a == "" {
    } else {
      LexAntisymmetric(a[1..], b[1..]);
      assert a == [a[0]] + a[1..] && b == [b[0]] + b[1..];
    }
  }

  // ---- Decimal numbers ------------------------------------------------------------------------

  predicate AllDigits(s: string) { forall i | 0 <= i < |s| :: IsDigit(s[i]) }

  function ParseNat(s: string): nat
    requires AllDigits(s)
  {
    if s == "" then 0
    else ParseNat(s[..|s| - 1]) * 10 + (s[|s| - 1] as int - '0' as int)
  }

  function NatToString(n: nat): (r: string)
    ensures r != "" && AllDigits(r)
  {
    if n < 10 then ['0' + n as char] else NatToString(n / 10) + ['0' + (n % 10) as char]
  }

  lemma {:induction false} ParsePrinted(n: nat)
    ensures ParseNat(NatToString(n)) == n
  {
    if n < 10 {
      assert NatToString(n)[..0] == "";
    } else {
      ParsePrinted(n / 10);
      var r := NatToString(n);
      assert r[..|r| - 1] == NatToString(n / 10);
    }
  }
}
