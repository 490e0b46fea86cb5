/** The string primitives the client relies on: JavaScript's `trim()`, the
    `\s` character class, `toLowerCase()`, `startsWith`, the last segment of
    `split('.')` and the decimal rendering of a number. */
module Text {

  /** The characters JavaScript's `\s` matches and `trim()` removes: the
      WhiteSpace and LineTerminator code points of ECMA-262. */
  predicate IsSpace(c: char) {
    || c == ' ' || c == '\t' || c == '\n' || c == '\U{B}' || c == '\U{C}' || c == '\r'
    || c == '\U{A0}' || c == '\U{1680}' || ('\U{2000}' <= c <= '\U{200A}')
    || c == '\U{2028}' || c == '\U{2029}' || c == '\U{202F}' || c == '\U{205F}'
    || c == '\U{3000}' || c == '\U{FEFF}'
  }

  predicate AllSpace(s: string) {
    forall i :: 0 <= i < |s| ==> IsSpace(s[i])
  }

  predicate NoSpace(s: string) {
    forall i :: 0 <= i < |s| ==> !IsSpace(s[i])
  }

  predicate IsUpper(c: char) {
    'A' <= c <= 'Z'
  }

  predicate NoUpper(s: string) {
    forall i :: 0 <= i < |s| ==> !IsUpper(s[i])
  }

  predicate StartsWith(s: string, prefix: string) {
    |prefix| <= |s| && s[..|prefix|] == prefix
  }

  /** The first position at or after `i` that holds no white space, or
      `|s|` when there is none. */
  function SkipSpaces(s: string, i: nat): (k: nat)
    requires i <= |s|
    ensures i <= k <= |s|
    ensures k < |s| ==> !IsSpace(s[k])
    decreases |s| - i
  {
    if i < |s| && IsSpace(s[i]) then SkipSpaces(s, i + 1) else i
  }

  /** Everything `SkipSpaces` passes over is white space. */
  lemma {:induction false} SkippedAreSpaces(s: string, i: nat)
    requires i <= |s|
    ensures forall j :: i <= j < SkipSpaces(s, i) ==> IsSpace(s[j])
    decreases |s| - i
  {
    if i < |s| && IsSpace(s[i]) {
      SkippedAreSpaces(s, i + 1);
    }
  }

  /** The end of the text before `i` once its trailing white space is
      dropped. */
  function SkipSpacesBack(s: string, i: nat): (k: nat)
    requires i <= |s|
    ensures k <= i
    ensures k > 0 ==> !IsSpace(s[k - 1])
  {
    if i > 0 && IsSpace(s[i - 1]) then SkipSpacesBack(s, i - 1) else i
  }

  /** Everything `SkipSpacesBack` passes over is white space. */
  lemma {:induction false} SkippedBackAreSpaces(s: string, i: nat)
    requires i <= |s|
    ensures forall j :: SkipSpacesBack(s, i) <= j < i ==> IsSpace(s[j])
  {
    if i > 0 && IsSpace(s[i - 1]) {
      SkippedBackAreSpaces(s, i - 1);
    }
  }

  /** Where `trim()` starts: the first non-space, or `|s|` when the text is
      blank. */
  function TrimStart(s: string): (a: nat)
    ensures a <= |s|
  {
    SkipSpaces(s, 0)
  }

  /** Where `trim()` ends: just after the last non-space, or `|s|` when the
      text is blank. */
  function TrimEnd(s: string): (b: nat)
    ensures b <= |s|
  {
    if TrimStart(s) == |s| then |s| else SkipSpacesBack(s, |s|)
  }

  /** The cut has only white space outside it and a non-space at each end
      of what it keeps; an already trimmed text is cut nowhere. */
  lemma TrimCut(s: string)
    ensures TrimStart(s) <= TrimEnd(s)
    ensures AllSpace(s[..TrimStart(s)]) && AllSpace(s[TrimEnd(s)..])
    ensures TrimStart(s) < TrimEnd(s) ==> !IsSpace(s[TrimStart(s)]) && !IsSpace(s[TrimEnd(s) - 1])
    ensures TrimStart(s) == TrimEnd(s) <==> AllSpace(s)
    ensures s != [] && !IsSpace(s[0]) && !IsSpace(s[|s| - 1]) ==> TrimStart(s) == 0 && TrimEnd(s) == |s|
  {
    var a := SkipSpaces(s, 0);
    SkippedAreSpaces(s, 0);
    SkippedBackAreSpaces(s, |s|);
    assert AllSpace(s[..a]);
    if a < |s| {
      var b := SkipSpacesBack(s, |s|);
      assert !IsSpace(s[a]);
      assert a < b;
      assert !AllSpace(s);
      assert AllSpace(s[b..]);
    } else {
      assert s[a..] == [];
    }
  }

  /** `s.trim()`: what is left is the text with a blank run cut off each end,
      it is empty exactly when the text is blank, otherwise it starts and ends
      with a non-space, and a text already in that form is kept. */
  function Trim(s: string): (r: string)
    ensures |r| <= |s|
    ensures r == [] <==> AllSpace(s)
    ensures r != [] ==> !IsSpace(r[0]) && !IsSpace(r[|r| - 1])
    ensures (s == [] || (!IsSpace(s[0]) && !IsSpace(s[|s| - 1]))) ==> r == s
  {
    TrimCut(s);
    var a, b := TrimStart(s), TrimEnd(s);
    var r := s[a..b];
    assert r != [] ==> r[0] == s[a] && r[|r| - 1] == s[b - 1];
    r
  }

  /** A window `s[a..b]` with only white space outside it. */
  lemma BlankCut(s: string, a: nat, b: nat, r: string)
    requires a <= b <= |s| && r == s[a..b]
    requires AllSpace(s[..a]) && AllSpace(s[b..])
    ensures exists k :: 0 <= k <= |s| - |r| && r == s[k..k + |r|] && AllSpace(s[..k]) && AllSpace(s[k + |r|..])
  {
    assert a + |r| == b;
  }

  /** What `trim()` keeps is a window of the text with only white space
      before and after it. */
  lemma TrimIsBlankCut(s: string)
    ensures var r := Trim(s);
            exists a :: 0 <= a <= |s| - |r| && r == s[a..a + |r|] && AllSpace(s[..a]) && AllSpace(s[a + |r|..])
  {
    TrimCut(s);
    BlankCut(s, TrimStart(s), TrimEnd(s), Trim(s));
  }

  function LowerChar(c: char): (r: char)
    ensures !IsUpper(r)
    ensures !IsUpper(c) ==> r == c
    ensures IsSpace(r) <==> IsSpace(c)
  {
    if IsUpper(c) then (c as int + 32) as char else c
  }

  /** `s.toLowerCase()` on the ASCII letters. */
  function ToLower(s: string): (r: string)
    ensures |r| == |s| && NoUpper(r)
    ensures forall i :: 0 <= i < |s| ==> r[i] == LowerChar(s[i])
  {
    if s == [] then [] else [LowerChar(s[0])] + ToLower(s[1..])
  }

  /** What `replace(/\s/g, '')` keeps of one character. */
  function KeepNonSpace(c: char): (r: string)
    ensures r == [] <==> IsSpace(c)
    ensures r != [] ==> r == [c]
  {
    if IsSpace(c) then [] else [c]
  }

  /** `s.replace(/\s/g, '')`. */
  function RemoveSpaces(s: string): (r: string)
    ensures |r| <= |s| && NoSpace(r)
    ensures forall i :: 0 <= i < |r| ==> r[i] in s
    ensures NoSpace(s) ==> r == s
  {
    if s == [] then [] else KeepNonSpace(s[0]) + RemoveSpaces(s[1..])
  }

  /** Every character that is not white space is kept as often as it occurs. */
  lemma {:induction false} RemoveSpacesKeepsOthers(s: string, c: char)
    requires !IsSpace(c)
    ensures multiset(RemoveSpaces(s))[c] == multiset(s)[c]
  {
    if s != [] {
      assert s == [s[0]] + s[1..];
      RemoveSpacesKeepsOthers(s[1..], c);
    }
  }

  /** Removing white space works piece by piece, so the characters kept stay
      in their order. */
  lemma {:induction false} RemoveSpacesConcat(a: string, b: string)
    ensures RemoveSpaces(a + b) == RemoveSpaces(a) + RemoveSpaces(b)
  {
    if a == [] {
      assert a + b == b;
    } else {
      assert (a + b)[0] == a[0] && (a + b)[1..] == a[1..] + b;
      RemoveSpacesConcat(a[1..], b);
    }
  }

  /** The position of the last '.' before `n`, or -1 when there is none. */
  function LastDotBefore(s: string, n: nat): (i: int)
    requires n <= |s|
    ensures -1 <= i < n
    ensures i >= 0 ==> s[i] == '.'
    ensures forall j :: i < j < n ==> s[j] != '.'
  {
    if n == 0 then -1
    else if s[n - 1] == '.' then n - 1
    else LastDotBefore(s, n - 1)
  }

  /** The position of the last '.', or -1 when there is none. */
  function LastDot(s: string): (i: int)
    ensures -1 <= i < |s|
    ensures i == -1 <==> '.' !in s
    ensures i >= 0 ==> s[i] == '.' && forall j :: i < j < |s| ==> s[j] != '.'
  {
    LastDotBefore(s, |s|)
  }

  /** The text after the last '.', or the whole text when it holds no '.':
      what `name.split('.').pop()` returns. */
  function AfterLastDot(s: string): (r: string)
    ensures '.' !in r
    ensures |r| <= |s| && r == s[|s| - |r|..]
    ensures |r| < |s| <==> '.' in s
    ensures |r| < |s| ==> s[|s| - |r| - 1] == '.'
  {
    var i := LastDot(s);
    if i == -1 then s else s[i + 1..]
  }

  predicate IsDigit(c: char) {
    '0' <= c <= '9'
  }

  /** The decimal rendering of a natural number, as a template literal prints it. */
  function Decimal(n: nat): (r: string)
    ensures |r| >= 1
    ensures forall i :: 0 <= i < |r| ==> IsDigit(r[i])
  {
    var last := ('0' as int + n % 10) as char;
    if n < 10 then [last] else Decimal(n / 10) + [last]
  }

  /** What the username inputs keep of a typed value:
      `value.toLowerCase().replace(/\s/g, '')`. */
  function SanitizeUsername(typed: string): (r: string)
    ensures NoSpace(r) && NoUpper(r) && |r| <= |typed|
  {
    RemoveSpaces(ToLower(typed))
  }

  /** Every lower-cased character that is not white space is kept as often
      as it occurs in the lower-cased input. */
  lemma SanitizeKeepsOthers(typed: string, c: char)
    requires !IsSpace(c)
    ensures multiset(SanitizeUsername(typed))[c] == multiset(ToLower(typed))[c]
  {
    RemoveSpacesKeepsOthers(ToLower(typed), c);
  }

  /** One typed character is kept lower-cased, or dropped when it is white space. */
  lemma SanitizeOneChar(c: char)
    ensures SanitizeUsername([c]) == if IsSpace(c) then [] else [LowerChar(c)]
  {
    assert ToLower([c]) == [LowerChar(c)];
    assert [LowerChar(c)][1..] == [];
  }

  /** Sanitising works piece by piece: with `SanitizeOneChar` this fixes the
      result as the lower-cased non-space characters of the input, in order. */
  lemma SanitizeConcat(a: string, b: string)
    ensures SanitizeUsername(a + b) == SanitizeUsername(a) + SanitizeUsername(b)
  {
    assert ToLower(a + b) == ToLower(a) + ToLower(b);
    RemoveSpacesConcat(ToLower(a), ToLower(b));
  }

  /** Re-typing a sanitized username changes nothing. */
  lemma SanitizeIdempotent(typed: string)
    ensures SanitizeUsername(SanitizeUsername(typed)) == SanitizeUsername(typed)
  {
    var r := SanitizeUsername(typed);
    assert ToLower(r) == r;
  }

  /** A sanitized username is its own trim, so it is blank exactly when it is empty. */
  lemma SanitizedIsTrimmed(typed: string)
    ensures Trim(SanitizeUsername(typed)) == SanitizeUsername(typed)
    ensures AllSpace(SanitizeUsername(typed)) <==> SanitizeUsername(typed) == []
  {
  }
}
