/**
 * The three regular expressions of the verification agent, written out as scanners over
 * the text: the grouped Aadhaar number `\b\d{4}\s*\d{4}\s*\d{4}\b` searched in OCR text,
 * and, for QR payloads that are not well-formed XML, `uid="(\d{12})"` and `key="([^"]+)"`
 * searched case-insensitively. Each search returns the leftmost match, as `re.search` and
 * the first element of `re.findall` do.
 */
module Patterns {
  import opened Wrappers
  import opened PyStr

  /** The first index at or after `from` that holds `c`. */
  function FindChar(s: string, c: char, from: nat): (r: Option<nat>)
    ensures r.Some? ==> from <= r.value < |s| && s[r.value] == c
    ensures r.Some? ==> forall i :: from <= i < r.value ==> s[i] != c
    ensures r.None? ==> forall i :: from <= i < |s| ==> s[i] != c
    decreases |s| - from
  {
    if from >= |s| then None
    else if s[from] == c then Some(from)
    else FindChar(s, c, from + 1)
  }

  /** The first index at or after `i` that does not hold whitespace (greedy `\s*`). */
  function SkipSpaces(s: string, i: nat): (j: nat)
    requires i <= |s|
    ensures i <= j <= |s|
    ensures forall k :: i <= k < j ==> IsSpace(s[k])
    ensures j < |s| ==> !IsSpace(s[j])
    decreases |s| - i
  {
    if i < |s| && IsSpace(s[i]) then SkipSpaces(s, i + 1) else i
  }

  /** `\d{n}` at `i`. */
  predicate DigitsAt(s: string, i: nat, n: nat) {
    i + n <= |s| && forall k :: i <= k < i + n ==> IsDigit(s[k])
  }

  /** `\b` at `i`: exactly one of the characters around position `i` is a word character. */
  predicate BoundaryAt(s: string, i: nat)
    requires i <= |s|
  {
    (0 < i && IsWordChar(s[i - 1])) != (i < |s| && IsWordChar(s[i]))
  }

  /** `\s*` spans exactly the characters from `a` up to `b`. */
  predicate SpacesFrom(s: string, a: nat, b: nat) {
    a <= b <= |s| && forall k :: a <= k < b ==> IsSpace(s[k])
  }

  /**
   * `\b\d{4}\s*\d{4}\s*\d{4}\b` matches at `i`, with its second digit group at `j` and its
   * third at `k`: a boundary, four digits, whitespace, four digits, whitespace, four digits,
   * a boundary.
   */
  predicate GroupedMatch(s: string, i: nat, j: nat, k: nat) {
    && i <= |s| && BoundaryAt(s, i) && DigitsAt(s, i, 4)
    && SpacesFrom(s, i + 4, j) && DigitsAt(s, j, 4)
    && SpacesFrom(s, j + 4, k) && DigitsAt(s, k, 4)
    && BoundaryAt(s, k + 4)
  }

  /** A run of whitespace followed by a non-whitespace character is exactly what greedy `\s*` consumes. */
  lemma SkipSpacesStopsAtNonSpace(s: string, a: nat, b: nat)
    requires SpacesFrom(s, a, b) && b < |s| && !IsSpace(s[b])
    ensures SkipSpaces(s, a) == b
  {
  }

  /**
   * The end of the match of `\b\d{4}\s*\d{4}\s*\d{4}\b` that starts at `i`, if one does.
   * Backtracking into `\s*` never helps, because a whitespace character is never a digit.
   */
  function GroupedNumberAt(s: string, i: nat): (r: Option<nat>)
    ensures r.Some? ==> i + 12 <= r.value <= |s|
    ensures r.Some? ==> DigitsAt(s, i, 4) && DigitsAt(s, r.value - 4, 4)
  {
    if i > |s| || !BoundaryAt(s, i) || !DigitsAt(s, i, 4) then None
    else
      var j := SkipSpaces(s, i + 4);
      if !DigitsAt(s, j, 4) then None
      else
        var k := SkipSpaces(s, j + 4);
        if !DigitsAt(s, k, 4) || !BoundaryAt(s, k + 4) then None
        else Some(k + 4)
  }

  /**
   * The scanner finds exactly the matches of the pattern: what it returns at `i` ends a match
   * made of three digit groups with whitespace between them, and every match at `i`, however
   * its groups are placed, is found and ends where the scanner says.
   */
  lemma GroupedNumberAtIsMatch(s: string, i: nat)
    ensures GroupedNumberAt(s, i).Some? ==>
              exists j: nat, k: nat :: GroupedMatch(s, i, j, k) && GroupedNumberAt(s, i).value == k + 4
    ensures forall j: nat, k: nat :: GroupedMatch(s, i, j, k) ==> GroupedNumberAt(s, i) == Some(k + 4)
  {
    if GroupedNumberAt(s, i).Some? {
      var j := SkipSpaces(s, i + 4);
      var k := SkipSpaces(s, j + 4);
      assert SpacesFrom(s, i + 4, j) && SpacesFrom(s, j + 4, k);
      assert GroupedMatch(s, i, j, k);
    }
    forall j: nat, k: nat | GroupedMatch(s, i, j, k)
      ensures GroupedNumberAt(s, i) == Some(k + 4)
    {
      GroupedMatchIsFound(s, i, j, k);
    }
  }

  /** A match whose groups start at `j` and `k` is what the scanner finds at `i`. */
  lemma GroupedMatchIsFound(s: string, i: nat, j: nat, k: nat)
    requires GroupedMatch(s, i, j, k)
    ensures GroupedNumberAt(s, i) == Some(k + 4)
  {
    assert IsDigit(s[j]) && IsDigit(s[k]);
    SkipSpacesStopsAtNonSpace(s, i + 4, j);
    SkipSpacesStopsAtNonSpace(s, j + 4, k);
  }

  /** The leftmost position at or after `i` where the grouped-number pattern matches. */
  function GroupedNumberFrom(s: string, i: nat): (r: Option<nat>)
    ensures r.Some? ==> i <= r.value <= |s| && GroupedNumberAt(s, r.value).Some?
    decreases |s| + 1 - i
  {
    if i > |s| then None
    else if GroupedNumberAt(s, i).Some? then Some(i)
    else GroupedNumberFrom(s, i + 1)
  }

  /** No position between `i` and the one found matches; when none is found, none at all does. */
  lemma {:induction false} GroupedNumberFromIsLeftmost(s: string, i: nat)
    ensures GroupedNumberFrom(s, i).Some? ==>
              forall j :: i <= j < GroupedNumberFrom(s, i).value ==> GroupedNumberAt(s, j).None?
    ensures GroupedNumberFrom(s, i).None? ==> forall j :: i <= j <= |s| ==> GroupedNumberAt(s, j).None?
    decreases |s| + 1 - i
  {
    if i <= |s| && GroupedNumberAt(s, i).None? {
      GroupedNumberFromIsLeftmost(s, i + 1);
      assert GroupedNumberFrom(s, i) == GroupedNumberFrom(s, i + 1);
    }
  }

  /** `re.findall(r'\b\d{4}\s*\d{4}\s*\d{4}\b', s)[0]`, or `None` when the list is empty. */
  function FirstGroupedNumber(s: string): (r: Option<string>)
  {
    match GroupedNumberFrom(s, 0)
    case None => None
    case Some(p) => Some(s[p..GroupedNumberAt(s, p).value])
  }

  /**
   * A first match is at least twelve characters long and starts with a digit, so removing
   * its `' '` characters leaves a non-empty string that starts with that digit.
   */
  lemma GroupedNumberCandidate(s: string)
    requires FirstGroupedNumber(s).Some?
    ensures var m := FirstGroupedNumber(s).value;
            |m| >= 12 && IsDigit(m[0]) && IsDigit(m[|m| - 1])
            && RemoveChar(m, ' ') != [] && RemoveChar(m, ' ')[0] == m[0]
  {
    var p := GroupedNumberFrom(s, 0).value;
    var e := GroupedNumberAt(s, p).value;
    var m := s[p..e];
    assert m[0] == s[p];
    assert m[|m| - 1] == s[e - 1];
    assert m == [m[0]] + m[1..];
  }

  /** `c` matches the lower-case ASCII pattern character `p` under `re.IGNORECASE`. */
  predicate CaselessCharMatch(c: char, p: char) {
    c == p || c == UpperChar(p) || (p == 'i' && (c == '\U{130}' || c == '\U{131}'))
  }

  /** The lower-case ASCII literal `lit` matches at `i` under `re.IGNORECASE`. */
  predicate CaselessAt(s: string, i: nat, lit: string) {
    i + |lit| <= |s| && forall k :: 0 <= k < |lit| ==> CaselessCharMatch(s[i + k], lit[k])
  }

  /** The capture of `uid="(\d{12})"` when it matches at `i`. */
  function UidAt(s: string, i: nat): (r: Option<string>)
    ensures r.Some? ==> |r.value| == 12 && forall k :: 0 <= k < 12 ==> IsDigit(r.value[k])
  {
    if CaselessAt(s, i, "uid=\"") && DigitsAt(s, i + 5, 12) && i + 17 < |s| && s[i + 17] == '"'
    then Some(s[i + 5..i + 17])
    else None
  }

  /** The leftmost position at or after `i` where `uid="(\d{12})"` matches. */
  function UidFrom(s: string, i: nat): (r: Option<nat>)
    ensures r.Some? ==> i <= r.value <= |s| && UidAt(s, r.value).Some?
    decreases |s| + 1 - i
  {
    if i > |s| then None
    else if UidAt(s, i).Some? then Some(i)
    else UidFrom(s, i + 1)
  }

  /** No position between `i` and the one found matches; when none is found, none at all does. */
  lemma {:induction false} UidFromIsLeftmost(s: string, i: nat)
    ensures UidFrom(s, i).Some? ==> forall j :: i <= j < UidFrom(s, i).value ==> UidAt(s, j).None?
    ensures UidFrom(s, i).None? ==> forall j :: i <= j <= |s| ==> UidAt(s, j).None?
    decreases |s| + 1 - i
  {
    if i <= |s| && UidAt(s, i).None? {
      UidFromIsLeftmost(s, i + 1);
      assert UidFrom(s, i) == UidFrom(s, i + 1);
    }
  }

  /**
   * `re.search(r'uid="(\d{12})"', s, re.IGNORECASE).group(1)`, or `None`: the capture at the
   * leftmost position where the pattern matches, and `None` only when it matches nowhere.
   */
  function SearchUid(s: string): (r: Option<string>)
    ensures r.Some? ==> |r.value| == 12 && forall k :: 0 <= k < 12 ==> IsDigit(r.value[k])
    ensures r.None? <==> forall p :: 0 <= p <= |s| ==> UidAt(s, p).None?
    ensures r.Some? ==> exists p :: 0 <= p <= |s| && UidAt(s, p) == r && forall q :: 0 <= q < p ==> UidAt(s, q).None?
  {
    UidFromIsLeftmost(s, 0);
    match UidFrom(s, 0)
    case None => None
    case Some(p) => UidAt(s, p)
  }

  /**
   * The capture of `key="([^"]+)"` when it matches at `i`: `[^"]+` runs to the first quote
   * after the opening one and must take at least one character.
   */
  function QuotedValueAt(s: string, key: string, i: nat): (r: Option<string>)
    ensures r.Some? ==> r.value != [] && '"' !in r.value
  {
    var open := i + |key| + 2;
    if !CaselessAt(s, i, key + "=\"") then None
    else
      match FindChar(s, '"', open)
      case None => None
      case Some(q) =>
        if q == open then None
        else
          assert forall k :: 0 <= k < q - open ==> s[open..q][k] == s[open + k];
          Some(s[open..q])
  }

  /** The leftmost position at or after `i` where `key="([^"]+)"` matches. */
  function QuotedFrom(s: string, key: string, i: nat): (r: Option<nat>)
    ensures r.Some? ==> i <= r.value <= |s| && QuotedValueAt(s, key, r.value).Some?
    decreases |s| + 1 - i
  {
    if i > |s| then None
    else if QuotedValueAt(s, key, i).Some? then Some(i)
    else QuotedFrom(s, key, i + 1)
  }

  /** No position between `i` and the one found matches; when none is found, none at all does. */
  lemma {:induction false} QuotedFromIsLeftmost(s: string, key: string, i: nat)
    ensures QuotedFrom(s, key, i).Some? ==>
              forall j :: i <= j < QuotedFrom(s, key, i).value ==> QuotedValueAt(s, key, j).None?
    ensures QuotedFrom(s, key, i).None? ==> forall j :: i <= j <= |s| ==> QuotedValueAt(s, key, j).None?
    decreases |s| + 1 - i
  {
    if i <= |s| && QuotedValueAt(s, key, i).None? {
      QuotedFromIsLeftmost(s, key, i + 1);
      assert QuotedFrom(s, key, i) == QuotedFrom(s, key, i + 1);
    }
  }

  /**
   * `re.search(key + r'="([^"]+)"', s, re.IGNORECASE).group(1)`, or `None`: the capture at
   * the leftmost position where the pattern matches, and `None` only when it matches nowhere.
   */
  function SearchQuoted(s: string, key: string): (r: Option<string>)
    ensures r.Some? ==> r.value != [] && '"' !in r.value
    ensures r.None? <==> forall p :: 0 <= p <= |s| ==> QuotedValueAt(s, key, p).None?
    ensures r.Some? ==>
              exists p :: 0 <= p <= |s| && QuotedValueAt(s, key, p) == r
                          && forall q :: 0 <= q < p ==> QuotedValueAt(s, key, q).None?
  {
    QuotedFromIsLeftmost(s, key, 0);
    match QuotedFrom(s, key, 0)
    case None => None
    case Some(p) => QuotedValueAt(s, key, p)
  }
}
