/**
 * The behaviour of Python's `str` operations that the verification and routing code
 * relies on: `isspace`, `lower`, `in`, `strip`, `split()`, `split(sep)`, `replace(c, "")`
 * and negative slicing.
 */
module PyStr {

  /**
   * `c.isspace()`. The same characters form the `\s` class of `re` for str patterns and
   * the separators that `str.split()` and `str.strip()` use.
   */
  predicate IsSpace(c: char) {
    || ('\t' <= c <= '\r')
    || ('\U{1c}' <= c <= ' ')
    || c == '\U{85}' || c == '\U{a0}' || c == '\U{1680}'
    || ('\U{2000}' <= c <= '\U{200a}')
    || c == '\U{2028}' || c == '\U{2029}' || c == '\U{202f}' || c == '\U{205f}' || c == '\U{3000}'
  }

  /** An ASCII decimal digit (the `\d` class restricted to ASCII). */
  predicate IsDigit(c: char) {
    '0' <= c <= '9'
  }

  predicate IsUpper(c: char) {
    'A' <= c <= 'Z'
  }

  /** A character of the `\w` class, restricted to ASCII. */
  predicate IsWordChar(c: char) {
    'a' <= c <= 'z' || IsUpper(c) || IsDigit(c) || c == '_'
  }

  predicate AllSpace(s: string) {
    forall i :: 0 <= i < |s| ==> IsSpace(s[i])
  }

  predicate NoSpace(s: string) {
    forall i :: 0 <= i < |s| ==> !IsSpace(s[i])
  }

  function LowerChar(c: char): char {
    if IsUpper(c) then (c as int + 32) as char else c
  }

  function UpperChar(c: char): char {
    if 'a' <= c <= 'z' then (c as int - 32) as char else c
  }

  /** `s.lower()` on ASCII letters; every other character is kept. */
  function Lower(s: string): (r: string)
    ensures |r| == |s|
    ensures forall i :: 0 <= i < |s| ==> r[i] == LowerChar(s[i])
  {
    if s == [] then [] else [LowerChar(s[0])] + Lower(s[1..])
  }

  /** Lowering twice is lowering once. */
  lemma LowerIdempotent(s: string)
    ensures Lower(Lower(s)) == Lower(s)
  {
    assert forall i :: 0 <= i < |s| ==> LowerChar(LowerChar(s[i])) == LowerChar(s[i]);
  }

  /** `needle` occurs in `hay` starting at index `i`. */
  predicate OccursAt(hay: string, needle: string, i: int) {
    0 <= i && i + |needle| <= |hay| && hay[i..i + |needle|] == needle
  }

  /** Python's `needle in hay` on strings, scanning the start positions left to right. */
  predicate Contains(hay: string, needle: string)
    decreases |hay|
  {
    needle <= hay || (hay != [] && Contains(hay[1..], needle))
  }

  /** The scan agrees with the definition of substring: some start position holds `needle`. */
  lemma {:induction false} ContainsIffOccurs(hay: string, needle: string)
    ensures Contains(hay, needle) <==> exists i :: OccursAt(hay, needle, i)
    decreases |hay|
  {
    if needle <= hay {
      assert OccursAt(hay, needle, 0);
    } else if hay == [] {
      assert needle != [];
      assert forall i :: !OccursAt(hay, needle, i);
    } else {
      ContainsIffOccurs(hay[1..], needle);
      assert OccursAt(hay, needle, 0) ==> needle <= hay;
      if exists i :: OccursAt(hay, needle, i) {
        var i :| OccursAt(hay, needle, i);
        assert i != 0;
        assert hay[1..][i - 1..i - 1 + |needle|] == hay[i..i + |needle|];
        assert OccursAt(hay[1..], needle, i - 1);
      }
      if exists i :: OccursAt(hay[1..], needle, i) {
        var i :| OccursAt(hay[1..], needle, i);
        assert hay[i + 1..i + 1 + |needle|] == hay[1..][i..i + |needle|];
        assert OccursAt(hay, needle, i + 1);
      }
    }
  }

  /** `s` with its leading whitespace removed (`s.lstrip()`). */
  function TrimStart(s: string): (r: string)
    ensures |r| <= |s| && r == s[|s| - |r|..]
    ensures AllSpace(s[..|s| - |r|])
    ensures r == [] || !IsSpace(r[0])
    decreases |s|
  {
    if s != [] && IsSpace(s[0]) then TrimStart(s[1..]) else s
  }

  /** `s` with its trailing whitespace removed (`s.rstrip()`). */
  function TrimEnd(s: string): (r: string)
    ensures |r| <= |s| && r == s[..|r|]
    ensures AllSpace(s[|r|..])
    ensures r == [] || !IsSpace(r[|r| - 1])
    decreases |s|
  {
    if s != [] && IsSpace(s[|s| - 1]) then
      var r := TrimEnd(s[..|s| - 1]);
      assert s[|r|..] == s[..|s| - 1][|r|..] + [s[|s| - 1]];
      r
    else s
  }

  /** `s.strip()`: neither end of the result is whitespace. */
  function Strip(s: string): (r: string)
    ensures |r| <= |s|
    ensures r == [] || (!IsSpace(r[0]) && !IsSpace(r[|r| - 1]))
  {
    TrimEnd(TrimStart(s))
  }

  /** What `strip` removes is whitespace at either end: the result is a slice of `s` with only whitespace around it. */
  lemma StripIsSlice(s: string)
    ensures var r := Strip(s);
            exists i :: 0 <= i <= |s| - |r| && s[i..i + |r|] == r && AllSpace(s[..i]) && AllSpace(s[i + |r|..])
  {
    var t := TrimStart(s);
    var r := TrimEnd(t);
    var i := |s| - |t|;
    assert s[i..] == t;
    assert s[i..i + |r|] == t[..|r|];
    assert s[i + |r|..] == t[|r|..];
    assert AllSpace(s[..i]) && AllSpace(s[i + |r|..]);
  }

  /** The length of the run of non-whitespace characters at the front of `s`. */
  function WordLength(s: string): (n: nat)
    ensures n <= |s|
    ensures NoSpace(s[..n])
    ensures n < |s| ==> IsSpace(s[n])
    decreases |s|
  {
    if s == [] || IsSpace(s[0]) then 0 else 1 + WordLength(s[1..])
  }

  /**
   * `s.split()`: the maximal runs of non-whitespace characters, in order. Every word is
   * non-empty and free of whitespace, and there are none exactly when `s` is all whitespace.
   */
  function Words(s: string): (ws: seq<string>)
    ensures forall k :: 0 <= k < |ws| ==> ws[k] != [] && NoSpace(ws[k])
    ensures ws == [] <==> AllSpace(s)
    decreases |s|
  {
    if s == [] then []
    else if IsSpace(s[0]) then Words(s[1..])
    else
      var n := WordLength(s);
      [s[..n]] + Words(s[n..])
  }

  /** `gaps[0] + words[0] + gaps[1] + ... + words[n - 1] + gaps[n]`. */
  function Interleave(gaps: seq<string>, words: seq<string>): string
    requires |gaps| == |words| + 1
    decreases |words|
  {
    if words == [] then gaps[0] else gaps[0] + words[0] + Interleave(gaps[1..], words[1..])
  }

  /**
   * `s` is `words` in order with whitespace `gaps` around them: every gap is whitespace, the
   * gaps between two words are not empty, and every word is non-empty and free of whitespace.
   * The words are then exactly the maximal runs of non-whitespace characters of `s`.
   */
  predicate SplitsInto(s: string, words: seq<string>, gaps: seq<string>) {
    && |gaps| == |words| + 1
    && s == Interleave(gaps, words)
    && (forall k :: 0 <= k < |gaps| ==> AllSpace(gaps[k]))
    && (forall k :: 0 < k < |words| ==> gaps[k] != [])
    && (forall k :: 0 <= k < |words| ==> words[k] != [] && NoSpace(words[k]))
  }

  /** A whitespace character in front of a split string joins its first gap. */
  lemma SplitsIntoAfterSpace(c: char, t: string, ws: seq<string>, gs: seq<string>)
    requires IsSpace(c) && SplitsInto(t, ws, gs)
    ensures SplitsInto([c] + t, ws, [[c] + gs[0]] + gs[1..])
  {
    var gaps := [[c] + gs[0]] + gs[1..];
    assert gaps[1..] == gs[1..];
    if ws == [] {
      assert Interleave(gaps, ws) == [c] + t;
    } else {
      assert Interleave(gaps, ws) == ([c] + gs[0]) + ws[0] + Interleave(gs[1..], ws[1..]);
      assert t == gs[0] + ws[0] + Interleave(gs[1..], ws[1..]);
    }
    assert AllSpace(gaps[0]) by {
      assert forall i :: 0 < i < |gaps[0]| ==> gaps[0][i] == gs[0][i - 1];
    }
    assert forall k :: 0 < k < |gaps| ==> gaps[k] == gs[k];
  }

  /** A word in front of a split string that starts with whitespace (or is empty) becomes its first word. */
  lemma SplitsIntoAfterWord(w: string, t: string, ws: seq<string>, gs: seq<string>)
    requires w != [] && NoSpace(w) && (t == [] || IsSpace(t[0])) && SplitsInto(t, ws, gs)
    ensures SplitsInto(w + t, [w] + ws, [""] + gs)
  {
    var words := [w] + ws;
    var gaps := [""] + gs;
    assert words[1..] == ws && gaps[1..] == gs;
    assert Interleave(gaps, words) == w + t;
    assert forall k :: 0 < k < |gaps| ==> gaps[k] == gs[k - 1];
    assert forall k :: 0 < k < |words| ==> words[k] == ws[k - 1];
  }

  /** `s.split()` gives the maximal non-whitespace runs of `s` in order: `s` is those words separated by whitespace. */
  lemma {:induction false} WordsAreMaximalRuns(s: string)
    ensures exists gaps :: SplitsInto(s, Words(s), gaps)
    decreases |s|
  {
    if s == [] {
      assert SplitsInto(s, Words(s), [""]);
    } else if IsSpace(s[0]) {
      WordsAreMaximalRuns(s[1..]);
      var gs :| SplitsInto(s[1..], Words(s[1..]), gs);
      SplitsIntoAfterSpace(s[0], s[1..], Words(s[1..]), gs);
      assert [s[0]] + s[1..] == s && Words(s) == Words(s[1..]);
      assert SplitsInto(s, Words(s), [[s[0]] + gs[0]] + gs[1..]);
    } else {
      var n := WordLength(s);
      WordsAreMaximalRuns(s[n..]);
      var gs :| SplitsInto(s[n..], Words(s[n..]), gs);
      SplitsIntoAfterWord(s[..n], s[n..], Words(s[n..]), gs);
      assert s[..n] + s[n..] == s && Words(s) == [s[..n]] + Words(s[n..]);
      assert SplitsInto(s, Words(s), [""] + gs);
    }
  }

  /** `s.split(sep)` for a one-character separator: at least one part, none holding `sep`. */
  function SplitOn(s: string, sep: char): (parts: seq<string>)
    ensures |parts| >= 1
    ensures forall k :: 0 <= k < |parts| ==> sep !in parts[k]
    decreases |s|
  {
    if s == [] then [""]
    else
      var rest := SplitOn(s[1..], sep);
      if s[0] == sep then [""] + rest else [[s[0]] + rest[0]] + rest[1..]
  }

  /** `sep.join(parts)`. */
  function Join(parts: seq<string>, sep: char): string
    decreases |parts|
  {
    if parts == [] then ""
    else if |parts| == 1 then parts[0]
    else parts[0] + [sep] + Join(parts[1..], sep)
  }

  lemma JoinConsHead(c: char, parts: seq<string>, sep: char)
    requires |parts| >= 1
    ensures Join([[c] + parts[0]] + parts[1..], sep) == [c] + Join(parts, sep)
  {
    var ps := [[c] + parts[0]] + parts[1..];
    if |parts| > 1 {
      assert ps[1..] == parts[1..];
    }
  }

  /** Splitting then joining with the same separator gives back the original string. */
  lemma {:induction false} SplitJoin(s: string, sep: char)
    ensures Join(SplitOn(s, sep), sep) == s
    decreases |s|
  {
    if s != [] {
      var rest := SplitOn(s[1..], sep);
      SplitJoin(s[1..], sep);
      if s[0] == sep {
        assert ([""] + rest)[1..] == rest;
      } else {
        JoinConsHead(s[0], rest, sep);
      }
      assert [s[0]] + s[1..] == s;
    }
  }

  /**
   * The last part of `s.split(sep)` is the text after the last `sep`; it is all of `s`
   * exactly when `s` holds no `sep`.
   */
  lemma {:induction false} LastPartIsSuffix(s: string, sep: char)
    ensures var parts := SplitOn(s, sep);
            exists k :: 0 <= k <= |s| && s[k..] == parts[|parts| - 1]
                        && ((|parts| == 1 && k == 0) || (|parts| > 1 && 0 < k && s[k - 1] == sep))
    decreases |s|
  {
    var parts := SplitOn(s, sep);
    if s == [] {
      assert s[0..] == parts[0];
    } else {
      var rest := SplitOn(s[1..], sep);
      LastPartIsSuffix(s[1..], sep);
      var k :| 0 <= k <= |s| - 1 && s[1..][k..] == rest[|rest| - 1]
               && ((|rest| == 1 && k == 0) || (|rest| > 1 && 0 < k && s[1..][k - 1] == sep));
      assert s[k + 1..] == s[1..][k..];
      if s[0] == sep {
        assert parts[|parts| - 1] == rest[|rest| - 1];
        assert s[k] == sep;
      } else if |rest| > 1 {
        assert parts[|parts| - 1] == rest[|rest| - 1];
        assert s[k] == sep;
      } else {
        assert parts[0] == [s[0]] + s[1..] == s[0..];
      }
    }
  }

  /** `s.replace(c, "")`: no `c` is left and every other character keeps its count. */
  function RemoveChar(s: string, c: char): (r: string)
    ensures c !in r
    ensures forall x :: x != c ==> multiset(r)[x] == multiset(s)[x]
    ensures c !in s ==> r == s
    decreases |s|
  {
    if s == [] then []
    else
      assert s == [s[0]] + s[1..];
      (if s[0] == c then [] else [s[0]]) + RemoveChar(s[1..], c)
  }

  /** Removing a character works piece by piece, so the characters kept stay in their order. */
  lemma {:induction false} RemoveCharAppend(a: string, b: string, c: char)
    ensures RemoveChar(a + b, c) == RemoveChar(a, c) + RemoveChar(b, c)
    decreases |a|
  {
    if a == [] {
      assert a + b == b;
    } else {
      var head := if a[0] == c then [] else [a[0]];
      RemoveCharAppend(a[1..], b, c);
      assert (a + b)[1..] == a[1..] + b;
      calc {
        RemoveChar(a + b, c);
        head + RemoveChar(a[1..] + b, c);
        head + (RemoveChar(a[1..], c) + RemoveChar(b, c));
        (head + RemoveChar(a[1..], c)) + RemoveChar(b, c);
        RemoveChar(a, c) + RemoveChar(b, c);
      }
    }
  }

  /** `s[-n:]` for `n > 0`: the last `n` characters, or all of `s` when it is shorter (for `n = 0` the result is empty, whereas `s[-0:]` is all of `s`). */
  function LastChars(s: string, n: nat): (r: string)
    ensures |r| == if |s| < n then |s| else n
    ensures r == s[|s| - |r|..]
  {
    if |s| <= n then s else s[|s| - n..]
  }
}
