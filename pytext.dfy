/** Python's list slicing, `str.strip` and `str.replace`, as the translator's
    history window and response clean-up use them. */
module PyText {

  /** The start (or stop) index Python uses for `s[i:]` (or `s[:i]`) on a
      sequence of length `n`: a negative index counts from the end, and the
      result is clamped to `0..n`. */
  function SliceIndex(n: nat, i: int): (k: nat)
    ensures k <= n
    ensures 0 <= i <= n ==> k == i
    ensures i < 0 && n + i >= 0 ==> k == n + i
    ensures n + i < 0 ==> k == 0
    ensures i > n ==> k == n
  {
    if i < 0 then (if n + i < 0 then 0 else n + i)
    else if i > n then n
    else i
  }

  /** Python `s[i:]`. */
  function SliceFrom<T>(s: seq<T>, i: int): seq<T>
  {
    s[SliceIndex(|s|, i)..]
  }

  /** Python `s[:j]`. */
  function SliceTo<T>(s: seq<T>, j: int): seq<T>
  {
    s[..SliceIndex(|s|, j)]
  }

  /** `s[:-1]`: every element but the last; the empty list stays empty. */
  lemma DropLastOfEmptyOrNot<T>(s: seq<T>)
    ensures s == [] ==> SliceTo(s, -1) == []
    ensures s != [] ==> SliceTo(s, -1) == s[..|s| - 1] && SliceTo(s, -1) + [s[|s| - 1]] == s
  {
  }

  /** `s[-k:]` for `k >= 1` keeps the last `min(k, |s|)` elements, while
      `s[-0:]` is `s[0:]`, the whole sequence. */
  lemma SliceFromNegated<T>(s: seq<T>, k: int)
    requires k >= 0
    ensures k == 0 ==> SliceFrom(s, -k) == s
    ensures k >= 1 && k <= |s| ==> SliceFrom(s, -k) == s[|s| - k..]
    ensures k > |s| ==> SliceFrom(s, -k) == s
  {
  }

  /** The characters Python's `str.isspace` accepts, which a bare
      `str.strip()` removes. */
  const Whitespace: set<char> :=
    {'\U{9}', '\U{A}', '\U{B}', '\U{C}', '\U{D}', '\U{1C}', '\U{1D}', '\U{1E}',
     '\U{1F}', '\U{20}', '\U{85}', '\U{A0}', '\U{1680}', '\U{2000}', '\U{2001}', '\U{2002}',
     '\U{2003}', '\U{2004}', '\U{2005}', '\U{2006}', '\U{2007}', '\U{2008}', '\U{2009}', '\U{200A}',
     '\U{2028}', '\U{2029}', '\U{202F}', '\U{205F}', '\U{3000}'}

  /** Python `s.lstrip(chars)`. */
  function StripStart(s: string, chars: set<char>): string
  {
    if s != [] && s[0] in chars then StripStart(s[1..], chars) else s
  }

  /** `lstrip` keeps the longest suffix of `s` whose removed prefix consists of
      characters of `chars` only. */
  lemma {:induction false} StripStartIsLongestSuffix(s: string, chars: set<char>)
    ensures |StripStart(s, chars)| <= |s| && StripStart(s, chars) == s[|s| - |StripStart(s, chars)|..]
    ensures forall k :: 0 <= k < |s| - |StripStart(s, chars)| ==> s[k] in chars
    ensures StripStart(s, chars) != [] ==> StripStart(s, chars)[0] !in chars
  {
    if s != [] && s[0] in chars {
      StripStartIsLongestSuffix(s[1..], chars);
    }
  }

  /** Python `s.rstrip(chars)`. */
  function StripEnd(s: string, chars: set<char>): string
  {
    if s != [] && s[|s| - 1] in chars then StripEnd(s[..|s| - 1], chars) else s
  }

  /** `rstrip` keeps the longest prefix of `s` whose removed suffix consists of
      characters of `chars` only. */
  lemma {:induction false} StripEndIsLongestPrefix(s: string, chars: set<char>)
    ensures |StripEnd(s, chars)| <= |s| && StripEnd(s, chars) == s[..|StripEnd(s, chars)|]
    ensures forall k :: |StripEnd(s, chars)| <= k < |s| ==> s[k] in chars
    ensures StripEnd(s, chars) != [] ==> StripEnd(s, chars)[|StripEnd(s, chars)| - 1] !in chars
  {
    if s != [] && s[|s| - 1] in chars {
      StripEndIsLongestPrefix(s[..|s| - 1], chars);
    }
  }

  /** Python `s.strip(chars)`. */
  function Strip(s: string, chars: set<char>): string
  {
    StripEnd(StripStart(s, chars), chars)
  }

  /** `Strip` keeps the piece `s[i..i + |r|]` of `s`, drops only characters
      of `chars` around it, and leaves neither end in `chars`. */
  lemma StripIsTrimmedSlice(s: string, chars: set<char>) returns (i: nat)
    ensures i + |Strip(s, chars)| <= |s| && Strip(s, chars) == s[i..i + |Strip(s, chars)|]
    ensures forall k :: 0 <= k < i ==> s[k] in chars
    ensures forall k :: i + |Strip(s, chars)| <= k < |s| ==> s[k] in chars
    ensures Strip(s, chars) != [] ==> Strip(s, chars)[0] !in chars && Strip(s, chars)[|Strip(s, chars)| - 1] !in chars
  {
    var t := StripStart(s, chars);
    var r := StripEnd(t, chars);
    StripStartIsLongestSuffix(s, chars);
    StripEndIsLongestPrefix(t, chars);
    i := |s| - |t|;
    forall k | i + |r| <= k < |s| ensures s[k] in chars {
      assert s[k] == t[k - i];
    }
    if r != [] {
      assert r[0] == t[0];
    }
  }

  /** Removing characters from the ends of `s` cannot add a character. */
  lemma StripKeepsAbsence(s: string, chars: set<char>, c: char)
    requires c !in s
    ensures c !in Strip(s, chars)
  {
    var t := StripStart(s, chars);
    var r := StripEnd(t, chars);
    StripStartIsLongestSuffix(s, chars);
    StripEndIsLongestPrefix(t, chars);
    assert forall j :: 0 <= j < |r| ==> r[j] == s[|s| - |t| + j];
  }

  /** Python `s.replace(target, replacement)` for a non-empty `target`: occurrences are
      found left to right and never overlap. */
  function Replace(s: string, target: string, replacement: string): string
    requires target != []
    decreases |s|
  {
    if |s| < |target| then s
    else if s[..|target|] == target then replacement + Replace(s[|target|..], target, replacement)
    else [s[0]] + Replace(s[1..], target, replacement)
  }

  /** A character missing from both the input and the replacement is missing
      from the result. */
  lemma {:induction false} ReplaceKeepsAbsence(s: string, target: string, replacement: string, c: char)
    requires target != []
    requires c !in s && c !in replacement
    ensures c !in Replace(s, target, replacement)
    decreases |s|
  {
    if |s| < |target| {
    } else if s[..|target|] == target {
      ReplaceKeepsAbsence(s[|target|..], target, replacement, c);
    } else {
      ReplaceKeepsAbsence(s[1..], target, replacement, c);
    }
  }

  /** Replacing a one-character string by the empty string removes every
      occurrence of that character and keeps every other character as often as before. */
  lemma {:induction false} DeleteCharRemovesAll(s: string, c: char)
    ensures c !in Replace(s, [c], "")
    ensures forall d :: d != c ==> multiset(Replace(s, [c], ""))[d] == multiset(s)[d]
    decreases |s|
  {
    if |s| < 1 {
    } else {
      DeleteCharRemovesAll(s[1..], c);
      assert s == [s[0]] + s[1..];
      if s[..1] == [c] {
        assert s[0] == c;
      } else {
        assert s[0] != c;
      }
    }
  }

  /** Whether `target` occurs in `s` at index `i`. */
  predicate OccursAt(s: string, target: string, i: nat)
  {
    i + |target| <= |s| && s[i..i + |target|] == target
  }

  /** Where `target` does not occur, `Replace` changes nothing. */
  lemma {:induction false} ReplaceAbsentIsIdentity(s: string, target: string, replacement: string)
    requires target != []
    requires forall i: nat :: !OccursAt(s, target, i)
    ensures Replace(s, target, replacement) == s
    decreases |s|
  {
    if |s| >= |target| {
      assert !OccursAt(s, target, 0);
      forall i: nat ensures !OccursAt(s[1..], target, i) {
        assert !OccursAt(s, target, i + 1);
        if i + |target| <= |s[1..]| {
          assert s[1..][i..i + |target|] == s[i + 1..i + 1 + |target|];
        }
      }
      ReplaceAbsentIsIdentity(s[1..], target, replacement);
      assert s == [s[0]] + s[1..];
    }
  }
}
