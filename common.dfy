/** Shared vocabulary of the model: failure-compatible wrappers, the JSON-like
    values that travel in payloads and request bodies, and the handful of
    Python string operations the agents rely on (`lower`, `in`, `split`,
    `strip`, `replace`), written out character by character. */
module Common {

  datatype Option<+T> = None | Some(value: T)

  datatype Result<+T, +E> = Ok(value: T) | Err(error: E)

  /** A JSON value as carried in payloads, request bodies and JSON columns. */
  datatype Value =
    | Null
    | Bool(b: bool)
    | Int(i: int)
    | Str(s: string)
    | List(items: seq<Value>)
    | Object(fields: map<string, Value>)

  /** An HTTP error raised by a handler: status code and detail text. */
  datatype HttpError = HttpError(status: int, detail: string)

  /** `d.get(key)` on a JSON object: the value, or null when the key is missing. */
  function GetOrNull(d: map<string, Value>, key: string): (v: Value)
    ensures key in d ==> v == d[key]
    ensures key !in d ==> v == Null
  {
    if key in d then d[key] else Null
  }

  /** Outcome of an outbound HTTP request: a response (status code and the
      body parsed as JSON, None when it is not JSON) or a transport error. */
  datatype HttpOutcome = Responded(status: int, body: Option<Value>) | Unreachable(error: string)

  /** Decimal rendering of an integer, as `str(n)` / an f-string prints it. */
  function DigitChar(d: int): char
    requires 0 <= d < 10
  {
    ('0' as int + d) as char
  }

  function NatString(n: nat): (r: string)
    ensures |r| > 0 && forall k :: 0 <= k < |r| ==> '0' <= r[k] <= '9'
  {
    if n < 10 then [DigitChar(n)] else NatString(n / 10) + [DigitChar(n % 10)]
  }

  function IntString(n: int): string
  {
    if n < 0 then "-" + NatString(-n) else NatString(n)
  }

  /** Pairwise distinct elements. */
  ghost predicate Distinct<T>(xs: seq<T>)
  {
    forall i, j :: 0 <= i < j < |xs| ==> xs[i] != xs[j]
  }

  // ---------------------------------------------------------------------
  // Distinctness of literal string tables, by comparing numeric fingerprints.

  /** Length, first and fourth character, folded into one number. */
  function ShapeKey(s: string): int
  {
    if |s| < 4 then 0 else |s| * 1000000 + (s[0] as int) * 1000 + s[3] as int
  }

  function ShapeKeys(xs: seq<string>): (r: seq<int>)
    ensures |r| == |xs| && forall i :: 0 <= i < |xs| ==> r[i] == ShapeKey(xs[i])
  {
    seq(|xs|, i requires 0 <= i < |xs| => ShapeKey(xs[i]))
  }

  /** Strings whose keys differ are different strings. */
  lemma DistinctByKey(xs: seq<string>)
    requires Distinct(ShapeKeys(xs))
    ensures Distinct(xs)
  {
    forall i, j | 0 <= i < j < |xs|
      ensures xs[i] != xs[j]
    {
      assert ShapeKeys(xs)[i] != ShapeKeys(xs)[j];
    }
  }

  // ---------------------------------------------------------------------
  // Case folding. `str.lower()` is modelled on ASCII letters only.

  function LowerChar(c: char): char
  {
    if 'A' <= c <= 'Z' then (c as int + 32) as char else c
  }

  function Lower(s: string): (r: string)
    ensures |r| == |s|
    ensures forall i :: 0 <= i < |s| ==> r[i] == LowerChar(s[i])
  {
    seq(|s|, i requires 0 <= i < |s| => LowerChar(s[i]))
  }

  lemma LowerSlice(s: string, a: int, b: int)
    requires 0 <= a <= b <= |s|
    ensures Lower(s[a..b]) == Lower(s)[a..b]
  {
  }

  // ---------------------------------------------------------------------
  // Substring test: Python's `needle in hay`.

  predicate OccursAt(hay: string, needle: string, i: int)
  {
    0 <= i && i + |needle| <= |hay| && forall k :: 0 <= k < |needle| ==> hay[i + k] == needle[k]
  }

  predicate Contains(hay: string, needle: string)
  {
    exists i :: 0 <= i <= |hay| - |needle| && OccursAt(hay, needle, i)
  }

  lemma ContainsWitness(hay: string, needle: string, i: int)
    requires OccursAt(hay, needle, i)
    ensures Contains(hay, needle)
  {
  }

  /** An occurrence lying inside `hay[a..b]` is an occurrence in the slice. */
  lemma OccursInSlice(hay: string, a: int, b: int, needle: string, i: int)
    requires 0 <= a <= i && i + |needle| <= b <= |hay|
    requires OccursAt(hay, needle, i)
    ensures OccursAt(hay[a..b], needle, i - a)
  {
    forall k | 0 <= k < |needle|
      ensures hay[a..b][i - a + k] == needle[k]
    {
      assert hay[a..b][i - a + k] == hay[i + k];
    }
  }

  /** An occurrence in a slice is an occurrence in the whole string. */
  lemma OccursFromSlice(hay: string, a: int, b: int, needle: string, i: int)
    requires 0 <= a <= b <= |hay|
    requires OccursAt(hay[a..b], needle, i)
    ensures OccursAt(hay, needle, a + i)
  {
    forall k | 0 <= k < |needle|
      ensures hay[a + i + k] == needle[k]
    {
      assert hay[a..b][i + k] == hay[a + i + k];
    }
  }

  lemma ContainsInSlice(hay: string, a: int, b: int, needle: string)
    requires 0 <= a <= b <= |hay|
    requires Contains(hay[a..b], needle)
    ensures Contains(hay, needle)
  {
    var i :| 0 <= i <= (b - a) - |needle| && OccursAt(hay[a..b], needle, i);
    OccursFromSlice(hay, a, b, needle, i);
    ContainsWitness(hay, needle, a + i);
  }

  // ---------------------------------------------------------------------
  // `s.split(sep)` for a one-character separator.

  /** Index of the first `c` in `s`, or `|s|` when there is none. */
  function FirstIndex(s: string, c: char): (k: nat)
    ensures k <= |s|
    ensures k < |s| ==> s[k] == c
    ensures forall j :: 0 <= j < k ==> s[j] != c
  {
    if |s| == 0 then 0
    else if s[0] == c then 0
    else 1 + FirstIndex(s[1..], c)
  }

  function Split(s: string, sep: char): (parts: seq<string>)
    ensures |parts| >= 1
    decreases |s|
  {
    var k := FirstIndex(s, sep);
    if k == |s| then [s] else [s[..k]] + Split(s[k + 1..], sep)
  }

  /** A needle free of the separator that occurs in the case-folded text
      occurs in the case-folded form of one of its parts. */
  lemma {:induction false} SplitKeepsOccurrence(s: string, sep: char, needle: string)
    requires sep !in needle
    requires LowerChar(sep) == sep
    requires Contains(Lower(s), needle)
    ensures exists p :: p in Split(s, sep) && Contains(Lower(p), needle)
    decreases |s|
  {
    var k := FirstIndex(s, sep);
    var i :| 0 <= i <= |s| - |needle| && OccursAt(Lower(s), needle, i);
    if k == |s| {
      assert s in Split(s, sep);
    } else {
      var rest := s[k + 1..];
      assert Split(s, sep) == [s[..k]] + Split(rest, sep);
      SeparatorOutsideOccurrence(s, sep, needle, i, k);
      if i + |needle| <= k {
        OccursInPrefix(s, needle, i, k);
        assert s[..k] in Split(s, sep);
      } else {
        OccursInSuffix(s, needle, i, k + 1);
        SplitKeepsOccurrence(rest, sep, needle);
        var p :| p in Split(rest, sep) && Contains(Lower(p), needle);
        assert p in Split(s, sep);
      }
    }
  }

  /** A separator position never falls inside an occurrence of a
      separator-free needle. */
  lemma SeparatorOutsideOccurrence(s: string, sep: char, needle: string, i: int, k: int)
    requires sep !in needle
    requires LowerChar(sep) == sep
    requires OccursAt(Lower(s), needle, i)
    requires 0 <= k < |s| && s[k] == sep
    ensures i + |needle| <= k || k < i
  {
    OccurrenceChar(Lower(s), needle, i, k - i);
  }

  lemma OccurrenceChar(hay: string, needle: string, i: int, j: int)
    requires OccursAt(hay, needle, i)
    ensures 0 <= j < |needle| ==> hay[i + j] == needle[j]
  {
  }

  lemma OccursInPrefix(s: string, needle: string, i: int, k: int)
    requires OccursAt(Lower(s), needle, i)
    requires i + |needle| <= k <= |s|
    ensures Contains(Lower(s[..k]), needle)
  {
    OccursInSlice(Lower(s), 0, k, needle, i);
    LowerSlice(s, 0, k);
    ContainsWitness(Lower(s[..k]), needle, i);
  }

  lemma OccursInSuffix(s: string, needle: string, i: int, k: int)
    requires OccursAt(Lower(s), needle, i)
    requires 0 <= k <= i
    ensures Contains(Lower(s[k..]), needle)
  {
    OccursInSlice(Lower(s), k, |s|, needle, i);
    LowerSlice(s, k, |s|);
    assert s[k..|s|] == s[k..];
    ContainsWitness(Lower(s[k..]), needle, i - k);
  }

  // ---------------------------------------------------------------------
  // `s.strip()`: Python's whitespace set (`str.isspace`).

  predicate IsSpace(c: char)
  {
    ('\t' <= c <= '\r') || ('\U{1c}' <= c <= ' ') || c == '\U{85}' || c == '\U{a0}' || c == '\U{1680}'
    || ('\U{2000}' <= c <= '\U{200a}') || c == '\U{2028}' || c == '\U{2029}' || c == '\U{202f}'
    || c == '\U{205f}' || c == '\U{3000}'
  }

  /** Index of the first non-space character, or `|s|`. */
  function LeadingSpace(s: string): (a: nat)
    ensures a <= |s|
    ensures forall j :: 0 <= j < a ==> IsSpace(s[j])
    ensures a < |s| ==> !IsSpace(s[a])
  {
    if |s| == 0 || !IsSpace(s[0]) then 0 else 1 + LeadingSpace(s[1..])
  }

  /** One past the last non-space character, or 0. */
  function TrailingEnd(s: string): (b: nat)
    ensures b <= |s|
    ensures forall j :: b <= j < |s| ==> IsSpace(s[j])
    ensures b > 0 ==> !IsSpace(s[b - 1])
  {
    if |s| == 0 || !IsSpace(s[|s| - 1]) then |s| else TrailingEnd(s[..|s| - 1])
  }

  /** `str.strip()`: the slice left once the whitespace at both ends is cut
      off, that is, the slice `s[i..j]` with only whitespace outside it and,
      unless it is empty, none at its ends. */
  function Strip(s: string): (r: string)
    ensures |r| <= |s|
    ensures |r| > 0 ==> !IsSpace(r[0]) && !IsSpace(r[|r| - 1])
    ensures exists i, j ::
              0 <= i <= j <= |s| && r == s[i..j]
              && (forall k :: 0 <= k < i ==> IsSpace(s[k])) && (forall k :: j <= k < |s| ==> IsSpace(s[k]))
  {
    var a := LeadingSpace(s);
    var b := TrailingEnd(s);
    if a < b then s[a..b]
    else
      assert a == |s| && s[|s|..|s|] == [];
      []
  }

  lemma LowerCharKeepsSpace(c: char)
    ensures IsSpace(LowerChar(c)) <==> IsSpace(c)
  {
  }

  /** A needle that starts and ends with a non-space character and occurs
      in the case-folded text still occurs after stripping. */
  lemma StripKeepsOccurrence(s: string, needle: string)
    requires |needle| > 0 && !IsSpace(needle[0]) && !IsSpace(needle[|needle| - 1])
    requires Contains(Lower(s), needle)
    ensures Contains(Lower(Strip(s)), needle)
  {
    var i :| 0 <= i <= |s| - |needle| && OccursAt(Lower(s), needle, i);
    var a, b := LeadingSpace(s), TrailingEnd(s);
    var last := i + |needle| - 1;
    assert Lower(s)[i + 0] == needle[0] && Lower(s)[i + (|needle| - 1)] == needle[|needle| - 1];
    LowerCharKeepsSpace(s[i]);
    LowerCharKeepsSpace(s[last]);
    assert a <= i;
    assert last < b;
    OccursInSlice(Lower(s), a, b, needle, i);
    LowerSlice(s, a, b);
    ContainsWitness(Lower(s[a..b]), needle, i - a);
  }

  // ---------------------------------------------------------------------
  // `s.replace(pat, rep)`: left to right, non-overlapping.

  function Replace(s: string, pat: string, rep: string): string
    requires |pat| > 0
    decreases |s|
  {
    if |s| < |pat| then s
    else if s[..|pat|] == pat then rep + Replace(s[|pat|..], pat, rep)
    else [s[0]] + Replace(s[1..], pat, rep)
  }

  /** Replacing a pattern that does not occur leaves the text as it was. */
  lemma {:induction false} ReplaceAbsent(s: string, pat: string, rep: string)
    requires |pat| > 0
    requires !Contains(s, pat)
    ensures Replace(s, pat, rep) == s
    decreases |s|
  {
    if |s| >= |pat| {
      if s[..|pat|] == pat {
        assert OccursAt(s, pat, 0);
        ContainsWitness(s, pat, 0);
      }
      if Contains(s[1..], pat) {
        assert s[1..|s|] == s[1..];
        ContainsInSlice(s, 1, |s|, pat);
      }
      ReplaceAbsent(s[1..], pat, rep);
    }
  }

  /** Replacing a pattern that occurs leaves the replacement in the text. */
  lemma {:induction false} ReplacePresent(s: string, pat: string, rep: string)
    requires |pat| > 0
    requires Contains(s, pat)
    ensures Contains(Replace(s, pat, rep), rep)
    decreases |s|
  {
    var i :| 0 <= i <= |s| - |pat| && OccursAt(s, pat, i);
    if s[..|pat|] == pat {
      ReplaceAtStart(s, pat, rep);
    } else {
      assert !OccursAt(s, pat, 0);
      OccursInSlice(s, 1, |s|, pat, i);
      assert s[1..|s|] == s[1..];
      ContainsWitness(s[1..], pat, i - 1);
      ReplacePresent(s[1..], pat, rep);
      assert Replace(s, pat, rep) == [s[0]] + Replace(s[1..], pat, rep);
      ContainsAfterPrefix(s[0], Replace(s[1..], pat, rep), rep);
    }
  }

  lemma ReplaceAtStart(s: string, pat: string, rep: string)
    requires 0 < |pat| <= |s| && s[..|pat|] == pat
    ensures Contains(Replace(s, pat, rep), rep)
  {
    var r := Replace(s, pat, rep);
    assert r == rep + Replace(s[|pat|..], pat, rep);
    assert OccursAt(r, rep, 0);
    ContainsWitness(r, rep, 0);
  }

  lemma ContainsAfterPrefix(c: char, hay: string, needle: string)
    requires Contains(hay, needle)
    ensures Contains([c] + hay, needle)
  {
    var j :| 0 <= j <= |hay| - |needle| && OccursAt(hay, needle, j);
    var r := [c] + hay;
    assert r[1..|r|] == hay;
    OccursFromSlice(r, 1, |r|, needle, j);
    ContainsWitness(r, needle, j + 1);
  }

  /** A text lacking one of the needle's characters does not contain it. */
  lemma MissingCharNotContained(hay: string, needle: string, k: int)
    requires 0 <= k < |needle| && needle[k] !in hay
    ensures !Contains(hay, needle)
  {
    forall i | 0 <= i <= |hay| - |needle|
      ensures !OccursAt(hay, needle, i)
    {
      assert hay[i + k] in hay;
    }
  }
}
