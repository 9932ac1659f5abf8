/**
  The few Python string operations the backend relies on: `str.isspace`
  (which decides what `str.strip()` removes), `str.strip()`, substring
  search, `sep.join(...)` and `str.split(sep)`, all on `seq<char>`.
 */
module PyStr {
  import opened Wrappers

  /** The characters for which Python's `str.isspace()` holds. */
  predicate IsSpace(c: char) {
    || c == ' '
    || ('\t' <= c <= '\r')             // \t \n \v \f \r
    || ('\U{1C}' <= c <= '\U{1F}')     // file, group, record and unit separators
    || c == '\U{85}' || c == '\U{A0}' || c == '\U{1680}'
    || ('\U{2000}' <= c <= '\U{200A}')
    || c == '\U{2028}' || c == '\U{2029}' || c == '\U{202F}'
    || c == '\U{205F}' || c == '\U{3000}'
  }

  /** Neither end of `s` is a whitespace character. */
  predicate IsStripped(s: string) {
    s == [] || (!IsSpace(s[0]) && !IsSpace(s[|s| - 1]))
  }

  /** The index of the first non-whitespace character of `s` at or after `i`, or `|s|`. */
  function SkipSpaces(s: string, i: nat): (n: nat)
    requires i <= |s|
    ensures i <= n <= |s|
    ensures n == |s| || !IsSpace(s[n])
    decreases |s| - i
  {
    if i == |s| || !IsSpace(s[i]) then i else SkipSpaces(s, i + 1)
  }

  /** Everything skipped is whitespace. */
  lemma {:induction false} SkipSpacesSkipsSpace(s: string, i: nat)
    requires i <= |s|
    ensures forall k :: i <= k < SkipSpaces(s, i) ==> IsSpace(s[k])
    decreases |s| - i
  {
    if i < |s| && IsSpace(s[i]) {
      SkipSpacesSkipsSpace(s, i + 1);
    }
  }

  /** The end of `s[..j]` once its trailing whitespace is dropped. */
  function SkipSpacesBack(s: string, j: nat): (n: nat)
    requires j <= |s|
    ensures n <= j
    ensures n == 0 || !IsSpace(s[n - 1])
  {
    if j == 0 || !IsSpace(s[j - 1]) then j else SkipSpacesBack(s, j - 1)
  }

  /** Everything skipped backwards is whitespace. */
  lemma {:induction false} SkipSpacesBackSkipsSpace(s: string, j: nat)
    requires j <= |s|
    ensures forall k :: SkipSpacesBack(s, j) <= k < j ==> IsSpace(s[k])
  {
    if j > 0 && IsSpace(s[j - 1]) {
      SkipSpacesBackSkipsSpace(s, j - 1);
    }
  }

  /** `s` is whitespace, then `m` at offset `i`, then whitespace. */
  ghost predicate Split3(s: string, i: int, m: string)
  {
    && 0 <= i && i + |m| <= |s| && s[i..i + |m|] == m
    && (forall k :: 0 <= k < i ==> IsSpace(s[k]))
    && (forall k :: i + |m| <= k < |s| ==> IsSpace(s[k]))
  }

  /** Python's `s.strip()` with no argument. */
  function Strip(s: string): (r: string)
    ensures IsStripped(r)
    ensures |r| <= |s|
  {
    var i := SkipSpaces(s, 0);
    var j := SkipSpacesBack(s, |s|);
    if j <= i then [] else s[i..j]
  }

  /** What strip removes is whitespace at both ends, and nothing else. */
  lemma StripSplits(s: string)
    ensures exists i :: Split3(s, i, Strip(s))
  {
    var i, j := SkipSpaces(s, 0), SkipSpacesBack(s, |s|);
    SkipSpacesSkipsSpace(s, 0);
    SkipSpacesBackSkipsSpace(s, |s|);
    if j <= i {
      forall k | 0 <= k < |s| ensures IsSpace(s[k]) {
        if i <= k {
          assert j <= k;
        }
      }
      assert Strip(s) == [];
      assert Split3(s, 0, []);
    } else {
      var m := s[i..j];
      assert Strip(s) == m;
      assert s[i..i + |m|] == m;
      assert Split3(s, i, m);
    }
  }

  /**
    Strip is characterised by StripSplits and its own ensures: whenever `s`
    is whitespace, then `m`, then whitespace, with `m` not starting or
    ending in whitespace, stripping `s` gives `m`.
   */
  lemma StripUnique(s: string, i: nat, m: string)
    requires Split3(s, i, m) && IsStripped(m)
    ensures Strip(s) == m
  {
    var lo, hi := SkipSpaces(s, 0), SkipSpacesBack(s, |s|);
    SkipSpacesSkipsSpace(s, 0);
    SkipSpacesBackSkipsSpace(s, |s|);
    if m == [] {
      assert lo == |s| && hi == 0;
    } else {
      assert s[i] == m[0] && s[i + |m| - 1] == m[|m| - 1];
      assert lo == i;
      assert hi == i + |m|;
    }
  }

  /** Stripping twice is stripping once. */
  lemma StripIdempotent(s: string)
    ensures Strip(Strip(s)) == Strip(s)
  {
    var r := Strip(s);
    assert r[0..|r|] == r;
    StripUnique(r, 0, r);
  }

  /** `pat` occurs in `s` starting at index `i`. */
  predicate OccursAt(s: string, pat: string, i: int) {
    0 <= i && i + |pat| <= |s| && s[i..i + |pat|] == pat
  }

  ghost predicate Contains(s: string, pat: string) {
    exists i :: OccursAt(s, pat, i)
  }

  /** The first index at or after `from` where `pat` occurs in `s`, like Python's `s.find(pat, from)`. */
  function Find(s: string, pat: string, from: nat): (r: Option<nat>)
    ensures r.Some? ==> from <= r.value && OccursAt(s, pat, r.value)
    ensures r.Some? ==> forall j :: from <= j < r.value ==> !OccursAt(s, pat, j)
    ensures r.None? ==> forall j :: from <= j ==> !OccursAt(s, pat, j)
    decreases |s| - from
  {
    if from + |pat| > |s| then None
    else if OccursAt(s, pat, from) then Some(from)
    else Find(s, pat, from + 1)
  }

  /** What a piece cut out of `s` contains, `s` contains too. */
  lemma PieceOccurrence(s: string, lo: nat, hi: nat, pat: string)
    requires lo <= hi <= |s|
    ensures Contains(s[lo..hi], pat) ==> Contains(s, pat)
  {
    if Contains(s[lo..hi], pat) {
      var i :| OccursAt(s[lo..hi], pat, i);
      forall k | 0 <= k < |pat| ensures s[lo + i + k] == pat[k] {
        assert s[lo..hi][i..i + |pat|][k] == pat[k];
      }
      assert s[lo + i..lo + i + |pat|] == pat;
      assert OccursAt(s, pat, lo + i);
    }
  }

  /** Whatever the stripped text contains, the text contains. */
  lemma StripContains(s: string, pat: string)
    ensures Contains(Strip(s), pat) ==> Contains(s, pat)
  {
    StripSplits(s);
    var i :| Split3(s, i, Strip(s));
    PieceOccurrence(s, i, i + |Strip(s)|, pat);
  }

  /** An occurrence inside the bounds of a piece is an occurrence in the piece. */
  lemma OccurrenceInPiece(s: string, lo: nat, hi: nat, pat: string, i: int)
    requires lo <= hi <= |s|
    ensures lo <= i && i + |pat| <= hi && OccursAt(s, pat, i) ==> OccursAt(s[lo..hi], pat, i - lo)
  {
    if lo <= i && i + |pat| <= hi && OccursAt(s, pat, i) {
      forall j | 0 <= j < |pat| ensures s[lo..hi][i - lo..i - lo + |pat|][j] == pat[j] {
        assert s[i..i + |pat|][j] == pat[j];
      }
    }
  }

  /** The character at offset `j` of an occurrence is the pattern's `j`-th. */
  lemma OccurrenceChar(s: string, pat: string, i: int, j: nat)
    requires j < |pat|
    ensures OccursAt(s, pat, i) ==> s[i + j] == pat[j]
  {
    if OccursAt(s, pat, i) {
      assert s[i..i + |pat|][j] == pat[j];
    }
  }

  /** Python's `sep.join(parts)` for a one-character separator. */
  function Join(parts: seq<string>, sep: char): (r: string)
    ensures parts == [] ==> r == []
    ensures |parts| == 1 ==> r == parts[0]
  {
    if |parts| == 0 then []
    else if |parts| == 1 then parts[0]
    else parts[0] + [sep] + Join(parts[1..], sep)
  }

  /** Python's `s.split(sep)` for a one-character separator: `s.count(sep) + 1` pieces. */
  function Split(s: string, sep: char): (r: seq<string>)
    ensures |r| >= 1
    decreases |s|
  {
    if s == [] then [[]]
    else
      var rest := Split(s[1..], sep);
      if s[0] == sep then [[]] + rest
      else [[s[0]] + rest[0]] + rest[1..]
  }

  /** A piece that holds no separator splits into itself, and what follows a separator splits on. */
  lemma {:induction false} SplitPiece(a: string, sep: char, tail: Option<string>)
    requires sep !in a
    ensures tail.None? ==> Split(a, sep) == [a]
    ensures tail.Some? ==> Split(a + [sep] + tail.value, sep) == [a] + Split(tail.value, sep)
  {
    if a != [] {
      SplitPiece(a[1..], sep, tail);
      assert [a[0]] + a[1..] == a;
      if tail.Some? {
        assert (a + [sep] + tail.value)[1..] == a[1..] + [sep] + tail.value;
      }
    } else if tail.Some? {
      assert [sep] + tail.value == a + [sep] + tail.value;
    }
  }

  /** Splitting a join gives back the parts, provided no part holds the separator. */
  lemma {:induction false} SplitJoin(parts: seq<string>, sep: char)
    requires parts != []
    requires forall k :: 0 <= k < |parts| ==> sep !in parts[k]
    ensures Split(Join(parts, sep), sep) == parts
  {
    if |parts| == 1 {
      SplitPiece(parts[0], sep, None);
    } else {
      SplitJoin(parts[1..], sep);
      SplitPiece(parts[0], sep, Some(Join(parts[1..], sep)));
    }
  }

  /** Joining a split gives back the string. */
  lemma {:induction false} JoinSplit(s: string, sep: char)
    ensures Join(Split(s, sep), sep) == s
    decreases |s|
  {
    if s != [] {
      var rest := Split(s[1..], sep);
      JoinSplit(s[1..], sep);
      if s[0] != sep {
        var r := Split(s, sep);
        assert r[1..] == rest[1..];
        if |rest| == 1 {
          assert Join(r, sep) == [s[0]] + rest[0];
        } else {
          assert Join(r, sep) == [s[0]] + rest[0] + [sep] + Join(rest[1..], sep);
        }
        assert s == [s[0]] + s[1..];
      }
    }
  }
}
