/** The Python string builtins the agent relies on: `strip`, `upper`, `title`,
    `replace`, `split`, substring search and decimal digits. Case mapping is
    modelled for ASCII letters only. */
module Text {
  import opened Wrappers

  /** `str.isspace()` for a single character (the Unicode whitespace set Python uses,
      which is also what `\s` matches in a `str` pattern). */
  predicate IsSpace(c: char) {
    var n := c as int;
    (9 <= n <= 13) || (28 <= n <= 32) || n == 0x85 || n == 0xA0 || n == 0x1680
    || (0x2000 <= n <= 0x200A) || n == 0x2028 || n == 0x2029 || n == 0x202F
    || n == 0x205F || n == 0x3000
  }

  predicate AllSpace(s: string) {
    forall i :: 0 <= i < |s| ==> IsSpace(s[i])
  }

  /** The end of the run of whitespace that starts at `k`. */
  function SpaceRunEnd(s: string, k: nat): (n: nat)
    requires k <= |s|
    ensures k <= n <= |s|
    ensures forall i :: k <= i < n ==> IsSpace(s[i])
    ensures n < |s| ==> !IsSpace(s[n])
    decreases |s| - k
  {
    if k < |s| && IsSpace(s[k]) then SpaceRunEnd(s, k + 1) else k
  }

  /** The start of the run of whitespace that ends at `k`, going no lower than `lo`. */
  function SpaceRunStart(s: string, lo: nat, k: nat): (n: nat)
    requires lo <= k <= |s|
    ensures lo <= n <= k
    ensures forall i :: n <= i < k ==> IsSpace(s[i])
    ensures n > lo ==> !IsSpace(s[n - 1])
    decreases k - lo
  {
    if k > lo && IsSpace(s[k - 1]) then SpaceRunStart(s, lo, k - 1) else k
  }

  /** Non-empty, with no whitespace at either end. */
  predicate Trimmed(s: string) {
    s != [] && !IsSpace(s[0]) && !IsSpace(s[|s| - 1])
  }

  /** `str.strip()`: the slice of `s` left after dropping whitespace at both ends. */
  function Strip(s: string): (r: string)
    ensures |r| <= |s|
    ensures r == [] || Trimmed(r)
    ensures r == [] <==> AllSpace(s)
    ensures forall c :: c in r ==> c in s
  {
    var a := SpaceRunEnd(s, 0);
    var b := SpaceRunStart(s, a, |s|);
    assert a < |s| ==> b > a;
    s[a..b]
  }

  lemma StripOfTrimmed(s: string)
    requires s == [] || Trimmed(s)
    ensures Strip(s) == s
  {
  }

  function UpperChar(c: char): char {
    if 'a' <= c <= 'z' then (c as int - 32) as char else c
  }

  function LowerChar(c: char): char {
    if 'A' <= c <= 'Z' then (c as int + 32) as char else c
  }

  predicate IsCased(c: char) {
    'a' <= c <= 'z' || 'A' <= c <= 'Z'
  }

  /** `str.upper()` */
  function Upper(s: string): (r: string)
    ensures |r| == |s|
  {
    seq(|s|, i requires 0 <= i < |s| => UpperChar(s[i]))
  }

  /** `str.title()`: a cased character is upper-cased when it follows an uncased one
      (or starts the string) and lower-cased otherwise. */
  function TitleFrom(s: string, afterCased: bool): (r: string)
    ensures |r| == |s|
    ensures forall i :: 0 <= i < |s| ==> r[i] == UpperChar(s[i]) || r[i] == LowerChar(s[i])
  {
    if s == [] then []
    else [if afterCased then LowerChar(s[0]) else UpperChar(s[0])] + TitleFrom(s[1..], IsCased(s[0]))
  }

  function Title(s: string): (r: string)
    ensures |r| == |s|
    ensures forall i :: 0 <= i < |s| ==> r[i] == UpperChar(s[i]) || r[i] == LowerChar(s[i])
  {
    TitleFrom(s, false)
  }

  /** On lower-case words separated by spaces, `title` capitalises exactly the first
      letter of every word. */
  lemma {:induction false} TitleOfLowerWords(s: string, afterCased: bool)
    requires forall i :: 0 <= i < |s| ==> 'a' <= s[i] <= 'z' || s[i] == ' '
    ensures forall i :: 0 <= i < |s| ==>
              TitleFrom(s, afterCased)[i]
              == if (i == 0 && !afterCased) || (i > 0 && s[i - 1] == ' ') then UpperChar(s[i]) else s[i]
  {
    if s != [] {
      TitleOfLowerWords(s[1..], IsCased(s[0]));
      var r := TitleFrom(s, afterCased);
      forall i | 0 < i < |s|
        ensures r[i] == if s[i - 1] == ' ' then UpperChar(s[i]) else s[i]
      {
        assert r[i] == TitleFrom(s[1..], IsCased(s[0]))[i - 1];
        assert s[1..][i - 1] == s[i];
        if i > 1 { assert s[1..][i - 2] == s[i - 1]; }
      }
    }
  }

  /** `s.replace(a, b)` for single characters. */
  function ReplaceChar(s: string, a: char, b: char): (r: string)
    ensures |r| == |s|
  {
    seq(|s|, i requires 0 <= i < |s| => if s[i] == a then b else s[i])
  }

  // ---------------------------------------------------------------------------
  // Substring search

  /** `p` occurs in `s` starting at position `j`. */
  predicate OccursAt(s: string, p: string, j: nat) {
    j + |p| <= |s| && forall k :: 0 <= k < |p| ==> s[j + k] == p[k]
  }

  /** The first position at or after `from` where `p` occurs in `s` (`str.find`). */
  function IndexOf(s: string, p: string, from: nat): (r: Option<nat>)
    ensures r.Some? ==> from <= r.value && r.value + |p| <= |s|
    decreases |s| - from
  {
    if from + |p| > |s| then None
    else if OccursAt(s, p, from) then Some(from)
    else IndexOf(s, p, from + 1)
  }

  /** The search is exact: what it finds is an occurrence, no occurrence lies before
      it, and there is none at all when nothing is found. */
  lemma {:induction false} IndexOfFirst(s: string, p: string, from: nat)
    ensures var r := IndexOf(s, p, from);
            (r.Some? ==> OccursAt(s, p, r.value))
            && (r.Some? ==> forall j :: from <= j < r.value ==> !OccursAt(s, p, j))
            && (r.None? ==> forall j :: from <= j ==> !OccursAt(s, p, j))
    decreases |s| - from
  {
    if from + |p| <= |s| && !OccursAt(s, p, from) {
      IndexOfFirst(s, p, from + 1);
    }
  }

  /** `p in s` for strings. */
  predicate Contains(s: string, p: string) {
    IndexOf(s, p, 0).Some?
  }

  /** A string contains its own tail. */
  lemma ContainsEnd(s: string, x: string, p: string)
    requires s == x + p
    ensures Contains(s, p)
  {
    assert OccursAt(s, p, |x|);
    IndexOfFirst(s, p, 0);
  }

  /** `p in s` is false when one of the characters of `p` does not occur in `s`. */
  lemma NotContainsChar(s: string, p: string, m: nat)
    requires m < |p| && p[m] !in s
    ensures !Contains(s, p)
  {
    IndexOfFirst(s, p, 0);
  }

  /** `p in s` is false when the first character of `p` is missing from every place
      where an occurrence of `p` could start. */
  lemma NotContainsHead(s: string, p: string)
    requires |p| <= |s| && p != [] && p[0] !in s[..|s| - |p| + 1]
    ensures !Contains(s, p)
  {
    IndexOfFirst(s, p, 0);
  }

  /** An occurrence found in `x` is still the first one in `x + y`. */
  lemma {:induction false} IndexOfPrefix(x: string, y: string, p: string, from: nat)
    requires IndexOf(x, p, from).Some?
    ensures IndexOf(x + y, p, from) == IndexOf(x, p, from)
    decreases |x| - from
  {
    assert OccursAt(x + y, p, from) <==> OccursAt(x, p, from);
    if !OccursAt(x, p, from) {
      IndexOfPrefix(x, y, p, from + 1);
    }
  }

  /** Searching `x + y` past `x` is searching `y`, shifted by `|x|`. */
  lemma {:induction false} IndexOfShift(x: string, y: string, p: string, from: nat)
    ensures IndexOf(x + y, p, |x| + from) ==
            (match IndexOf(y, p, from) case None => None case Some(j) => Some(|x| + j))
    decreases |y| - from
  {
    if from + |p| <= |y| {
      assert OccursAt(x + y, p, |x| + from) <==> OccursAt(y, p, from);
      if !OccursAt(y, p, from) {
        IndexOfShift(x, y, p, from + 1);
      }
    }
  }

  /** Searching `x + y` from the end of `x` is searching `y` from its start. */
  lemma IndexOfAfter(x: string, y: string, p: string)
    ensures IndexOf(y, p, 0).Some? ==> IndexOf(x + y, p, |x|) == Some(|x| + IndexOf(y, p, 0).value)
    ensures IndexOf(y, p, 0).None? ==> IndexOf(x + y, p, |x|).None?
  {
    var n := |x|;
    IndexOfShift(x, y, p, 0);
    assert n + 0 == n;
  }

  /** In `pre + o + (body + c + post)`, where `pre + o` holds no earlier `o` and
      `body + c` no earlier `c`, the first `o` follows `pre` and the first `c` after
      it follows `body`. */
  lemma EmbeddedSearch(pre: string, o: string, body: string, c: string, post: string)
    requires IndexOf(pre + o, o, 0) == Some(|pre|)
    requires IndexOf(body + c, c, 0) == Some(|body|)
    ensures IndexOf(pre + o + (body + c + post), o, 0) == Some(|pre|)
    ensures IndexOf(pre + o + (body + c + post), c, |pre| + |o|) == Some(|pre| + |o| + |body|)
  {
    IndexOfPrefix(pre + o, body + c + post, o, 0);
    IndexOfPrefix(body + c, post, c, 0);
    IndexOfAfter(pre + o, body + c + post, c);
  }

  // ---------------------------------------------------------------------------
  // str.split(sep) and its inverse

  /** `s.split(sep)` for a one-character separator: never empty, and `""` gives `[""]`. */
  function Split(s: string, sep: char): (r: seq<string>)
    ensures |r| >= 1
    ensures forall i :: 0 <= i < |r| ==> sep !in r[i]
  {
    if s == [] then [""]
    else
      var rest := Split(s[1..], sep);
      if s[0] == sep then [""] + rest
      else [[s[0]] + rest[0]] + rest[1..]
  }

  /** `sep.join(parts)` */
  function Join(parts: seq<string>, sep: char): string
    requires |parts| >= 1
  {
    if |parts| == 1 then parts[0] else parts[0] + [sep] + Join(parts[1..], sep)
  }

  lemma {:induction false} JoinSplit(s: string, sep: char)
    ensures Join(Split(s, sep), sep) == s
  {
    if s != [] {
      JoinSplit(s[1..], sep);
      var rest := Split(s[1..], sep);
      if s[0] == sep {
        assert Split(s, sep)[1..] == rest;
      } else if |rest| == 1 {
        assert Join(Split(s, sep), sep) == [s[0]] + rest[0];
      } else {
        assert Split(s, sep)[1..] == rest[1..];
        assert Join(rest, sep) == rest[0] + [sep] + Join(rest[1..], sep);
      }
    }
  }

  lemma {:induction false} SplitJoin(parts: seq<string>, sep: char)
    requires |parts| >= 1
    requires forall i :: 0 <= i < |parts| ==> sep !in parts[i]
    ensures Split(Join(parts, sep), sep) == parts
    decreases |parts|, |parts[0]|
  {
    if |parts| == 1 {
      SplitNoSep(parts[0], sep);
    } else if parts[0] == [] {
      var tail := Join(parts[1..], sep);
      assert Join(parts, sep) == [sep] + tail;
      assert ([sep] + tail)[1..] == tail;
      SplitJoin(parts[1..], sep);
      assert parts == [""] + parts[1..];
    } else {
      var c := parts[0][0];
      var shorter := [parts[0][1..]] + parts[1..];
      assert shorter[1..] == parts[1..];
      assert Join(parts, sep) == [c] + Join(shorter, sep);
      assert ([c] + Join(shorter, sep))[1..] == Join(shorter, sep);
      assert c != sep by { assert c == parts[0][0]; }
      forall i | 0 <= i < |shorter| ensures sep !in shorter[i] {
        if i == 0 { assert forall x :: x in parts[0][1..] ==> x in parts[0]; } else { assert shorter[i] == parts[i]; }
      }
      SplitJoin(shorter, sep);
      assert [c] + shorter[0] == parts[0];
      assert parts == [parts[0]] + parts[1..];
    }
  }

  lemma {:induction false} SplitNoSep(s: string, sep: char)
    requires sep !in s
    ensures Split(s, sep) == [s]
  {
    if s != [] {
      assert sep !in s[1..] by { assert forall x :: x in s[1..] ==> x in s; }
      SplitNoSep(s[1..], sep);
      assert [s[0]] + s[1..] == s;
    }
  }

  // ---------------------------------------------------------------------------
  // Decimal digits

  predicate IsDigit(c: char) {
    '0' <= c <= '9'
  }

  /** `int(ds)` for a non-empty run of ASCII digits. */
  function DigitsValue(ds: string): (n: nat)
    requires forall i :: 0 <= i < |ds| ==> IsDigit(ds[i])
  {
    if ds == [] then 0
    else
      assert IsDigit(ds[|ds| - 1]);
      DigitsValue(ds[..|ds| - 1]) * 10 + (ds[|ds| - 1] as int - '0' as int)
  }
}
