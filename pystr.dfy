/** The parts of Python's `str` behaviour the deployer relies on: the
    substring test `m in s`, `s.split(sep)` with a non-empty separator and
    `s.strip()` with no argument.  Strings are sequences of Unicode scalar
    values, as Python's are sequences of code points. */
module PyStr {

  datatype Option<T> = None | Some(value: T)

  /** `m` occurs in `s` starting at index `i`. */
  predicate OccursAt(s: string, m: string, i: nat) {
    i + |m| <= |s| && s[i..i + |m|] == m
  }

  lemma OccursAtTail(s: string, m: string, i: nat)
    requires |s| > 0
    ensures OccursAt(s[1..], m, i) <==> OccursAt(s, m, i + 1)
  {
    if i + |m| <= |s[1..]| {
      assert s[1..][i..i + |m|] == s[i + 1..i + 1 + |m|];
    }
  }

  lemma OccursAtPrefix(s: string, m: string, n: nat, i: nat)
    requires n <= |s|
    requires OccursAt(s[..n], m, i)
    ensures OccursAt(s, m, i)
  {
    assert s[..n][i..i + |m|] == s[i..i + |m|];
  }

  /** Index of the leftmost occurrence of `m` in `s` (Python's `s.find(m)`,
      with `None` for -1). */
  function Find(s: string, m: string): (r: Option<nat>)
    ensures r.Some? ==> OccursAt(s, m, r.value)
    ensures r.Some? ==> forall j :: 0 <= j < r.value ==> !OccursAt(s, m, j)
    ensures r.None? ==> forall j :: 0 <= j <= |s| ==> !OccursAt(s, m, j)
    decreases |s|
  {
    if |s| < |m| then None
    else if s[..|m|] == m then Some(0)
    else
      assert !OccursAt(s, m, 0);
      match Find(s[1..], m)
      case None =>
        assert forall j :: 1 <= j <= |s| ==> !OccursAt(s, m, j) by {
          forall j | 1 <= j <= |s| ensures !OccursAt(s, m, j) {
            OccursAtTail(s, m, j - 1);
          }
        }
        None
      case Some(i) =>
        OccursAtTail(s, m, i);
        assert forall j :: 1 <= j < i + 1 ==> !OccursAt(s, m, j) by {
          forall j | 1 <= j < i + 1 ensures !OccursAt(s, m, j) {
            OccursAtTail(s, m, j - 1);
          }
        }
        Some(i + 1)
  }

  /** Python's `m in s`. */
  predicate Contains(s: string, m: string) {
    Find(s, m).Some?
  }

  lemma ContainsAt(s: string, m: string, i: nat)
    requires OccursAt(s, m, i)
    ensures Contains(s, m)
  {
  }

  /** For a one-character needle, `[c] in s` is character membership. */
  lemma ContainsChar(s: string, c: char)
    ensures Contains(s, [c]) <==> c in s
  {
    if c in s {
      var i :| 0 <= i < |s| && s[i] == c;
      assert s[i..i + 1] == [c];
      ContainsAt(s, [c], i);
    }
    if Contains(s, [c]) {
      var i := Find(s, [c]).value;
      assert s[i..i + 1] == [c];
      assert s[i] == c;
    }
  }

  /** Python's `s.split(sep)` for a non-empty `sep`: the pieces between the
      non-overlapping occurrences of `sep`, found left to right. */
  function Split(s: string, sep: string): (parts: seq<string>)
    requires sep != ""
    ensures |parts| >= 1
    ensures |parts| >= 2 <==> Contains(s, sep)
    ensures forall k :: 0 <= k < |parts| ==> !Contains(parts[k], sep)
    decreases |s|
  {
    match Find(s, sep)
    case None => [s]
    case Some(i) =>
      var head := s[..i];
      assert !Contains(head, sep) by {
        if Contains(head, sep) {
          OccursAtPrefix(s, sep, i, Find(head, sep).value);
          assert false;
        }
      }
      [head] + Split(s[i + |sep|..], sep)
  }

  /** Python's `sep.join(parts)`; joining the pieces of a split gives back
      the split string (`SplitJoin`), so `Join` is a left inverse of `Split`. */
  function Join(parts: seq<string>, sep: string): string
  {
    if |parts| == 0 then ""
    else if |parts| == 1 then parts[0]
    else parts[0] + sep + Join(parts[1..], sep)
  }

  /** Splitting loses nothing: joining the pieces back gives the input. */
  lemma {:induction false} SplitJoin(s: string, sep: string)
    requires sep != ""
    ensures Join(Split(s, sep), sep) == s
    decreases |s|
  {
    var f := Find(s, sep);
    if f.Some? {
      var i := f.value;
      var rest := s[i + |sep|..];
      var parts, tail := Split(s, sep), Split(rest, sep);
      assert parts == [s[..i]] + tail;
      assert parts[1..] == tail;
      SplitJoin(rest, sep);
      calc {
        Join(parts, sep);
        parts[0] + sep + Join(tail, sep);
        s[..i] + sep + rest;
        { assert s[i..i + |sep|] == sep; }
        s;
      }
    }
  }

  /** Every character of a piece comes from the input. */
  lemma {:induction false} SplitPartChars(s: string, sep: string, k: nat, c: char)
    requires sep != ""
    requires k < |Split(s, sep)|
    requires c in Split(s, sep)[k]
    ensures c in s
    decreases |s|
  {
    var f := Find(s, sep);
    if f.Some? {
      var i := f.value;
      var rest := s[i + |sep|..];
      var parts, tail := Split(s, sep), Split(rest, sep);
      assert parts == [s[..i]] + tail;
      if k > 0 {
        assert parts[k] == tail[k - 1];
        SplitPartChars(rest, sep, k - 1, c);
        assert c in rest;
      } else {
        assert c in s[..i];
      }
    }
  }

  /** Splitting on a newline yields pieces that hold no newline. */
  lemma SplitLinesHaveNoNewline(s: string, k: nat)
    requires k < |Split(s, "\n")|
    ensures '\n' !in Split(s, "\n")[k]
  {
    ContainsChar(Split(s, "\n")[k], '\n');
  }

  /** Python's `str.isspace` on one character. */
  predicate IsSpace(c: char) {
    || c == ' '
    || ('\t' <= c <= '\r')
    || ('\U{1c}' <= c <= '\U{1f}')
    || c == '\U{85}' || c == '\U{a0}' || c == '\U{1680}'
    || ('\U{2000}' <= c <= '\U{200a}')
    || c == '\U{2028}' || c == '\U{2029}' || c == '\U{202f}'
    || c == '\U{205f}' || c == '\U{3000}'
  }

  /** Number of whitespace characters at the front of `s`. */
  function LeadingSpaces(s: string): (i: nat)
    ensures i <= |s|
    ensures forall k :: 0 <= k < i ==> IsSpace(s[k])
    ensures i < |s| ==> !IsSpace(s[i])
  {
    if s == [] || !IsSpace(s[0]) then 0 else 1 + LeadingSpaces(s[1..])
  }

  /** Index where the whitespace run at the end of `s` starts. */
  function TrailingStart(s: string): (j: nat)
    ensures j <= |s|
    ensures forall k :: j <= k < |s| ==> IsSpace(s[k])
    ensures 0 < j ==> !IsSpace(s[j - 1])
  {
    if s == [] || !IsSpace(s[|s| - 1]) then |s| else TrailingStart(s[..|s| - 1])
  }

  /** `s[i..j]` is what remains of `s` once the whitespace at both ends is
      removed: everything before `i` and from `j` on is whitespace, and a
      non-empty remainder starts and ends with a non-whitespace character. */
  predicate StrippedAt(s: string, i: nat, j: nat) {
    && i <= j <= |s|
    && (forall k :: 0 <= k < i ==> IsSpace(s[k]))
    && (forall k :: j <= k < |s| ==> IsSpace(s[k]))
    && (i < j ==> !IsSpace(s[i]) && !IsSpace(s[j - 1]))
  }

  /** Python's `s.strip()`. */
  function Strip(s: string): (r: string)
    ensures |r| <= |s|
    ensures r == "" <==> forall k :: 0 <= k < |s| ==> IsSpace(s[k])
    ensures r != "" ==> !IsSpace(r[0]) && !IsSpace(r[|r| - 1])
    ensures forall c :: c in r ==> c in s
  {
    var i := LeadingSpaces(s);
    if i == |s| then "" else s[i..TrailingStart(s)]
  }

  /** `Strip` returns exactly the remainder described by `StrippedAt`,
      whichever way that remainder is located. */
  lemma StripUnique(s: string, i: nat, j: nat)
    requires StrippedAt(s, i, j)
    ensures Strip(s) == s[i..j]
  {
  }

  /** Stripping twice is stripping once. */
  lemma StripIdempotent(s: string)
    ensures Strip(Strip(s)) == Strip(s)
  {
    var r := Strip(s);
    StripUnique(r, 0, |r|);
    assert r[0..|r|] == r;
  }
}
