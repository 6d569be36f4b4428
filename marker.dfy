/** Reading the deployed identifier out of a deploy script's standard
    output: the output is split into lines, the first line holding the
    chain's marker is taken, and the text after the marker (up to any
    second occurrence of it) is stripped of surrounding whitespace. */
module MarkerScan {
  import opened PyStr

  /** `stdout.split('\n')`. */
  function Lines(stdout: string): (lines: seq<string>)
    ensures |lines| >= 1
    ensures forall k :: 0 <= k < |lines| ==> '\n' !in lines[k]
  {
    var lines := Split(stdout, "\n");
    forall k | 0 <= k < |lines| ensures '\n' !in lines[k] {
      SplitLinesHaveNoNewline(stdout, k);
    }
    lines
  }

  /** `line.split(marker)[1].strip()`, for a line that holds the marker. */
  function MarkerField(line: string, marker: string): string
    requires marker != "" && Contains(line, marker)
  {
    Strip(Split(line, marker)[1])
  }

  /** Line `k` is the first line that holds the marker. */
  predicate FirstMarkerLine(lines: seq<string>, marker: string, k: nat) {
    && k < |lines|
    && Contains(lines[k], marker)
    && forall j :: 0 <= j < k ==> !Contains(lines[j], marker)
  }

  /** The value the scan over `lines` finds: the field of the first line
      holding the marker, or nothing when no line holds it. */
  function FirstMarkerValue(lines: seq<string>, marker: string): (v: Option<string>)
    requires marker != ""
    ensures v.None? <==> forall k :: 0 <= k < |lines| ==> !Contains(lines[k], marker)
  {
    if lines == [] then None
    else if Contains(lines[0], marker) then Some(MarkerField(lines[0], marker))
    else
      var v := FirstMarkerValue(lines[1..], marker);
      assert forall k :: 1 <= k < |lines| ==> lines[k] == lines[1..][k - 1];
      v
  }

  /** The scan returns the field of the first marker line. */
  lemma {:induction false} FirstMarkerValueAt(lines: seq<string>, marker: string, k: nat)
    requires marker != ""
    requires FirstMarkerLine(lines, marker, k)
    ensures FirstMarkerValue(lines, marker) == Some(MarkerField(lines[k], marker))
  {
    if k > 0 {
      assert !Contains(lines[0], marker);
      assert FirstMarkerLine(lines[1..], marker, k - 1) by {
        assert forall j :: 0 <= j < k - 1 ==> lines[1..][j] == lines[j + 1];
      }
      FirstMarkerValueAt(lines[1..], marker, k - 1);
    }
  }

  /** Lines after the first marker line play no part in the result. */
  lemma LaterLinesIgnored(lines: seq<string>, marker: string, k: nat, rest: seq<string>)
    requires marker != ""
    requires FirstMarkerLine(lines, marker, k)
    ensures FirstMarkerValue(lines[..k + 1] + rest, marker) == FirstMarkerValue(lines, marker)
  {
    var lines' := lines[..k + 1] + rest;
    assert FirstMarkerLine(lines', marker, k) by {
      assert forall j :: 0 <= j <= k ==> lines'[j] == lines[j];
    }
    FirstMarkerValueAt(lines, marker, k);
    FirstMarkerValueAt(lines', marker, k);
  }

  lemma SliceContains(s: string, a: nat, b: nat, m: string)
    requires a <= b <= |s|
    requires Contains(s[a..b], m)
    ensures Contains(s, m)
  {
    var i := Find(s[a..b], m).value;
    assert OccursAt(s[a..b], m, i);
    assert i + |m| <= b - a;
    assert s[a + i..a + i + |m|] == m by {
      forall t | 0 <= t < |m| ensures s[a + i..a + i + |m|][t] == m[t] {
        assert s[a..b][i..i + |m|][t] == m[t];
      }
    }
    ContainsAt(s, m, a + i);
  }

  lemma StripIsSlice(s: string)
    ensures exists a: nat, b: nat :: a <= b <= |s| && Strip(s) == s[a..b]
  {
    var i := LeadingSpaces(s);
    if i == |s| {
      assert Strip(s) == s[0..0];
    } else {
      assert Strip(s) == s[i..TrailingStart(s)];
    }
  }

  /** The second piece of `s.split(sep)` is the text between the first
      occurrence of `sep` and the next one, or the end of `s`. */
  lemma SecondPiece(s: string, sep: string)
    requires sep != "" && Contains(s, sep)
    ensures
      var i := Find(s, sep).value;
      var after := s[i + |sep|..];
      Split(s, sep)[1] == match Find(after, sep)
                          case None => after
                          case Some(j) => after[..j]
  {
    var i := Find(s, sep).value;
    var after := s[i + |sep|..];
    assert Split(s, sep) == [s[..i]] + Split(after, sep);
  }

  /** Stripping a string that does not hold `m` gives one that does not. */
  lemma StripKeepsAbsence(s: string, m: string)
    requires !Contains(s, m)
    ensures !Contains(Strip(s), m)
  {
    StripIsSlice(s);
    if Contains(Strip(s), m) {
      var a: nat, b: nat :| a <= b <= |s| && Strip(s) == s[a..b];
      SliceContains(s, a, b, m);
    }
  }

  /** The field is the text between the first occurrence of the marker and
      the next one (or the end of the line), stripped; it never holds the
      marker itself. */
  lemma MarkerFieldBetween(line: string, marker: string)
    requires marker != "" && Contains(line, marker)
    ensures
      var i := Find(line, marker).value;
      var after := line[i + |marker|..];
      MarkerField(line, marker) == Strip(match Find(after, marker)
                                         case None => after
                                         case Some(j) => after[..j])
    ensures !Contains(MarkerField(line, marker), marker)
  {
    SecondPiece(line, marker);
    StripKeepsAbsence(Split(line, marker)[1], marker);
  }

  /** The loop of the deploy step: walk the lines in order and stop at the
      first one holding the marker. */
  method ScanLines(lines: seq<string>, marker: string) returns (value: Option<string>)
    requires marker != ""
    ensures value == FirstMarkerValue(lines, marker)
    ensures value.Some? <==> exists k :: 0 <= k < |lines| && Contains(lines[k], marker)
  {
    value := None;
    var i := 0;
    while i < |lines|
      invariant 0 <= i <= |lines|
      invariant FirstMarkerValue(lines[i..], marker) == FirstMarkerValue(lines, marker)
    {
      var line := lines[i];
      if Contains(line, marker) {
        var parts := Split(line, marker);
        value := Some(Strip(parts[1]));
        assert lines[i..][0] == line;
        break;
      }
      assert lines[i..][1..] == lines[i + 1..];
      i := i + 1;
    }
  }

  /** The identifier a deploy step accepts: the scanned value when it is
      present and non-empty (an empty string is falsy). */
  function Identifier(stdout: string, marker: string): Option<string>
    requires marker != ""
  {
    match FirstMarkerValue(Lines(stdout), marker)
    case Some(v) => if v != "" then Some(v) else None
    case None => None
  }

  /** A found value comes from the first marker line. */
  lemma {:induction false} FirstMarkerLineOf(lines: seq<string>, marker: string) returns (k: nat)
    requires marker != ""
    requires FirstMarkerValue(lines, marker).Some?
    ensures FirstMarkerLine(lines, marker, k)
    ensures FirstMarkerValue(lines, marker) == Some(MarkerField(lines[k], marker))
  {
    if Contains(lines[0], marker) {
      k := 0;
    } else {
      var k' := FirstMarkerLineOf(lines[1..], marker);
      k := k' + 1;
      assert lines[k] == lines[1..][k'];
      assert forall j :: 1 <= j < k ==> lines[j] == lines[1..][j - 1];
    }
  }

  /** An accepted identifier is non-empty, has no surrounding whitespace and
      holds neither a newline nor the marker. */
  lemma IdentifierShape(stdout: string, marker: string)
    requires marker != ""
    requires Identifier(stdout, marker).Some?
    ensures
      var id := Identifier(stdout, marker).value;
      && id != ""
      && !IsSpace(id[0]) && !IsSpace(id[|id| - 1])
      && '\n' !in id
      && !Contains(id, marker)
  {
    var lines := Lines(stdout);
    var k := FirstMarkerLineOf(lines, marker);
    var id := MarkerField(lines[k], marker);
    MarkerFieldBetween(lines[k], marker);
    var piece := Split(lines[k], marker)[1];
    assert '\n' !in piece by {
      if '\n' in piece {
        SplitPartChars(lines[k], marker, 1, '\n');
      }
    }
  }
}
