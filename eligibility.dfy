/**
 * `isSupportedByIntel`: a plain-text scan of a project file deciding whether
 * it is converted at all.  The scan stops at the first line holding any
 * ConfigurationType marker.
 */
module Eligibility {
  import opened Wrappers
  import opened Text

  const MakefileMarker := "<ConfigurationType>Makefile</ConfigurationType>"
  const ApplicationMarker := "<ConfigurationType>Application</ConfigurationType>"
  const DllMarker := "<ConfigurationType>DynamicLibrary</ConfigurationType>"
  const LibMarker := "<ConfigurationType>StaticLibrary</ConfigurationType>"

  /** The line names one of the three supported configuration types. */
  predicate SupportedLine(line: string)
  {
    Contains(line, ApplicationMarker) || Contains(line, DllMarker) || Contains(line, LibMarker)
  }

  /** The line names any configuration type the scan reacts to. */
  predicate MarkerLine(line: string)
  {
    SupportedLine(line) || Contains(line, MakefileMarker)
  }

  /** The verdict of one line: the three supported markers are tested before Makefile. */
  function LineVerdict(line: string): (r: Option<bool>)
    ensures r.None? <==> !MarkerLine(line)
    ensures r == Some(true) <==> SupportedLine(line)
  {
    if Contains(line, ApplicationMarker) then Some(true)
    else if Contains(line, DllMarker) then Some(true)
    else if Contains(line, LibMarker) then Some(true)
    else if Contains(line, MakefileMarker) then Some(false)
    else None
  }

  /** `isSupportedByIntel` (1 as `true`, 0 as `false`): the first line with a verdict decides. */
  function IsSupportedByIntel(lines: seq<string>): (r: bool)
    ensures r ==> exists k :: 0 <= k < |lines| && SupportedLine(lines[k])
  {
    if lines == [] then false
    else match LineVerdict(lines[0])
      case Some(verdict) => verdict
      case None =>
        assert forall k :: 0 <= k < |lines| - 1 ==> lines[1..][k] == lines[k + 1];
        IsSupportedByIntel(lines[1..])
  }

  /** The earliest marker line alone decides; later lines play no part. */
  lemma {:induction false} FirstMarkerDecides(lines: seq<string>, k: nat)
    requires k < |lines| && MarkerLine(lines[k])
    requires forall j :: 0 <= j < k ==> !MarkerLine(lines[j])
    ensures IsSupportedByIntel(lines) == SupportedLine(lines[k])
  {
    if k > 0 {
      assert !MarkerLine(lines[0]);
      FirstMarkerDecides(lines[1..], k - 1);
    }
  }

  /** A file without any marker is not converted. */
  lemma {:induction false} NoMarkerNotSupported(lines: seq<string>)
    requires forall j :: 0 <= j < |lines| ==> !MarkerLine(lines[j])
    ensures !IsSupportedByIntel(lines)
  {
    if lines != [] {
      NoMarkerNotSupported(lines[1..]);
    }
  }

  /**
   * A reference reading of the scan: a file is supported iff some line names
   * a supported type and no earlier line names any type.
   */
  lemma {:induction false} SupportedIff(lines: seq<string>)
    ensures IsSupportedByIntel(lines) <==>
      exists k :: 0 <= k < |lines| && SupportedLine(lines[k]) && forall j :: 0 <= j < k ==> !MarkerLine(lines[j])
  {
    if lines != [] {
      SupportedIff(lines[1..]);
      if IsSupportedByIntel(lines) {
        if SupportedLine(lines[0]) {
          assert SupportedLine(lines[0]);
        } else {
          var k :| 0 <= k < |lines[1..]| && SupportedLine(lines[1..][k]) && forall j :: 0 <= j < k ==> !MarkerLine(lines[1..][j]);
          assert forall j :: 0 <= j < k + 1 ==> !MarkerLine(lines[j]) by {
            forall j | 0 <= j < k + 1 ensures !MarkerLine(lines[j]) {
              if j > 0 { assert lines[j] == lines[1..][j - 1]; }
            }
          }
          assert SupportedLine(lines[k + 1]);
        }
      } else {
        forall k | 0 <= k < |lines| && SupportedLine(lines[k])
          ensures exists j :: 0 <= j < k && MarkerLine(lines[j])
        {
          if k == 0 {
            assert false;
          } else if !MarkerLine(lines[0]) {
            assert lines[k] == lines[1..][k - 1];
            var j :| 0 <= j < k - 1 && MarkerLine(lines[1..][j]);
            assert MarkerLine(lines[j + 1]);
          }
        }
      }
    }
  }

  /** A Makefile project stays unconverted whatever its later lines say. */
  lemma MakefileFirst(head: seq<string>, line: string, rest: seq<string>)
    requires forall j :: 0 <= j < |head| ==> !MarkerLine(head[j])
    requires Contains(line, MakefileMarker) && !SupportedLine(line)
    ensures !IsSupportedByIntel(head + [line] + rest)
  {
    var lines := head + [line] + rest;
    assert lines[|head|] == line;
    assert forall j :: 0 <= j < |head| ==> lines[j] == head[j];
    FirstMarkerDecides(lines, |head|);
  }
}
