/**
 * Reading the project list out of a Visual Studio solution file
 * (`getProjectsFilenameFromSolution`).  The solution is given as its lines;
 * the directory of the solution and the path normalisation
 * (`os.path.abspath(dir + os.sep + name)`) are parameters.
 */
module Solution {
  import opened Wrappers
  import opened Text

  /** A line takes part iff it mentions this extension anywhere. */
  const ProjectExtension := ".vcxproj"

  /** Why a `.vcxproj` line makes the routine raise `IndexError`. */
  datatype LineError =
    | TooFewTokens  // `split()[3]` does not exist
    | EmptyName     // a strip step left the name empty before the next `name[len - 1]`

  /** The first line the routine cannot handle, counted from 0. */
  datatype ParseError = MalformedLine(index: nat, reason: LineError)

  /**
   * The clean-up applied to the 4th token: drop one leading `"`, then one
   * trailing `,`, then one trailing `"`.  `None` where Python would index an
   * empty string.
   */
  function CleanName(tok: string): (r: Option<string>)
    ensures r.None? <==> tok in {"", "\"", ",", "\","}
    ensures r.Some? ==>
      var lead := if tok[0] == '"' then 1 else 0;
      lead + |r.value| <= |tok| <= lead + |r.value| + 2 &&
      r.value == tok[lead..lead + |r.value|] &&
      forall k :: lead + |r.value| <= k < |tok| ==> tok[k] == ',' || tok[k] == '"'
    // What is cut from the end is exactly one of "", ",", "\"" and "\",":
    // the comma goes iff the token ends in one, and the quote goes iff it
    // ends what is left once that comma is gone.
    ensures r.Some? ==>
      var lead := if tok[0] == '"' then 1 else 0;
      var cut := tok[lead + |r.value|..];
      (cut == "" || cut == "," || cut == "\"" || cut == "\",") &&
      ((cut != [] && cut[|cut| - 1] == ',') <==> tok[|tok| - 1] == ',') &&
      var comma := if tok[|tok| - 1] == ',' then 1 else 0;
      ((cut != [] && cut[0] == '"') <==> tok[|tok| - 1 - comma] == '"')
  {
    if tok == [] then None
    else
      var unquoted := if tok[0] == '"' then tok[1..] else tok;
      if unquoted == [] then assert tok == "\""; None
      else
        var uncommaed := if unquoted[|unquoted| - 1] == ',' then unquoted[..|unquoted| - 1] else unquoted;
        if uncommaed == [] then assert tok == "," || tok == "\","; None
        else
          var name := if uncommaed[|uncommaed| - 1] == '"' then uncommaed[..|uncommaed| - 1] else uncommaed;
          var lead := if tok[0] == '"' then 1 else 0;
          var cut := tok[lead + |name|..];
          assert |cut| == |tok| - lead - |name|;
          assert cut == (if |name| < |uncommaed| then "\"" else "") + (if |uncommaed| < |unquoted| then "," else "");
          assert cut == "" || cut == "," || cut == "\"" || cut == "\",";
          Some(name)
  }

  /** A path written as `"name",` in the middle of a project line comes back as `name`. */
  lemma CleanQuotedWithComma(name: string)
    ensures CleanName("\"" + name + "\",") == Some(name)
  {
  }

  /** A path written as `"name"` (the last field of a line) comes back as `name`. */
  lemma CleanQuoted(name: string)
    ensures CleanName("\"" + name + "\"") == Some(name)
  {
  }

  /** A token that neither starts with a quote nor ends in a comma or a quote is kept as it is. */
  lemma CleanPlain(tok: string)
    requires tok != [] && tok[0] != '"' && tok[|tok| - 1] != ',' && tok[|tok| - 1] != '"'
    ensures CleanName(tok) == Some(tok)
  {
  }

  /** Only one trailing comma goes: `name,` comes back as `name`, even when `name` itself ends in a comma. */
  lemma CleanTrailingComma(name: string)
    requires name != [] && name[0] != '"' && name[|name| - 1] != '"'
    ensures CleanName(name + ",") == Some(name)
  {
  }

  /** An opening quote with no closing one: `"name` comes back as `name`. */
  lemma CleanLeadingQuote(name: string)
    requires name != [] && name[|name| - 1] != ',' && name[|name| - 1] != '"'
    ensures CleanName("\"" + name) == Some(name)
  {
  }

  /** The project name a `.vcxproj` line contributes, or why the routine fails on it. */
  function ProjectName(line: string): Result<string, LineError>
  {
    var tokens := Split(line);
    if |tokens| < 4 then Failure(TooFewTokens)
    else match CleanName(tokens[3])
      case None => Failure(EmptyName)
      case Some(name) => Success(name)
  }

  /** The lines that mention `.vcxproj`, in order. */
  function Referencing(lines: seq<string>): (r: seq<string>)
    ensures |r| <= |lines|
  {
    if lines == [] then []
    else
      var n := |lines| - 1;
      Referencing(lines[..n]) + (if Contains(lines[n], ProjectExtension) then [lines[n]] else [])
  }

  /** What the routine returns for `lines`, read front to back; the first bad line aborts. */
  function Extract(lines: seq<string>, dir: string, join: (string, string) -> string): Result<seq<string>, ParseError>
  {
    if lines == [] then Success([])
    else
      var n := |lines| - 1;
      match Extract(lines[..n], dir, join)
      case Failure(e) => Failure(e)
      case Success(ps) =>
        if !Contains(lines[n], ProjectExtension) then Success(ps)
        else match ProjectName(lines[n])
          case Failure(why) => Failure(MalformedLine(n, why))
          case Success(name) => Success(ps + [join(dir, name)])
  }

  /** `getProjectsFilenameFromSolution`: one pass over the lines, appending one path per `.vcxproj` line. */
  method GetProjectsFilenameFromSolution(lines: seq<string>, dir: string, join: (string, string) -> string)
    returns (r: Result<seq<string>, ParseError>)
    ensures r == Extract(lines, dir, join)
  {
    var projects: seq<string> := [];
    var i := 0;
    while i < |lines|
      invariant 0 <= i <= |lines|
      invariant Extract(lines[..i], dir, join) == Success(projects)
    {
      var line := lines[i];
      assert lines[..i + 1][..i] == lines[..i];
      if Contains(line, ProjectExtension) {
        var tokens := Split(line);
        if |tokens| < 4 {
          ExtractFailureSticks(lines, i + 1, dir, join);
          return Failure(MalformedLine(i, TooFewTokens));
        }
        var name := tokens[3];
        if name[0] == '"' {
          name := name[1..];
        }
        if name == [] {
          ExtractFailureSticks(lines, i + 1, dir, join);
          return Failure(MalformedLine(i, EmptyName));
        }
        if name[|name| - 1] == ',' {
          name := name[..|name| - 1];
        }
        if name == [] {
          ExtractFailureSticks(lines, i + 1, dir, join);
          return Failure(MalformedLine(i, EmptyName));
        }
        if name[|name| - 1] == '"' {
          name := name[..|name| - 1];
        }
        projects := projects + [join(dir, name)];
      }
      i := i + 1;
    }
    assert lines[..i] == lines;
    r := Success(projects);
  }

  /** Once a prefix of the lines fails, the whole solution fails with the same error. */
  lemma {:induction false} ExtractFailureSticks(lines: seq<string>, j: nat, dir: string, join: (string, string) -> string)
    requires j <= |lines| && Extract(lines[..j], dir, join).Failure?
    ensures Extract(lines, dir, join) == Extract(lines[..j], dir, join)
    decreases |lines| - j
  {
    if j < |lines| {
      assert lines[..j + 1][..j] == lines[..j];
      ExtractFailureSticks(lines, j + 1, dir, join);
    } else {
      assert lines[..j] == lines;
    }
  }

  /** The routine succeeds exactly when every `.vcxproj` line has a usable 4th token. */
  lemma {:induction false} ExtractSucceedsIff(lines: seq<string>, dir: string, join: (string, string) -> string)
    ensures Extract(lines, dir, join).Success? <==>
      forall k :: 0 <= k < |lines| && Contains(lines[k], ProjectExtension) ==> ProjectName(lines[k]).Success?
  {
    if lines != [] {
      var n := |lines| - 1;
      ExtractSucceedsIff(lines[..n], dir, join);
      assert forall k :: 0 <= k < n ==> lines[..n][k] == lines[k];
    }
  }

  /** On success there is one path per `.vcxproj` line, in the order of the lines. */
  lemma {:induction false} ExtractEntries(lines: seq<string>, dir: string, join: (string, string) -> string)
    requires Extract(lines, dir, join).Success?
    ensures var ps, refs := Extract(lines, dir, join).value, Referencing(lines);
      |ps| == |refs| &&
      forall k :: 0 <= k < |ps| ==> ProjectName(refs[k]).Success? && ps[k] == join(dir, ProjectName(refs[k]).value)
  {
    if lines != [] {
      var n := |lines| - 1;
      ExtractEntries(lines[..n], dir, join);
    }
  }

  /** A failure names the first `.vcxproj` line that cannot be handled. */
  lemma {:induction false} ExtractFirstError(lines: seq<string>, dir: string, join: (string, string) -> string)
    requires Extract(lines, dir, join).Failure?
    ensures var e := Extract(lines, dir, join).error;
      e.index < |lines| && Contains(lines[e.index], ProjectExtension) &&
      ProjectName(lines[e.index]) == Failure(e.reason) &&
      forall k :: 0 <= k < e.index && Contains(lines[k], ProjectExtension) ==> ProjectName(lines[k]).Success?
  {
    var n := |lines| - 1;
    assert forall k :: 0 <= k < n ==> lines[..n][k] == lines[k];
    if Extract(lines[..n], dir, join).Failure? {
      ExtractFirstError(lines[..n], dir, join);
    } else {
      ExtractSucceedsIff(lines[..n], dir, join);
    }
  }

  /** A line without `.vcxproj`, wherever it stands, leaves the list of referencing lines alone. */
  lemma {:induction false} ReferencingSkipsOthers(a: seq<string>, line: string, b: seq<string>)
    requires !Contains(line, ProjectExtension)
    ensures Referencing(a + [line] + b) == Referencing(a + b)
    decreases |b|
  {
    if b == [] {
      assert a + [line] + b == a + [line];
      assert (a + [line])[..|a|] == a;
      assert a + b == a;
    } else {
      var n := |b| - 1;
      assert (a + [line] + b)[..|a| + 1 + n] == a + [line] + b[..n];
      assert (a + b)[..|a| + n] == a + b[..n];
      ReferencingSkipsOthers(a, line, b[..n]);
    }
  }

  /**
   * A solution's project line `Project("{kind}") = "name", "path", "{guid}"`
   * (fields separated by single spaces) yields the path between the quotes
   * of its 4th field.
   */
  lemma ProjectLine(kind: string, name: string, path: string, guid: string)
    requires kind != [] && NoSpace(kind) && NoSpace(name) && NoSpace(path) && guid != [] && NoSpace(guid)
    ensures ProjectName(Joined([kind, "=", "\"" + name + "\",", "\"" + path + "\",", guid])) == Success(path)
  {
    var ws := [kind, "=", "\"" + name + "\",", "\"" + path + "\",", guid];
    forall k | 0 <= k < |ws|
      ensures ws[k] != [] && NoSpace(ws[k])
    {
      if k == 2 || k == 3 {
        var w := if k == 2 then name else path;
        assert forall i :: 1 <= i < |w| + 1 ==> ws[k][i] == w[i - 1];
      }
    }
    SplitJoined(ws);
    CleanQuotedWithComma(path);
  }

  /** A quote in front of a whitespace-free word leaves it whitespace-free. */
  lemma NoSpaceCons(c: char, w: string)
    requires !IsSpace(c) && NoSpace(w)
    ensures NoSpace([c] + w)
  {
    assert forall i :: 1 <= i < |w| + 1 ==> ([c] + w)[i] == w[i - 1];
  }

  /** Two whitespace-free words side by side are whitespace-free. */
  lemma NoSpaceSnoc(w: string, tail: string)
    requires NoSpace(w) && NoSpace(tail)
    ensures NoSpace(w + tail)
  {
    assert forall i :: |w| <= i < |w| + |tail| ==> (w + tail)[i] == tail[i - |w|];
  }

  /** A token that ends in `",` but does not start with a quote loses both characters. */
  lemma CleanClosingQuote(name: string)
    requires name != [] && name[0] != '"'
    ensures CleanName(name + "\",") == Some(name)
  {
    assert (name + "\",")[..|name| + 1] == name + "\"";
    assert (name + "\"")[..|name|] == name;
  }

  /**
   * A name with whitespace in it is split across tokens, so the 4th token is
   * no longer the path: `P = "My App", "My App.vcxproj", {g}` yields `App`,
   * the second half of the name, and not the path.
   */
  lemma SpacedNameShifts(kind: string, first: string, second: string, rest: seq<string>)
    requires kind != [] && NoSpace(kind) && NoSpace(first)
    requires second != [] && second[0] != '"' && NoSpace(second)
    requires forall k :: 0 <= k < |rest| ==> rest[k] != [] && NoSpace(rest[k])
    ensures ProjectName(Joined([kind, "=", "\"" + first, second + "\","] + rest)) == Success(second)
  {
    var ws := [kind, "=", "\"" + first, second + "\","] + rest;
    SpacedWords(kind, first, second, rest);
    WordsName(ws);
    CleanClosingQuote(second);
  }

  /** The words of a line whose name field is split in two are all tokens. */
  lemma SpacedWords(kind: string, first: string, second: string, rest: seq<string>)
    requires kind != [] && NoSpace(kind) && NoSpace(first) && NoSpace(second)
    requires forall k :: 0 <= k < |rest| ==> rest[k] != [] && NoSpace(rest[k])
    ensures var ws := [kind, "=", "\"" + first, second + "\","] + rest;
      |ws| >= 4 && ws[3] == second + "\"," &&
      forall k :: 0 <= k < |ws| ==> ws[k] != [] && NoSpace(ws[k])
  {
    var ws := [kind, "=", "\"" + first, second + "\","] + rest;
    forall k | 0 <= k < |ws|
      ensures ws[k] != [] && NoSpace(ws[k])
    {
      if k == 2 {
        NoSpaceCons('"', first);
      } else if k == 3 {
        NoSpaceSnoc(second, "\",");
      } else if k >= 4 {
        assert ws[k] == rest[k - 4];
      }
    }
  }

  /** The 4th of whitespace-free words joined by spaces is the token the name is read from. */
  lemma WordsName(ws: seq<string>)
    requires |ws| >= 4
    requires forall k :: 0 <= k < |ws| ==> ws[k] != [] && NoSpace(ws[k])
    ensures CleanName(ws[3]).Some? ==> ProjectName(Joined(ws)) == Success(CleanName(ws[3]).value)
  {
    SplitJoined(ws);
  }
}
