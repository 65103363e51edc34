/**
 * `main`: the command line (`<sln_file> <flag>...`), the flag loop that picks
 * the conversion, the `-VC`/`-IC` conflict check, and the pass over the
 * projects of the solution.  Printing is left out; exit statuses and the
 * exceptions Python would raise are the outcome.
 */
module Convert {
  import opened Wrappers
  import opened Text
  import opened Solution
  import opened Eligibility
  import opened Project
  import opened Recipes

  /** What one command-line flag means to the flag loop. */
  datatype Flag =
    | IntelFlag         // -IC: conversionToIntel := 1
    | VcFlag(mode: int) // -VC2012: 2, -XP: 3, -XP64: 4, -VC: 1 (conversionToVC := mode)
    | HelpFlag          // usage, exit 2
    | UnknownFlag       // "not recognized", exit 2

  predicate IsHelp(arg: string)
  {
    arg == "/?" || arg == "/h" || arg == "-?" || arg == "-h" || arg == "--help"
  }

  function Classify(arg: string): (f: Flag)
    ensures f.VcFlag? ==> 1 <= f.mode <= 4
  {
    if arg == "-IC" || arg == "/IC" then IntelFlag
    else if arg == "-VC2012" || arg == "/VC2012" then VcFlag(2)
    else if arg == "-XP" || arg == "/XP" then VcFlag(3)
    else if arg == "-XP64" || arg == "/XP64" then VcFlag(4)
    else if arg == "-VC" || arg == "/VC" then VcFlag(1)
    else if IsHelp(arg) then HelpFlag
    else UnknownFlag
  }

  /** The two variables the flag loop updates. */
  datatype Mode = Mode(conversionToIntel: int, conversionToVC: int)

  /** The flag loop from state `m`: `None` where it exits with status 2. */
  function ApplyFlags(args: seq<string>, m: Mode): Option<Mode>
  {
    if args == [] then Some(m)
    else match Classify(args[0])
      case IntelFlag => ApplyFlags(args[1..], m.(conversionToIntel := 1))
      case VcFlag(n) => ApplyFlags(args[1..], m.(conversionToVC := n))
      case _ => None
  }

  /** Everything `main` does before reading the solution: `Failure(2)` is the usage exit. */
  function CommandLine(argv: seq<string>, solutionExists: bool): Result<Mode, int>
  {
    if |argv| < 3 || IsHelp(argv[1]) || !solutionExists then Failure(2)
    else match ApplyFlags(argv[2..], Mode(0, 0))
      case None => Failure(2)
      case Some(m) =>
        if m.conversionToVC == 1 && m.conversionToIntel == 1 then Failure(2) else Success(m)
  }

  /** The prelude of `main` with its flag loop. */
  method ParseCommandLine(argv: seq<string>, solutionExists: bool) returns (r: Result<Mode, int>)
    ensures r == CommandLine(argv, solutionExists)
  {
    if |argv| < 3 || IsHelp(argv[1]) || !solutionExists {
      return Failure(2);
    }
    var args := argv[2..];
    var conversionToIntel, conversionToVC := 0, 0;
    var i := 0;
    while i < |args|
      invariant 0 <= i <= |args|
      invariant ApplyFlags(args, Mode(0, 0)) == ApplyFlags(args[i..], Mode(conversionToIntel, conversionToVC))
    {
      assert args[i..][1..] == args[i + 1..];
      var arg := args[i];
      if arg == "-IC" || arg == "/IC" {
        conversionToIntel := 1;
      } else if arg == "-VC2012" || arg == "/VC2012" {
        conversionToVC := 2;
      } else if arg == "-XP" || arg == "/XP" {
        conversionToVC := 3;
      } else if arg == "-XP64" || arg == "/XP64" {
        conversionToVC := 4;
      } else if arg == "-VC" || arg == "/VC" {
        conversionToVC := 1;
      } else {
        return Failure(2);
      }
      i := i + 1;
    }
    if conversionToVC == 1 && conversionToIntel == 1 {
      return Failure(2);
    }
    return Success(Mode(conversionToIntel, conversionToVC));
  }

  /** The flag loop finishes exactly when every flag is a conversion flag. */
  lemma {:induction false} FlagsAccepted(args: seq<string>, m: Mode)
    ensures ApplyFlags(args, m).Some? <==>
      forall k :: 0 <= k < |args| ==> Classify(args[k]).IntelFlag? || Classify(args[k]).VcFlag?
  {
    if args != [] {
      FlagsAccepted(args[1..], m.(conversionToIntel := 1));
      if Classify(args[0]).VcFlag? {
        FlagsAccepted(args[1..], m.(conversionToVC := Classify(args[0]).mode));
      }
      assert forall k :: 0 < k < |args| ==> args[k] == args[1..][k - 1];
    }
  }

  /** The last VC-style flag decides `conversionToVC`; earlier ones are overwritten. */
  lemma {:induction false} LastVcFlagWins(args: seq<string>, m: Mode, k: nat)
    requires k < |args| && Classify(args[k]).VcFlag?
    requires forall j :: k < j < |args| ==> !Classify(args[j]).VcFlag?
    requires ApplyFlags(args, m).Some?
    ensures ApplyFlags(args, m).value.conversionToVC == Classify(args[k]).mode
  {
    var m' := match Classify(args[0])
      case IntelFlag => m.(conversionToIntel := 1)
      case VcFlag(n) => m.(conversionToVC := n)
      case _ => m;
    if k == 0 {
      NoVcFlagKeeps(args[1..], m');
    } else {
      assert forall j :: k - 1 < j < |args| - 1 ==> args[1..][j] == args[j + 1];
      LastVcFlagWins(args[1..], m', k - 1);
    }
  }

  /** Without a VC-style flag `conversionToVC` keeps its value. */
  lemma {:induction false} NoVcFlagKeeps(args: seq<string>, m: Mode)
    requires forall j :: 0 <= j < |args| ==> !Classify(args[j]).VcFlag?
    requires ApplyFlags(args, m).Some?
    ensures ApplyFlags(args, m).value.conversionToVC == m.conversionToVC
  {
    if args != [] {
      assert forall j :: 0 <= j < |args| - 1 ==> args[1..][j] == args[j + 1];
      NoVcFlagKeeps(args[1..], m.(conversionToIntel := 1));
    }
  }

  /** `conversionToIntel` ends at 1 exactly when it started there or some flag is `-IC`. */
  lemma {:induction false} IntelFlagSets(args: seq<string>, m: Mode)
    requires ApplyFlags(args, m).Some?
    ensures ApplyFlags(args, m).value.conversionToIntel == 1 <==>
      m.conversionToIntel == 1 || exists k :: 0 <= k < |args| && Classify(args[k]).IntelFlag?
    ensures m.conversionToIntel == 0 ==> ApplyFlags(args, m).value.conversionToIntel in {0, 1}
  {
    if args != [] {
      var m' := match Classify(args[0])
        case IntelFlag => m.(conversionToIntel := 1)
        case VcFlag(n) => m.(conversionToVC := n)
        case _ => m;
      IntelFlagSets(args[1..], m');
      if exists k :: 0 <= k < |args[1..]| && Classify(args[1..][k]).IntelFlag? {
        var k :| 0 <= k < |args[1..]| && Classify(args[1..][k]).IntelFlag?;
        assert Classify(args[k + 1]).IntelFlag?;
      }
      if exists k :: 0 <= k < |args| && Classify(args[k]).IntelFlag? {
        var k :| 0 <= k < |args| && Classify(args[k]).IntelFlag?;
        if k > 0 {
          assert Classify(args[1..][k - 1]).IntelFlag?;
        }
      }
    }
  }

  /** The conversion `main` runs on each eligible project. */
  datatype Recipe = IntelRecipe | VS2012Recipe | XPRecipe | XP64Recipe | StripRecipe | NoRecipe

  /** Dispatch priority: the Intel conversion before every VC-style one. */
  function RecipeOf(m: Mode): (r: Recipe)
    ensures m.conversionToIntel == 1 ==> r == IntelRecipe
    ensures m.conversionToIntel != 1 && m.conversionToVC == 1 ==> r == StripRecipe
    ensures r == NoRecipe <==> m.conversionToIntel != 1 && m.conversionToVC !in {1, 2, 3, 4}
  {
    if m.conversionToIntel == 1 then IntelRecipe
    else if m.conversionToVC == 2 then VS2012Recipe
    else if m.conversionToVC == 3 then XPRecipe
    else if m.conversionToVC == 4 then XP64Recipe
    else if m.conversionToVC == 1 then StripRecipe
    else NoRecipe
  }

  /**
   * What one eligible project becomes under `recipe`, and whether `main`
   * then stops with status 3.  The return values of the Intel conversion and
   * of the strip are not looked at.
   */
  function Converted(recipe: Recipe, path: string, d: Document, env: Environment): (Document, bool)
  {
    match recipe
    case IntelRecipe =>
      if Contains(path, IntelExcluded) || FindIntelCompiler(env).None? then (d, false)
      else (SetOrInsert(d, Toolset, FindIntelCompiler(env).value), false)
    case VS2012Recipe => (Retarget(d, path, VS2012Compiler, VersionNone), false)
    case XPRecipe =>
      if FindIntelCompiler(env).None? then (d, true)
      else (Retarget(d, path, FindIntelCompiler(env).value, VersionXP), false)
    case XP64Recipe =>
      if FindIntelCompiler(env).None? then (d, true)
      else (Retarget(d, path, FindIntelCompiler(env).value, VersionXP64), false)
    case StripRecipe => (if Matches(d, Toolset) == [] then d else Strip(d, Toolset), false)
    case NoRecipe => (d, false)
  }

  /** The branch of the project loop that converts one eligible project. */
  method ConvertProject(recipe: Recipe, path: string, d: Document, env: Environment)
    returns (r: Document, abort: bool)
    ensures (r, abort) == Converted(recipe, path, d, env)
  {
    var rc;
    abort := false;
    match recipe
    case IntelRecipe =>
      r, rc := AddIntelFlags(d, path, env);
    case VS2012Recipe =>
      r, rc := AddVS2012Flags(d, path);
      abort := rc == 0;
    case XPRecipe =>
      r, rc := AddXPFlags(d, path, env);
      abort := rc == 0;
    case XP64Recipe =>
      r, rc := AddXP64Flags(d, path, env);
      abort := rc == 0;
    case StripRecipe =>
      r, rc := RemoveCompilerFlags(d);
    case NoRecipe =>
      r := d;
  }

  /** A project file: its text lines, which the eligibility scan reads, and its parsed document. */
  datatype ProjectFile = ProjectFile(lines: seq<string>, doc: Document)

  /** The project files on disk, by absolute path. */
  type Files = map<string, ProjectFile>

  /** Why Python would stop with a traceback. */
  datatype Crash =
    | BadSolutionLine(error: ParseError) // IndexError while reading the solution
    | MissingProject(path: string)       // IOError opening a listed project

  datatype Outcome = Exit(status: int) | Raised(crash: Crash)

  /** The project loop of `main` over `paths`, from the files `fs`. */
  function ConvertAll(recipe: Recipe, paths: seq<string>, fs: Files, env: Environment): (r: (Outcome, Files))
    ensures r.0 == Exit(0) || r.0 == Exit(3) ||
      (r.0.Raised? && r.0.crash.MissingProject? && r.0.crash.path in paths && r.0.crash.path !in fs)
    ensures r.1.Keys == fs.Keys
    ensures forall q :: q in fs ==> r.1[q].lines == fs[q].lines
  {
    if paths == [] then (Exit(0), fs)
    else
      var p := paths[0];
      if p !in fs then (Raised(MissingProject(p)), fs)
      else if !IsSupportedByIntel(fs[p].lines) then ConvertAll(recipe, paths[1..], fs, env)
      else
        var (doc, abort) := Converted(recipe, p, fs[p].doc, env);
        var fs' := fs[p := fs[p].(doc := doc)];
        if abort then (Exit(3), fs') else ConvertAll(recipe, paths[1..], fs', env)
  }

  /** All of `main`, from the command line to the final exit status and files. */
  function MainOutcome(argv: seq<string>, solutionExists: bool, solutionDir: string, solutionLines: seq<string>,
                       join: (string, string) -> string, fs: Files, env: Environment): (Outcome, Files)
  {
    match CommandLine(argv, solutionExists)
    case Failure(status) => (Exit(status), fs)
    case Success(m) =>
      match Extract(solutionLines, solutionDir, join)
      case Failure(e) => (Raised(BadSolutionLine(e)), fs)
      case Success(paths) => ConvertAll(RecipeOf(m), paths, fs, env)
  }

  /**
   * `main`.  `solutionExists` stands for the existence test on `argv[1]`,
   * `solutionLines` for the solution file's lines, `solutionDir` for its
   * directory and `join` for the path normalisation.
   */
  method Run(argv: seq<string>, solutionExists: bool, solutionDir: string, solutionLines: seq<string>,
             join: (string, string) -> string, fs: Files, env: Environment)
    returns (outcome: Outcome, files: Files)
    ensures (outcome, files) == MainOutcome(argv, solutionExists, solutionDir, solutionLines, join, fs, env)
  {
    var cl := ParseCommandLine(argv, solutionExists);
    if cl.Failure? {
      return Exit(cl.error), fs;
    }
    var projects := GetProjectsFilenameFromSolution(solutionLines, solutionDir, join);
    if projects.Failure? {
      return Raised(BadSolutionLine(projects.error)), fs;
    }
    var recipe := RecipeOf(cl.value);
    var paths := projects.value;
    files := fs;
    var i := 0;
    while i < |paths|
      invariant 0 <= i <= |paths|
      invariant ConvertAll(recipe, paths, fs, env) == ConvertAll(recipe, paths[i..], files, env)
    {
      assert paths[i..][1..] == paths[i + 1..];
      var p := paths[i];
      if p !in files {
        return Raised(MissingProject(p)), files;
      }
      if IsSupportedByIntel(files[p].lines) {
        var doc, abort := ConvertProject(recipe, p, files[p].doc, env);
        files := files[p := files[p].(doc := doc)];
        if abort {
          return Exit(3), files;
        }
      }
      i := i + 1;
    }
    outcome := Exit(0);
  }

  /** Only the XP conversions can stop the run with status 3: a failed strip or Intel conversion does not. */
  lemma {:induction false} OnlyXPAborts(recipe: Recipe, paths: seq<string>, fs: Files, env: Environment)
    requires recipe != XPRecipe && recipe != XP64Recipe
    ensures ConvertAll(recipe, paths, fs, env).0 != Exit(3)
  {
    if paths != [] && paths[0] in fs {
      var p := paths[0];
      if !IsSupportedByIntel(fs[p].lines) {
        OnlyXPAborts(recipe, paths[1..], fs, env);
      } else {
        var doc := Converted(recipe, p, fs[p].doc, env).0;
        OnlyXPAborts(recipe, paths[1..], fs[p := fs[p].(doc := doc)], env);
      }
    }
  }

  /**
   * Without an Intel compiler the XP conversions change no file, and they stop
   * with status 3 at the first eligible project unless a missing one comes first.
   */
  lemma {:induction false} XPWithoutCompiler(recipe: Recipe, paths: seq<string>, fs: Files, env: Environment)
    requires recipe == XPRecipe || recipe == XP64Recipe
    requires FindIntelCompiler(env).None?
    ensures ConvertAll(recipe, paths, fs, env).1 == fs
    ensures ConvertAll(recipe, paths, fs, env).0 == Exit(0) <==>
      forall k :: 0 <= k < |paths| ==> paths[k] in fs && !IsSupportedByIntel(fs[paths[k]].lines)
  {
    if paths != [] && paths[0] in fs {
      var p := paths[0];
      if !IsSupportedByIntel(fs[p].lines) {
        XPWithoutCompiler(recipe, paths[1..], fs, env);
        assert forall k :: 0 < k < |paths| ==> paths[k] == paths[1..][k - 1];
      } else {
        assert fs[p := fs[p].(doc := fs[p].doc)] == fs;
      }
    }
  }

  /** Projects the scan rejects are never changed, and no file appears or disappears. */
  lemma {:induction false} IneligibleUntouched(recipe: Recipe, paths: seq<string>, fs: Files, env: Environment)
    ensures var fs' := ConvertAll(recipe, paths, fs, env).1;
      fs'.Keys == fs.Keys &&
      forall p :: p in fs && !IsSupportedByIntel(fs[p].lines) ==> fs'[p] == fs[p]
  {
    if paths != [] && paths[0] in fs {
      var p := paths[0];
      if !IsSupportedByIntel(fs[p].lines) {
        IneligibleUntouched(recipe, paths[1..], fs, env);
      } else {
        var fs1 := fs[p := fs[p].(doc := Converted(recipe, p, fs[p].doc, env).0)];
        IneligibleUntouched(recipe, paths[1..], fs1, env);
        assert forall q :: q in fs ==> fs1[q].lines == fs[q].lines;
      }
    }
  }

  /** A run that finishes normally found every listed project. */
  lemma {:induction false} CompletedRunFoundAll(recipe: Recipe, paths: seq<string>, fs: Files, env: Environment)
    requires ConvertAll(recipe, paths, fs, env).0 == Exit(0)
    ensures forall k :: 0 <= k < |paths| ==> paths[k] in ConvertAll(recipe, paths, fs, env).1
  {
    if paths != [] {
      var p := paths[0];
      var fs1 := if IsSupportedByIntel(fs[p].lines)
                 then fs[p := fs[p].(doc := Converted(recipe, p, fs[p].doc, env).0)] else fs;
      CompletedRunFoundAll(recipe, paths[1..], fs1, env);
      IneligibleUntouched(recipe, paths[1..], fs1, env);
      assert forall k :: 0 < k < |paths| ==> paths[k] == paths[1..][k - 1];
    }
  }

  /**
   * `-IC` together with a last VC-style flag `-VC` is refused with status 2
   * before any project is read, so no file changes.
   */
  lemma ConflictTouchesNothing(argv: seq<string>, solutionDir: string, solutionLines: seq<string>,
                               join: (string, string) -> string, fs: Files, env: Environment, i: nat, k: nat)
    requires |argv| >= 3 && !IsHelp(argv[1])
    requires forall j :: 2 <= j < |argv| ==> Classify(argv[j]).IntelFlag? || Classify(argv[j]).VcFlag?
    requires 2 <= i < |argv| && Classify(argv[i]).IntelFlag?
    requires 2 <= k < |argv| && Classify(argv[k]) == VcFlag(1)
    requires forall j :: k < j < |argv| ==> !Classify(argv[j]).VcFlag?
    ensures MainOutcome(argv, true, solutionDir, solutionLines, join, fs, env) == (Exit(2), fs)
  {
    var args := argv[2..];
    assert forall j :: 0 <= j < |args| ==> args[j] == argv[j + 2];
    FlagsAccepted(args, Mode(0, 0));
    LastVcFlagWins(args, Mode(0, 0), k - 2);
    IntelFlagSets(args, Mode(0, 0));
    assert Classify(args[i - 2]).IntelFlag?;
  }

  /**
   * End to end with `-VC2012` on a solution listing one eligible project:
   * the run ends with status 0 and in that project every toolset is `v110`,
   * every Link-level SubSystem is the one its path calls for and every
   * Link-level MinimumRequiredVersion is empty, each present as often as
   * before or, where it was missing, once per parent.
   */
  lemma VS2012EndToEnd(program: string, sln: string, solutionDir: string, solutionLines: seq<string>,
                       join: (string, string) -> string, fs: Files, env: Environment, p: string)
    requires !IsHelp(sln)
    requires Extract(solutionLines, solutionDir, join) == Success([p])
    requires p in fs && IsSupportedByIntel(fs[p].lines)
    ensures var (outcome, fs') := MainOutcome([program, sln, "-VC2012"], true, solutionDir, solutionLines, join, fs, env);
      var d := fs[p].doc;
      outcome == Exit(0) && p in fs' && fs'[p].lines == fs[p].lines &&
      var d' := fs'[p].doc;
      Matches(d', Toolset) == Repeat(SettledCount(d, Toolset), VS2012Compiler) &&
      Matches(d', LinkSetting(SubSystem)) == Repeat(SettledCount(d, LinkSetting(SubSystem)), SubSystemFor(p)) &&
      Matches(d', LinkSetting(MinimumRequiredVersion)) ==
        Repeat(SettledCount(d, LinkSetting(MinimumRequiredVersion)), VersionNone)
  {
    var argv := [program, sln, "-VC2012"];
    assert argv[2..] == ["-VC2012"];
    assert ApplyFlags(["-VC2012"], Mode(0, 0)) == Some(Mode(0, 2));
    assert CommandLine(argv, true) == Success(Mode(0, 2));
    var d' := Retarget(fs[p].doc, p, VS2012Compiler, VersionNone);
    assert [p][1..] == [];
    assert ConvertAll(VS2012Recipe, [p], fs, env) == (Exit(0), fs[p := fs[p].(doc := d')]);
    RetargetFacts(fs[p].doc, p, VS2012Compiler, VersionNone);
  }
}
