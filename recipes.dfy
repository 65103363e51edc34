/**
 * The conversion recipes: which toolset, subsystem and minimum OS version a
 * project receives (`addVS2012Flags`, `addIntelFlags`, `addXPFlags`,
 * `addXP64Flags`, `addSubSystemFlags`), and where the Intel toolset name
 * comes from (`findIntelCompiler`, reading the process environment, given
 * here as a map).
 */
module Recipes {
  import opened Wrappers
  import opened Text
  import opened Project

  const VS2012Compiler := "v110"
  const SubSystemConsole := "Console"
  const SubSystemWindows := "Windows"
  const VersionXP := "5.01"
  const VersionXP64 := "5.02"
  /** The minimum-version value written for Visual Studio 2012: empty. */
  const VersionNone := ""

  /** Projects whose path contains this are left alone by the Intel conversion. */
  const IntelExcluded := "graphic_export"

  /** The process environment: variable name to value. */
  type Environment = map<string, string>

  /** The Intel compiler generations the converter knows, newest first. */
  datatype IntelVersion = XE15 | XE14 | XE13

  function Rank(ver: IntelVersion): nat
  {
    match ver
    case XE15 => 15
    case XE14 => 14
    case XE13 => 13
  }

  /** The environment variable whose presence announces `ver`. */
  function EnvVar(ver: IntelVersion): string
  {
    match ver
    case XE15 => "ICPP_COMPILER15"
    case XE14 => "ICPP_COMPILER14"
    case XE13 => "ICPP_COMPILER13"
  }

  /** The PlatformToolset value that selects `ver`. */
  function ToolsetName(ver: IntelVersion): string
  {
    match ver
    case XE15 => "Intel C++ Compiler XE 15.0"
    case XE14 => "Intel C++ Compiler XE 14.0"
    case XE13 => "Intel C++ Compiler XE 13.0"
  }

  /**
   * `findIntelCompiler`: the toolset of the newest generation whose variable
   * is set (to any value, the empty string included), or none.
   */
  function FindIntelCompiler(env: Environment): (r: Option<string>)
    ensures r.None? <==> forall ver: IntelVersion :: EnvVar(ver) !in env
    ensures r.Some? ==>
      exists ver: IntelVersion :: r.value == ToolsetName(ver) && EnvVar(ver) in env &&
        forall newer: IntelVersion :: Rank(newer) > Rank(ver) ==> EnvVar(newer) !in env
  {
    if EnvVar(XE15) in env then Some(ToolsetName(XE15))
    else if EnvVar(XE14) in env then Some(ToolsetName(XE14))
    else if EnvVar(XE13) in env then Some(ToolsetName(XE13))
    else None
  }

  /** The subsystem `addSubSystemFlags` writes for the project at `path`. */
  function SubSystemFor(path: string): (r: string)
    ensures r == SubSystemWindows <==> Contains(path, "SetupAtlas") || Contains(path, "WScilex")
    ensures r == SubSystemConsole <==> !(Contains(path, "SetupAtlas") || Contains(path, "WScilex"))
  {
    if Contains(path, "SetupAtlas") || Contains(path, "WScilex") then SubSystemWindows else SubSystemConsole
  }

  /** The document after the toolset, subsystem and minimum-version setters, in that order. */
  function Retarget(d: Document, path: string, toolset: string, version: string): Document
  {
    SetOrInsert(SetOrInsert(SetOrInsert(d, Toolset, toolset), LinkSetting(SubSystem), SubSystemFor(path)),
                LinkSetting(MinimumRequiredVersion), version)
  }

  /** How many leaves a find-or-insert leaves selected: the old ones, or one per parent. */
  function SettledCount(d: Document, sel: Selector): nat
  {
    if Matches(d, sel) != [] then |Matches(d, sel)| else ParentCount(d, sel)
  }

  lemma SetOrInsertKeepsOther(d: Document, sel: Selector, other: Selector, v: string)
    requires sel != other
    ensures Matches(SetOrInsert(d, sel, v), other) == Matches(d, other)
    ensures ParentCount(SetOrInsert(d, sel, v), other) == ParentCount(d, other)
  {
    var e := if Matches(d, sel) != [] then SetEach(v) else AppendEach(v);
    OtherSelectorKept(d, sel, other, e);
    ParentsKept(d, sel, other, e);
  }

  /**
   * After a retarget every toolset, every Link-level SubSystem and every
   * Link-level MinimumRequiredVersion holds its value, and each kind is
   * present as often as before or, when it was missing, once per parent.
   */
  lemma RetargetFacts(d: Document, path: string, toolset: string, version: string)
    ensures var r := Retarget(d, path, toolset, version);
      Matches(r, Toolset) == Repeat(SettledCount(d, Toolset), toolset) &&
      Matches(r, LinkSetting(SubSystem)) == Repeat(SettledCount(d, LinkSetting(SubSystem)), SubSystemFor(path)) &&
      Matches(r, LinkSetting(MinimumRequiredVersion)) ==
        Repeat(SettledCount(d, LinkSetting(MinimumRequiredVersion)), version)
  {
    var t, s, m := Toolset, LinkSetting(SubSystem), LinkSetting(MinimumRequiredVersion);
    var d1 := SetOrInsert(d, t, toolset);
    var d2 := SetOrInsert(d1, s, SubSystemFor(path));
    SetOrInsertFacts(d, t, toolset);
    SetOrInsertKeepsOther(d, t, s, toolset);
    SetOrInsertKeepsOther(d, t, m, toolset);
    SetOrInsertFacts(d1, s, SubSystemFor(path));
    SetOrInsertKeepsOther(d1, s, t, SubSystemFor(path));
    SetOrInsertKeepsOther(d1, s, m, SubSystemFor(path));
    SetOrInsertFacts(d2, m, version);
    SetOrInsertKeepsOther(d2, m, t, version);
    SetOrInsertKeepsOther(d2, m, s, version);
  }

  /** `addSubSystemFlags`: Windows for the two GUI projects, Console for every other. */
  method AddSubSystemFlags(d: Document, path: string) returns (r: Document)
    ensures r == SetOrInsert(d, LinkSetting(SubSystem), SubSystemFor(path))
  {
    var rc;
    if Contains(path, "SetupAtlas") || Contains(path, "WScilex") {
      r, rc := AddSubSystemFlag(d, SubSystemWindows);
    } else {
      r, rc := AddSubSystemFlag(d, SubSystemConsole);
    }
  }

  /** `addVS2012Flags`: toolset v110, subsystem by path, empty minimum version; always 1. */
  method AddVS2012Flags(d: Document, path: string) returns (r: Document, rc: int)
    ensures rc == 1 && r == Retarget(d, path, VS2012Compiler, VersionNone)
  {
    var ignored;
    r, ignored := AddCompilerFlags(d, VS2012Compiler);
    r := AddSubSystemFlags(r, path);
    r, ignored := AddVersionFlags(r, VersionNone);
    rc := 1;
  }

  /**
   * `addIntelFlags`: a project whose path contains `graphic_export` is left
   * alone and reported done; otherwise the newest Intel toolset is set, and 0
   * is returned when none is installed.
   */
  method AddIntelFlags(d: Document, path: string, env: Environment) returns (r: Document, rc: int)
    ensures Contains(path, IntelExcluded) ==> rc == 1 && r == d
    ensures !Contains(path, IntelExcluded) && FindIntelCompiler(env).None? ==> rc == 0 && r == d
    ensures !Contains(path, IntelExcluded) && FindIntelCompiler(env).Some? ==>
      rc == 1 && r == SetOrInsert(d, Toolset, FindIntelCompiler(env).value)
  {
    if !Contains(path, IntelExcluded) {
      var flagIntelCompiler := FindIntelCompiler(env);
      if flagIntelCompiler.Some? {
        var ignored;
        r, ignored := AddCompilerFlags(d, flagIntelCompiler.value);
        return r, 1;
      }
      return d, 0;
    }
    return d, 1;
  }

  /** The body shared by `addXPFlags` and `addXP64Flags`, which differ only in the version. */
  method AddIntelRetarget(d: Document, path: string, env: Environment, version: string)
    returns (r: Document, rc: int)
    ensures FindIntelCompiler(env).None? ==> rc == 0 && r == d
    ensures FindIntelCompiler(env).Some? ==> rc == 1 && r == Retarget(d, path, FindIntelCompiler(env).value, version)
  {
    var flagIntelCompiler := FindIntelCompiler(env);
    if flagIntelCompiler.Some? {
      var ignored;
      r, ignored := AddCompilerFlags(d, flagIntelCompiler.value);
      r := AddSubSystemFlags(r, path);
      r, ignored := AddVersionFlags(r, version);
      return r, 1;
    }
    return d, 0;
  }

  /** `addXPFlags`: the Intel toolset with minimum version 5.01, or 0 without a compiler. */
  method AddXPFlags(d: Document, path: string, env: Environment) returns (r: Document, rc: int)
    ensures FindIntelCompiler(env).None? ==> rc == 0 && r == d
    ensures FindIntelCompiler(env).Some? ==> rc == 1 && r == Retarget(d, path, FindIntelCompiler(env).value, VersionXP)
  {
    r, rc := AddIntelRetarget(d, path, env, VersionXP);
  }

  /** `addXP64Flags`: the Intel toolset with minimum version 5.02, or 0 without a compiler. */
  method AddXP64Flags(d: Document, path: string, env: Environment) returns (r: Document, rc: int)
    ensures FindIntelCompiler(env).None? ==> rc == 0 && r == d
    ensures FindIntelCompiler(env).Some? ==> rc == 1 && r == Retarget(d, path, FindIntelCompiler(env).value, VersionXP64)
  {
    r, rc := AddIntelRetarget(d, path, env, VersionXP64);
  }
}
