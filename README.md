# ICProjConvert120 in Dafny

A model of `ICProjConvert120.py`, the script that retargets the Visual C++
projects of a Visual Studio solution to another toolset: the Intel C++
compiler, Visual Studio 2012, or Intel for Windows XP (32 or 64 bit). It can
also strip the toolset property altogether. The script reads the solution,
keeps each listed project whose ConfigurationType is Application,
DynamicLibrary or StaticLibrary, and edits that project's XML.

Modules, one per part of the script:

- `Wrappers` (wrappers.dfy): `Option` and `Result`.
- `Text` (text.dfy): the two Python 2 string primitives the script relies on.
  `Contains` is `s.find(p) > -1`. `Split` is `s.split()`, which splits on runs
  of ASCII whitespace.
- `Solution` (solution.dfy): `getProjectsFilenameFromSolution`. The solution
  comes in as its lines. `os.path.abspath(dir + os.sep + name)` is the
  parameter `join`, left uninterpreted.
- `Eligibility` (eligibility.dfy): `isSupportedByIntel`, a first-match text
  scan over the project's lines. It returns `true` for 1 and `false` for 0.
- `Project` (project.dfy): the project document as the XPath queries see it,
  and the four edits. A document is the sequence, in document order, of its
  `PropertyGroup`, `ItemDefinitionGroup` and other group elements.
  `ItemDefinitionGroup`s hold tool sections (`Link`, `ClCompile`, ...). Property
  groups and tool sections hold leaf properties. Every query starts with `//`,
  so where a group sits in the tree does not matter to it. The three setters
  share one find-or-insert rule, `SetOrInsert`. It is parameterised by a
  `Selector`, which is either the toolset or a Link setting. `Strip` is the
  removal.
- `Recipes` (recipes.dfy): `findIntelCompiler` over an environment map,
  `addSubSystemFlags`, `addVS2012Flags`, `addIntelFlags`, `addXPFlags` and
  `addXP64Flags`.
- `Convert` (convert.dfy): `main`. It covers the argument checks, the flag
  loop, the `-VC`/`-IC` conflict check, the dispatch and the loop over the
  projects. The files on disk are a map from path to `ProjectFile`, which pairs
  the text lines the scan reads with the parsed document the edits change. The
  result is an exit status or the exception Python would raise.

Where the code and its usage text disagree, the model follows the code. The
list below also records behaviour of the code that is easy to misread:

- `findIntelCompiler` (lines 57-63) tests `os.environ.get(v) <> None`, so a
  variable set to the empty string counts as an installed compiler.
- `-q` is announced by `usage()`, but the flag loop has no branch for it. It is
  rejected with status 2 like any unknown flag. The same holds for
  `-VC2012_xp`.
- A mode flag is required, because `len(sys.argv) < 3` exits with status 2.
- `main` discards the results of `addIntelFlags` (line 275) and
  `removeCompilerFlags` (line 297), so stripping a project without a toolset
  does not stop the run with status 3. Only `-XP`/`-XP64` without an Intel
  compiler stop it that way.
- Python raises `IndexError` where a `.vcxproj` line has fewer than four
  fields, or where the first or second strip step empties the name (the
  tokens `"`, `,` and `",`). The model returns `MalformedLine(index, reason)`
  for the first such line. The third step may empty the name without error:
  the tokens `""` and `"",` yield the empty name.
- The name is read from the 4th whitespace-separated token, so a project
  name containing whitespace shifts the fields: the line
  `Project("{kind}") = "My App", "My App.vcxproj", "{guid}"` yields `App`,
  not the path (`Solution.SpacedNameShifts`).
- Every `.vcxproj` line contributes a path. The test `pathProject != []`
  compares a string with a list, so it always holds.

## Model

| member | source | states |
|---|---|---|
| Text.Split | Windows_x64/Visual-Studio-settings/ICProjConvert120.py:205 | every token of `split()` is non-empty and holds no whitespace |
| Text.SplitAtSpace | Windows_x64/Visual-Studio-settings/ICProjConvert120.py:205 | a whitespace character separates tokens: the tokens of `a c b` are those of `a` followed by those of `b` |
| Text.SplitJoined | Windows_x64/Visual-Studio-settings/ICProjConvert120.py:205 | splitting words joined by single spaces gives back exactly those words (the inverse of joining) |
| Text.SplitWord | Windows_x64/Visual-Studio-settings/ICProjConvert120.py:205 | a non-empty word without whitespace is one token |
| Solution.CleanName | Windows_x64/Visual-Studio-settings/ICProjConvert120.py:206-212 | the name fails exactly for the empty token and the tokens `"`, `,` and `",`, where Python would index an empty string. Otherwise it is the slice of the token after one leading `"`, if there is one, and what is cut from the end is exactly one of nothing, `,`, `"` and `",`: the comma goes if and only if the token ends in one, and the quote goes if and only if it ends what is left once that comma is gone |
| Solution.CleanQuotedWithComma | Windows_x64/Visual-Studio-settings/ICProjConvert120.py:207-212 | a field written `"name",` cleans to `name`, for every name |
| Solution.CleanQuoted | Windows_x64/Visual-Studio-settings/ICProjConvert120.py:207-212 | a field written `"name"` cleans to `name` |
| Solution.CleanPlain | Windows_x64/Visual-Studio-settings/ICProjConvert120.py:207-212 | a token that neither starts with a quote nor ends in a comma or a quote is returned unchanged |
| Solution.CleanTrailingComma | Windows_x64/Visual-Studio-settings/ICProjConvert120.py:209-210 | only one trailing comma goes: `name,` cleans to `name` for a non-empty name that neither starts nor ends with a quote, even when `name` itself ends in a comma |
| Solution.CleanLeadingQuote | Windows_x64/Visual-Studio-settings/ICProjConvert120.py:207-208 | an opening quote without a closing one: `"name` cleans to `name` for a non-empty name ending in neither a comma nor a quote |
| Solution.CleanClosingQuote | Windows_x64/Visual-Studio-settings/ICProjConvert120.py:209-212 | a token `name",` whose non-empty name does not start with a quote cleans to `name` |
| Solution.ProjectLine | Windows_x64/Visual-Studio-settings/ICProjConvert120.py:204-212 | a project line `Project("{kind}") = "name", "path", "{guid}"` yields `path`, provided the kind, name, path and guid fields contain no whitespace |
| Solution.SpacedNameShifts | Windows_x64/Visual-Studio-settings/ICProjConvert120.py:204-212 | when the name field contains whitespace the 4th token is no longer the path: `"first second", ...` yields `second` |
| Solution.GetProjectsFilenameFromSolution | Windows_x64/Visual-Studio-settings/ICProjConvert120.py:194-218 | the loop that appends one joined path per `.vcxproj` line computes `Extract` of the lines, including the first malformed line |
| Solution.ExtractSucceedsIff | Windows_x64/Visual-Studio-settings/ICProjConvert120.py:202-216 | reading succeeds if and only if every `.vcxproj` line has a usable 4th token |
| Solution.ExtractEntries | Windows_x64/Visual-Studio-settings/ICProjConvert120.py:202-216 | on success there is exactly one path per line mentioning `.vcxproj`, in line order, each `join(dir, cleaned 4th token)` |
| Solution.ExtractFirstError | Windows_x64/Visual-Studio-settings/ICProjConvert120.py:204-212 | a failure names a `.vcxproj` line whose name cannot be read, and every earlier `.vcxproj` line is readable |
| Solution.ReferencingSkipsOthers | Windows_x64/Visual-Studio-settings/ICProjConvert120.py:204 | a line without `.vcxproj`, wherever it is inserted, changes nothing in the list of contributing lines |
| Eligibility.LineVerdict | Windows_x64/Visual-Studio-settings/ICProjConvert120.py:45-52 | a line gives no verdict if and only if it has no marker, and it gives "supported" if and only if it names Application, DynamicLibrary or StaticLibrary, whether or not it also names Makefile |
| Eligibility.IsSupportedByIntel | Windows_x64/Visual-Studio-settings/ICProjConvert120.py:40-53 | a file is reported supported only if one of its lines names Application, DynamicLibrary or StaticLibrary |
| Eligibility.FirstMarkerDecides | Windows_x64/Visual-Studio-settings/ICProjConvert120.py:44-53 | the earliest line holding any marker alone decides the verdict |
| Eligibility.NoMarkerNotSupported | Windows_x64/Visual-Studio-settings/ICProjConvert120.py:53 | a file without any marker is not supported |
| Eligibility.SupportedIff | Windows_x64/Visual-Studio-settings/ICProjConvert120.py:44-53 | reference reading, both directions: supported if and only if some line names a supported type and no earlier line names any type |
| Eligibility.MakefileFirst | Windows_x64/Visual-Studio-settings/ICProjConvert120.py:51-52 | a file whose first marker is Makefile is unsupported whatever the later lines say |
| Project.MatchesAfterSet | Windows_x64/Visual-Studio-settings/ICProjConvert120.py:131-133 | overwriting gives every selected leaf the value, keeps their number and keeps the parents |
| Project.MatchesAfterAppend | Windows_x64/Visual-Studio-settings/ICProjConvert120.py:134-139 | inserting where no leaf is selected gives exactly one leaf with the value per parent |
| Project.MatchesAfterRemove | Windows_x64/Visual-Studio-settings/ICProjConvert120.py:74-76 | unlinking leaves no selected leaf |
| Project.StripAfterEdit | Windows_x64/Visual-Studio-settings/ICProjConvert120.py:129-139 | every edit leaves all other nodes as they were: stripping after the edit gives the same document as stripping before it |
| Project.SizeSplit | Windows_x64/Visual-Studio-settings/ICProjConvert120.py:72-76 | the node count is the count after stripping plus the number of selected leaves |
| Project.StripNothing | Windows_x64/Visual-Studio-settings/ICProjConvert120.py:74-78 | stripping a document without selected leaves changes nothing |
| Project.OtherSelectorKept | Windows_x64/Visual-Studio-settings/ICProjConvert120.py:153-163 | an edit of one kind of leaf leaves the leaves of every other kind unchanged (toolset, SubSystem and MinimumRequiredVersion are independent) |
| Project.ParentsKept | Windows_x64/Visual-Studio-settings/ICProjConvert120.py:159-163 | no edit adds or removes a Configuration PropertyGroup or a Link section |
| Project.SetOrInsertFacts | Windows_x64/Visual-Studio-settings/ICProjConvert120.py:129-139 | find-or-insert: existing leaves are all overwritten with no change to the node count, otherwise every parent gains exactly one leaf, and nothing else changes |
| Project.SetOrInsertAt | Windows_x64/Visual-Studio-settings/ICProjConvert120.py:131-139 | group by group: each selected leaf of a group is overwritten in place, or, when nothing is selected anywhere, each group gains one leaf with the value per parent it holds |
| Project.StripFacts | Windows_x64/Visual-Studio-settings/ICProjConvert120.py:72-78 | after a strip no selected leaf remains, the node count drops by their number, and a second strip finds nothing |
| Project.EditDocument | Windows_x64/Visual-Studio-settings/ICProjConvert120.py:131-139 | the loop over the queried nodes applies the edit to every group, in order |
| Project.SetOrInsertLeaves | Windows_x64/Visual-Studio-settings/ICProjConvert120.py:131-139 | the shared rule: overwrite when the query finds leaves, insert under the parents otherwise |
| Project.AddCompilerFlags | Windows_x64/Visual-Studio-settings/ICProjConvert120.py:125-145 | returns 1. With PlatformToolset leaves present, all of them get the flag and the node count is unchanged. Otherwise each Configuration PropertyGroup gains one toolset leaf. No other node changes |
| Project.AddSubSystemFlag | Windows_x64/Visual-Studio-settings/ICProjConvert120.py:147-169 | returns 1. Afterwards every Link-level SubSystem holds the value, there are as many as before or one per Link section, and no other node changes |
| Project.AddVersionFlags | Windows_x64/Visual-Studio-settings/ICProjConvert120.py:171-192 | the same for MinimumRequiredVersion |
| Project.RemoveCompilerFlags | Windows_x64/Visual-Studio-settings/ICProjConvert120.py:68-84 | returns 0 with the document unchanged when there is no toolset leaf, and 1 with every toolset leaf removed otherwise; no toolset remains either way |
| Recipes.FindIntelCompiler | Windows_x64/Visual-Studio-settings/ICProjConvert120.py:55-66 | none if and only if none of the three variables is set; otherwise the toolset of the highest of 15/14/13 whose variable is set |
| Recipes.SubSystemFor | Windows_x64/Visual-Studio-settings/ICProjConvert120.py:119-123 | Windows if and only if the path contains `SetupAtlas` or `WScilex`, otherwise Console |
| Recipes.SetOrInsertKeepsOther | Windows_x64/Visual-Studio-settings/ICProjConvert120.py:86-90 | a setter leaves the other kinds of leaf, and their parents, untouched |
| Recipes.RetargetFacts | Windows_x64/Visual-Studio-settings/ICProjConvert120.py:86-117 | after the three setters, every toolset, SubSystem and MinimumRequiredVersion holds its value. Each is present as often as before or, when missing, once per parent |
| Recipes.AddSubSystemFlags | Windows_x64/Visual-Studio-settings/ICProjConvert120.py:119-123 | sets or inserts SubSystem with the path's subsystem |
| Recipes.AddVS2012Flags | Windows_x64/Visual-Studio-settings/ICProjConvert120.py:86-90 | always returns 1, with toolset `v110`, the path's subsystem and version `''` |
| Recipes.AddIntelFlags | Windows_x64/Visual-Studio-settings/ICProjConvert120.py:92-99 | returns 1 with no change for a `graphic_export` path. Otherwise it returns 1 and sets the Intel toolset when a compiler is found, and returns 0 with no change when none is |
| Recipes.AddIntelRetarget | Windows_x64/Visual-Studio-settings/ICProjConvert120.py:101-117 | returns 0 with no change without a compiler; otherwise returns 1 with the Intel toolset, the path's subsystem and the version |
| Recipes.AddXPFlags | Windows_x64/Visual-Studio-settings/ICProjConvert120.py:101-108 | the same with version `5.01` |
| Recipes.AddXP64Flags | Windows_x64/Visual-Studio-settings/ICProjConvert120.py:110-117 | the same with version `5.02` |
| Convert.Classify | Windows_x64/Visual-Studio-settings/ICProjConvert120.py:240-261 | each flag is `-IC`, one of the four VC-style modes 1 to 4, help, or unknown |
| Convert.ParseCommandLine | Windows_x64/Visual-Studio-settings/ICProjConvert120.py:221-267 | the argument checks, the flag loop and the conflict check compute `CommandLine`: status 2 on a short command line, help, a missing solution, an unknown flag or `-VC` with `-IC` |
| Convert.FlagsAccepted | Windows_x64/Visual-Studio-settings/ICProjConvert120.py:239-261 | the flag loop finishes if and only if every flag is a conversion flag |
| Convert.LastVcFlagWins | Windows_x64/Visual-Studio-settings/ICProjConvert120.py:243-254 | the last VC-style flag decides `conversionToVC` |
| Convert.NoVcFlagKeeps | Windows_x64/Visual-Studio-settings/ICProjConvert120.py:243-254 | without a VC-style flag `conversionToVC` keeps its value |
| Convert.IntelFlagSets | Windows_x64/Visual-Studio-settings/ICProjConvert120.py:240-242 | `conversionToIntel` ends at 1 if and only if some flag is `-IC` |
| Convert.RecipeOf | Windows_x64/Visual-Studio-settings/ICProjConvert120.py:273-297 | dispatch priority: the Intel conversion whenever `-IC` was given, then 2/3/4, then the strip for 1 |
| Convert.ConvertProject | Windows_x64/Visual-Studio-settings/ICProjConvert120.py:273-297 | runs the chosen recipe. Only a 0 from the VS2012, XP or XP64 recipe requests exit 3; the results of the Intel conversion and of the strip are ignored |
| Convert.Run | Windows_x64/Visual-Studio-settings/ICProjConvert120.py:220-297 | the whole of `main` computes `MainOutcome`: usage exit, solution error, or the project loop |
| Convert.ConvertAll | Windows_x64/Visual-Studio-settings/ICProjConvert120.py:269-297 | the project loop ends with status 0, with status 3, or by raising on a listed project that does not exist; it keeps the set of files and never changes a file's text lines |
| Convert.OnlyXPAborts | Windows_x64/Visual-Studio-settings/ICProjConvert120.py:273-297 | apart from the XP conversions no run ends with status 3; a failed strip does not stop it |
| Convert.XPWithoutCompiler | Windows_x64/Visual-Studio-settings/ICProjConvert120.py:283-293 | without an Intel compiler the XP conversions change no file. They end with status 0 if and only if every listed project exists and is ineligible |
| Convert.IneligibleUntouched | Windows_x64/Visual-Studio-settings/ICProjConvert120.py:270-272 | projects the scan rejects are never changed, and no project file appears or disappears |
| Convert.CompletedRunFoundAll | Windows_x64/Visual-Studio-settings/ICProjConvert120.py:270-272 | a run that ends with status 0 found every listed project |
| Convert.ConflictTouchesNothing | Windows_x64/Visual-Studio-settings/ICProjConvert120.py:263-267 | `-IC` together with a last VC-style flag `-VC` exits with status 2 and changes no file |
| Convert.VS2012EndToEnd | Windows_x64/Visual-Studio-settings/ICProjConvert120.py:277-281 | `-VC2012` on a solution with one eligible project exits 0. That project then has only `v110` toolsets, the subsystem its path calls for and empty minimum versions, each as often as before or once per parent |

## Left out

- File I/O is left out. That covers reading the solution and the projects, `saveTo`, `f.close` and the `.old` backups made with `shutil.copyfile`. Documents and line sequences are the inputs and results instead.
- libxml2 parsing, serialisation and the XPath engine are foreign code. The document is an abstract sequence of groups, and the queries are explicit functions. Malformed XML, which makes `parseFile` raise, is not modelled.
- Nodes made by `libxml2.newNode` have no namespace until the file is parsed again. Each mutator parses the file again, so the model lets every mutator see the leaves the previous one inserted.
- Leaf elements carry a tag and text only. Attributes on a leaf and any element children a `setContent` would replace are not represented.
- The model keeps each project's text lines apart from its tree. An edit changes the tree and leaves the lines as they were. No edit touches a ConfigurationType element, so the scan's verdict on an edited file is unaffected, but the model does not derive one representation from the other.
- `os.environ` is the parameter `env`. `os.path.abspath`, `dirname` and `os.sep` are the uninterpreted `join` and `solutionDir`. The existence test on the solution file is the parameter `solutionExists`.
- `usage()`, every `print` and the quiet-mode variable `quietMode` are left out, because they only write to the console. `sys.exit` is the returned status.
- An uncaught Python exception is reported as `Raised` with its cause. No exit status is given for it.
