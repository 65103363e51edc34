/**
 * A Visual Studio project document as the converter's XPath queries see it,
 * and the four edits made on it (`addCompilerFlags`, `addSubSystemFlag`,
 * `addVersionFlags`, `removeCompilerFlags`).
 *
 * The document is the sequence, in document order, of the group elements the
 * queries can reach.  The queries all start with `//`, so where a group sits
 * in the tree does not matter to them.
 */
module Project {
  import opened Wrappers

  const PlatformToolset := "PlatformToolset"
  const ConfigurationLabel := "Configuration"
  const LinkTag := "Link"
  const SubSystem := "SubSystem"
  const MinimumRequiredVersion := "MinimumRequiredVersion"

  /** A leaf property element `<tag>content</tag>`. */
  datatype Prop = Prop(tag: string, content: string)

  /** A tool section of an ItemDefinitionGroup (`ClCompile`, `Link`, `Lib`, ...) with its settings. */
  datatype Tool = Tool(tag: string, settings: seq<Prop>)

  datatype Group =
    | PropertyGroup(labelAttr: Option<string>, props: seq<Prop>)  // `Label` attribute, child properties
    | ItemDefinitionGroup(tools: seq<Tool>)
    | OtherGroup(tag: string)                                 // ItemGroup, ImportGroup, ...: never queried

  type Document = seq<Group>

  /** The leaves one mutator works on. */
  datatype Selector =
    | Toolset                  // `//PropertyGroup/PlatformToolset`, new ones under `//PropertyGroup[@Label='Configuration']`
    | LinkSetting(tag: string) // `//ItemDefinitionGroup/Link/<tag>`, new ones under `//ItemDefinitionGroup/Link`

  /** What happens to the selected leaves. */
  datatype Edit =
    | SetEach(value: string)    // `setContent` on every selected leaf
    | AppendEach(value: string) // `addChild` of a new leaf under every designated parent
    | RemoveEach                // `unlinkNode` on every selected leaf

  /** `n` copies of `v`. */
  function Repeat(n: nat, v: string): (r: seq<string>)
    ensures |r| == n && forall k :: 0 <= k < n ==> r[k] == v
  {
    seq(n, _ => v)
  }

  // ----- one property list -----

  /** The contents of the leaves tagged `tag`, in order. */
  function Values(ps: seq<Prop>, tag: string): seq<string>
  {
    if ps == [] then []
    else (if ps[0].tag == tag then [ps[0].content] else []) + Values(ps[1..], tag)
  }

  function EditLeaves(ps: seq<Prop>, tag: string, e: Edit): seq<Prop>
  {
    if e.AppendEach? then ps + [Prop(tag, e.value)]
    else if ps == [] then []
    else if ps[0].tag != tag then [ps[0]] + EditLeaves(ps[1..], tag, e)
    else if e.SetEach? then [Prop(tag, e.value)] + EditLeaves(ps[1..], tag, e)
    else EditLeaves(ps[1..], tag, e)
  }

  lemma {:induction false} ValuesConcat(a: seq<Prop>, b: seq<Prop>, tag: string)
    ensures Values(a + b, tag) == Values(a, tag) + Values(b, tag)
  {
    if a != [] {
      assert (a + b)[1..] == a[1..] + b;
      ValuesConcat(a[1..], b, tag);
    } else {
      assert a + b == b;
    }
  }

  lemma {:induction false} RemoveConcat(a: seq<Prop>, b: seq<Prop>, tag: string)
    ensures EditLeaves(a + b, tag, RemoveEach) == EditLeaves(a, tag, RemoveEach) + EditLeaves(b, tag, RemoveEach)
  {
    if a != [] {
      assert (a + b)[1..] == a[1..] + b;
      RemoveConcat(a[1..], b, tag);
    } else {
      assert a + b == b;
    }
  }

  lemma {:induction false} LeavesEdited(ps: seq<Prop>, tag: string, e: Edit)
    ensures e.SetEach? ==> Values(EditLeaves(ps, tag, e), tag) == Repeat(|Values(ps, tag)|, e.value)
    ensures e.AppendEach? ==> Values(EditLeaves(ps, tag, e), tag) == Values(ps, tag) + [e.value]
    ensures e.RemoveEach? ==> Values(EditLeaves(ps, tag, e), tag) == []
  {
    if e.AppendEach? {
      ValuesConcat(ps, [Prop(tag, e.value)], tag);
      assert Values([Prop(tag, e.value)], tag) == [e.value];
    } else if ps != [] {
      LeavesEdited(ps[1..], tag, e);
    }
  }

  lemma {:induction false} LeavesStripEdited(ps: seq<Prop>, tag: string, e: Edit)
    ensures EditLeaves(EditLeaves(ps, tag, e), tag, RemoveEach) == EditLeaves(ps, tag, RemoveEach)
  {
    if e.AppendEach? {
      RemoveConcat(ps, [Prop(tag, e.value)], tag);
      assert EditLeaves([Prop(tag, e.value)], tag, RemoveEach) == [];
    } else if ps != [] {
      LeavesStripEdited(ps[1..], tag, e);
    }
  }

  lemma {:induction false} LeavesSizeSplit(ps: seq<Prop>, tag: string)
    ensures |ps| == |EditLeaves(ps, tag, RemoveEach)| + |Values(ps, tag)|
  {
    if ps != [] {
      LeavesSizeSplit(ps[1..], tag);
    }
  }

  lemma {:induction false} LeavesStripNothing(ps: seq<Prop>, tag: string)
    requires Values(ps, tag) == []
    ensures EditLeaves(ps, tag, RemoveEach) == ps
  {
    if ps != [] {
      LeavesStripNothing(ps[1..], tag);
    }
  }

  lemma {:induction false} LeavesOtherTag(ps: seq<Prop>, tag: string, other: string, e: Edit)
    requires tag != other
    ensures Values(EditLeaves(ps, tag, e), other) == Values(ps, other)
  {
    if e.AppendEach? {
      ValuesConcat(ps, [Prop(tag, e.value)], other);
    } else if ps != [] {
      LeavesOtherTag(ps[1..], tag, other, e);
    }
  }

  // ----- the tool sections of one ItemDefinitionGroup -----

  /** The contents of the `<tag>` settings of the `Link` sections, in order. */
  function LinkValues(ts: seq<Tool>, tag: string): seq<string>
  {
    if ts == [] then []
    else (if ts[0].tag == LinkTag then Values(ts[0].settings, tag) else []) + LinkValues(ts[1..], tag)
  }

  function LinkCount(ts: seq<Tool>): nat
  {
    if ts == [] then 0 else (if ts[0].tag == LinkTag then 1 else 0) + LinkCount(ts[1..])
  }

  function EditLinks(ts: seq<Tool>, tag: string, e: Edit): (r: seq<Tool>)
    ensures |r| == |ts|
  {
    if ts == [] then []
    else [if ts[0].tag == LinkTag then ts[0].(settings := EditLeaves(ts[0].settings, tag, e)) else ts[0]]
         + EditLinks(ts[1..], tag, e)
  }

  function ToolsSize(ts: seq<Tool>): nat
  {
    if ts == [] then 0 else |ts[0].settings| + ToolsSize(ts[1..])
  }

  lemma {:induction false} LinksEdited(ts: seq<Tool>, tag: string, e: Edit)
    ensures e.SetEach? ==> LinkValues(EditLinks(ts, tag, e), tag) == Repeat(|LinkValues(ts, tag)|, e.value)
    ensures e.AppendEach? && LinkValues(ts, tag) == [] ==>
      LinkValues(EditLinks(ts, tag, e), tag) == Repeat(LinkCount(ts), e.value)
    ensures e.RemoveEach? ==> LinkValues(EditLinks(ts, tag, e), tag) == []
    ensures LinkCount(EditLinks(ts, tag, e)) == LinkCount(ts)
  {
    if ts != [] {
      var r := EditLinks(ts, tag, e);
      LinksEdited(ts[1..], tag, e);
      LeavesEdited(ts[0].settings, tag, e);
      assert r[1..] == EditLinks(ts[1..], tag, e);
      var link := if ts[0].tag == LinkTag then 1 else 0;
      var head := if ts[0].tag == LinkTag then Values(ts[0].settings, tag) else [];
      if e.SetEach? {
        RepeatAdd(|head|, |LinkValues(ts[1..], tag)|, e.value);
      } else if e.AppendEach? && LinkValues(ts, tag) == [] {
        RepeatAdd(link, LinkCount(ts[1..]), e.value);
      }
    }
  }

  lemma {:induction false} LinksStripEdited(ts: seq<Tool>, tag: string, e: Edit)
    ensures EditLinks(EditLinks(ts, tag, e), tag, RemoveEach) == EditLinks(ts, tag, RemoveEach)
  {
    if ts != [] {
      LinksStripEdited(ts[1..], tag, e);
      LeavesStripEdited(ts[0].settings, tag, e);
    }
  }

  lemma {:induction false} LinksSizeSplit(ts: seq<Tool>, tag: string)
    ensures ToolsSize(ts) == ToolsSize(EditLinks(ts, tag, RemoveEach)) + |LinkValues(ts, tag)|
  {
    if ts != [] {
      LinksSizeSplit(ts[1..], tag);
      LeavesSizeSplit(ts[0].settings, tag);
    }
  }

  lemma {:induction false} LinksStripNothing(ts: seq<Tool>, tag: string)
    requires LinkValues(ts, tag) == []
    ensures EditLinks(ts, tag, RemoveEach) == ts
  {
    if ts != [] {
      LinksStripNothing(ts[1..], tag);
      if ts[0].tag == LinkTag {
        LeavesStripNothing(ts[0].settings, tag);
      }
    }
  }

  lemma {:induction false} LinksOtherTag(ts: seq<Tool>, tag: string, other: string, e: Edit)
    requires tag != other
    ensures LinkValues(EditLinks(ts, tag, e), other) == LinkValues(ts, other)
  {
    if ts != [] {
      LinksOtherTag(ts[1..], tag, other, e);
      LeavesOtherTag(ts[0].settings, tag, other, e);
    }
  }

  // ----- one group -----

  /** The contents of the selected leaves of `g`. */
  function Found(g: Group, sel: Selector): seq<string>
  {
    match sel
    case Toolset => if g.PropertyGroup? then Values(g.props, PlatformToolset) else []
    case LinkSetting(tag) => if g.ItemDefinitionGroup? then LinkValues(g.tools, tag) else []
  }

  /** How many elements of `g` receive a new leaf when none is selected anywhere. */
  function Parents(g: Group, sel: Selector): nat
  {
    match sel
    case Toolset => if g.PropertyGroup? && g.labelAttr == Some(ConfigurationLabel) then 1 else 0
    case LinkSetting(_) => if g.ItemDefinitionGroup? then LinkCount(g.tools) else 0
  }

  function EditGroup(g: Group, sel: Selector, e: Edit): Group
  {
    match sel
    case Toolset =>
      if g.PropertyGroup? && (!e.AppendEach? || g.labelAttr == Some(ConfigurationLabel))
      then g.(props := EditLeaves(g.props, PlatformToolset, e))
      else g
    case LinkSetting(tag) =>
      if g.ItemDefinitionGroup? then g.(tools := EditLinks(g.tools, tag, e)) else g
  }

  /** The number of leaf elements in `g`. */
  function GroupSize(g: Group): nat
  {
    match g
    case PropertyGroup(_, ps) => |ps|
    case ItemDefinitionGroup(ts) => ToolsSize(ts)
    case OtherGroup(_) => 0
  }

  // ----- the document -----

  /** The contents of the node list the mutator's XPath query returns, in document order. */
  function Matches(d: Document, sel: Selector): seq<string>
  {
    if d == [] then [] else Found(d[0], sel) + Matches(d[1..], sel)
  }

  /** The number of parents the insertion query returns. */
  function ParentCount(d: Document, sel: Selector): nat
  {
    if d == [] then 0 else Parents(d[0], sel) + ParentCount(d[1..], sel)
  }

  /** The number of leaf elements in the document. */
  function Size(d: Document): nat
  {
    if d == [] then 0 else GroupSize(d[0]) + Size(d[1..])
  }

  function EditAll(d: Document, sel: Selector, e: Edit): (r: Document)
    ensures |r| == |d|
  {
    if d == [] then [] else [EditGroup(d[0], sel, e)] + EditAll(d[1..], sel, e)
  }

  /** The shared rule: overwrite every selected leaf if there is one, else add one under every parent. */
  function SetOrInsert(d: Document, sel: Selector, v: string): Document
  {
    if Matches(d, sel) != [] then EditAll(d, sel, SetEach(v)) else EditAll(d, sel, AppendEach(v))
  }

  /** The document without any selected leaf. */
  function Strip(d: Document, sel: Selector): Document
  {
    EditAll(d, sel, RemoveEach)
  }

  lemma {:induction false} EditAllSnoc(d: Document, g: Group, sel: Selector, e: Edit)
    ensures EditAll(d + [g], sel, e) == EditAll(d, sel, e) + [EditGroup(g, sel, e)]
  {
    if d != [] {
      assert (d + [g])[1..] == d[1..] + [g];
      EditAllSnoc(d[1..], g, sel, e);
    } else {
      assert d + [g] == [g];
    }
  }

  lemma RepeatAdd(a: nat, b: nat, v: string)
    ensures Repeat(a, v) + Repeat(b, v) == Repeat(a + b, v)
  {
  }

  /** What an edit does to the selected leaves of one group. */
  lemma GroupEdited(g: Group, sel: Selector, e: Edit)
    ensures e.SetEach? ==> Found(EditGroup(g, sel, e), sel) == Repeat(|Found(g, sel)|, e.value)
    ensures e.AppendEach? && Found(g, sel) == [] ==>
      Found(EditGroup(g, sel, e), sel) == Repeat(Parents(g, sel), e.value)
    ensures e.RemoveEach? ==> Found(EditGroup(g, sel, e), sel) == []
    ensures Parents(EditGroup(g, sel, e), sel) == Parents(g, sel)
  {
    match sel
    case Toolset =>
      if g.PropertyGroup? {
        LeavesEdited(g.props, PlatformToolset, e);
      }
    case LinkSetting(tag) =>
      if g.ItemDefinitionGroup? {
        LinksEdited(g.tools, tag, e);
      }
  }

  /**
   * Overwriting keeps the number of selected leaves and gives each the value;
   * parents are neither added nor removed.
   */
  lemma {:induction false} MatchesAfterSet(d: Document, sel: Selector, v: string)
    ensures Matches(EditAll(d, sel, SetEach(v)), sel) == Repeat(|Matches(d, sel)|, v)
    ensures ParentCount(EditAll(d, sel, SetEach(v)), sel) == ParentCount(d, sel)
  {
    if d != [] {
      MatchesAfterSet(d[1..], sel, v);
      GroupEdited(d[0], sel, SetEach(v));
      RepeatAdd(|Found(d[0], sel)|, |Matches(d[1..], sel)|, v);
    }
  }

  /** Inserting where no leaf is selected gives exactly one leaf per parent. */
  lemma {:induction false} MatchesAfterAppend(d: Document, sel: Selector, v: string)
    requires Matches(d, sel) == []
    ensures Matches(EditAll(d, sel, AppendEach(v)), sel) == Repeat(ParentCount(d, sel), v)
    ensures ParentCount(EditAll(d, sel, AppendEach(v)), sel) == ParentCount(d, sel)
  {
    if d != [] {
      MatchesAfterAppend(d[1..], sel, v);
      GroupEdited(d[0], sel, AppendEach(v));
      RepeatAdd(Parents(d[0], sel), ParentCount(d[1..], sel), v);
    }
  }

  /** Removing leaves no selected leaf behind and keeps the parents. */
  lemma {:induction false} MatchesAfterRemove(d: Document, sel: Selector)
    ensures Matches(EditAll(d, sel, RemoveEach), sel) == []
    ensures ParentCount(EditAll(d, sel, RemoveEach), sel) == ParentCount(d, sel)
  {
    if d != [] {
      MatchesAfterRemove(d[1..], sel);
      GroupEdited(d[0], sel, RemoveEach);
    }
  }

  /** An edit touches nothing but the selected leaves and the leaves it adds. */
  lemma {:induction false} StripAfterEdit(d: Document, sel: Selector, e: Edit)
    ensures Strip(EditAll(d, sel, e), sel) == Strip(d, sel)
  {
    if d != [] {
      StripAfterEdit(d[1..], sel, e);
      var g := d[0];
      match sel
      case Toolset =>
        if g.PropertyGroup? {
          LeavesStripEdited(g.props, PlatformToolset, e);
        }
      case LinkSetting(tag) =>
        if g.ItemDefinitionGroup? {
          LinksStripEdited(g.tools, tag, e);
        }
    }
  }

  /** Every leaf is either selected or survives the strip. */
  lemma {:induction false} SizeSplit(d: Document, sel: Selector)
    ensures Size(d) == Size(Strip(d, sel)) + |Matches(d, sel)|
  {
    if d != [] {
      SizeSplit(d[1..], sel);
      var g := d[0];
      match sel
      case Toolset =>
        if g.PropertyGroup? {
          LeavesSizeSplit(g.props, PlatformToolset);
        }
      case LinkSetting(tag) =>
        if g.ItemDefinitionGroup? {
          LinksSizeSplit(g.tools, tag);
        }
    }
  }

  /** Stripping a document without selected leaves changes nothing. */
  lemma {:induction false} StripNothing(d: Document, sel: Selector)
    requires Matches(d, sel) == []
    ensures Strip(d, sel) == d
  {
    if d != [] {
      StripNothing(d[1..], sel);
      var g := d[0];
      match sel
      case Toolset =>
        if g.PropertyGroup? {
          LeavesStripNothing(g.props, PlatformToolset);
        }
      case LinkSetting(tag) =>
        if g.ItemDefinitionGroup? {
          LinksStripNothing(g.tools, tag);
        }
    }
  }

  /** An edit of one kind of leaf leaves every other kind as it was. */
  lemma {:induction false} OtherSelectorKept(d: Document, sel: Selector, other: Selector, e: Edit)
    requires sel != other
    ensures Matches(EditAll(d, sel, e), other) == Matches(d, other)
  {
    if d != [] {
      OtherSelectorKept(d[1..], sel, other, e);
      var g := d[0];
      if sel.LinkSetting? && other.LinkSetting? && g.ItemDefinitionGroup? {
        LinksOtherTag(g.tools, sel.tag, other.tag, e);
      }
    }
  }

  /** No edit adds or removes a parent of any kind of leaf. */
  lemma {:induction false} ParentsKept(d: Document, sel: Selector, other: Selector, e: Edit)
    ensures ParentCount(EditAll(d, sel, e), other) == ParentCount(d, other)
  {
    if d != [] {
      ParentsKept(d[1..], sel, other, e);
      var g := d[0];
      if sel.LinkSetting? && g.ItemDefinitionGroup? {
        LinksEdited(g.tools, sel.tag, e);
      }
    }
  }

  /**
   * The find-or-insert rule, stated on the document: afterwards every selected
   * leaf holds `v`; if some existed their number and the node count are
   * unchanged, otherwise every parent gained exactly one; nothing else moved.
   */
  lemma SetOrInsertFacts(d: Document, sel: Selector, v: string)
    ensures var r := SetOrInsert(d, sel, v);
      Strip(r, sel) == Strip(d, sel) &&
      (Matches(d, sel) != [] ==> Matches(r, sel) == Repeat(|Matches(d, sel)|, v) && Size(r) == Size(d)) &&
      (Matches(d, sel) == [] ==> Matches(r, sel) == Repeat(ParentCount(d, sel), v) &&
                                 Size(r) == Size(d) + ParentCount(d, sel)) &&
      ParentCount(r, sel) == ParentCount(d, sel)
  {
    var e := if Matches(d, sel) != [] then SetEach(v) else AppendEach(v);
    var r := EditAll(d, sel, e);
    if e.SetEach? {
      MatchesAfterSet(d, sel, v);
    } else {
      MatchesAfterAppend(d, sel, v);
    }
    StripAfterEdit(d, sel, e);
    SizeSplit(d, sel);
    SizeSplit(r, sel);
  }

  /** The edit of a document is the edit of each group in place. */
  lemma {:induction false} EditAllAt(d: Document, sel: Selector, e: Edit, i: nat)
    requires i < |d|
    ensures EditAll(d, sel, e)[i] == EditGroup(d[i], sel, e)
  {
    if i > 0 {
      EditAllAt(d[1..], sel, e, i - 1);
    }
  }

  /** A document with no selected leaf has none in any of its groups. */
  lemma {:induction false} MatchesEmptyAt(d: Document, sel: Selector, i: nat)
    requires i < |d| && Matches(d, sel) == []
    ensures Found(d[i], sel) == []
  {
    if i > 0 {
      MatchesEmptyAt(d[1..], sel, i - 1);
    }
  }

  /**
   * Where the new values land, group by group: each selected leaf of a group
   * is overwritten in place, or, when nothing was selected anywhere, the group
   * gets one new leaf per parent it holds.
   */
  lemma SetOrInsertAt(d: Document, sel: Selector, v: string, i: nat)
    requires i < |d|
    ensures Matches(d, sel) != [] ==>
      Found(SetOrInsert(d, sel, v)[i], sel) == Repeat(|Found(d[i], sel)|, v)
    ensures Matches(d, sel) == [] ==>
      Found(SetOrInsert(d, sel, v)[i], sel) == Repeat(Parents(d[i], sel), v)
  {
    var e := if Matches(d, sel) != [] then SetEach(v) else AppendEach(v);
    EditAllAt(d, sel, e, i);
    GroupEdited(d[i], sel, e);
    if e.AppendEach? {
      MatchesEmptyAt(d, sel, i);
    }
  }

  /** Stripping removes exactly the selected leaves, and a second strip finds nothing. */
  lemma StripFacts(d: Document, sel: Selector)
    ensures Matches(Strip(d, sel), sel) == []
    ensures Size(Strip(d, sel)) == Size(d) - |Matches(d, sel)|
    ensures Strip(Strip(d, sel), sel) == Strip(d, sel)
    ensures ParentCount(Strip(d, sel), sel) == ParentCount(d, sel)
  {
    MatchesAfterRemove(d, sel);
    SizeSplit(d, sel);
    StripNothing(Strip(d, sel), sel);
  }

  /** The loop every mutator runs over the node list its query returned. */
  method EditDocument(d: Document, sel: Selector, e: Edit) returns (r: Document)
    ensures r == EditAll(d, sel, e)
  {
    r := [];
    var i := 0;
    while i < |d|
      invariant 0 <= i <= |d|
      invariant r == EditAll(d[..i], sel, e)
    {
      EditAllSnoc(d[..i], d[i], sel, e);
      assert d[..i + 1] == d[..i] + [d[i]];
      r := r + [EditGroup(d[i], sel, e)];
      i := i + 1;
    }
    assert d[..i] == d;
  }

  /** The find-or-insert pattern shared by the three setters. */
  method SetOrInsertLeaves(d: Document, sel: Selector, v: string) returns (r: Document)
    ensures r == SetOrInsert(d, sel, v)
  {
    if |Matches(d, sel)| != 0 {
      r := EditDocument(d, sel, SetEach(v));
    } else {
      r := EditDocument(d, sel, AppendEach(v));
    }
  }

  /**
   * `addCompilerFlags`: every PlatformToolset under a PropertyGroup gets the
   * flag; if there is none, each PropertyGroup labelled Configuration gains one.
   */
  method AddCompilerFlags(d: Document, compilerFlag: string) returns (r: Document, rc: int)
    ensures rc == 1 && r == SetOrInsert(d, Toolset, compilerFlag)
    ensures Strip(r, Toolset) == Strip(d, Toolset)
    ensures Matches(d, Toolset) != [] ==>
      Matches(r, Toolset) == Repeat(|Matches(d, Toolset)|, compilerFlag) && Size(r) == Size(d)
    ensures Matches(d, Toolset) == [] ==>
      Matches(r, Toolset) == Repeat(ParentCount(d, Toolset), compilerFlag) &&
      Size(r) == Size(d) + ParentCount(d, Toolset)
  {
    r := SetOrInsertLeaves(d, Toolset, compilerFlag);
    SetOrInsertFacts(d, Toolset, compilerFlag);
    rc := 1;
  }

  /** `addSubSystemFlag`: the same rule for `SubSystem` under `ItemDefinitionGroup/Link`. */
  method AddSubSystemFlag(d: Document, subSystem: string) returns (r: Document, rc: int)
    ensures rc == 1 && r == SetOrInsert(d, LinkSetting(SubSystem), subSystem)
    ensures Strip(r, LinkSetting(SubSystem)) == Strip(d, LinkSetting(SubSystem))
    ensures forall k :: 0 <= k < |Matches(r, LinkSetting(SubSystem))| ==> Matches(r, LinkSetting(SubSystem))[k] == subSystem
    ensures |Matches(r, LinkSetting(SubSystem))| ==
      if Matches(d, LinkSetting(SubSystem)) != [] then |Matches(d, LinkSetting(SubSystem))| else ParentCount(d, LinkSetting(SubSystem))
  {
    r := SetOrInsertLeaves(d, LinkSetting(SubSystem), subSystem);
    SetOrInsertFacts(d, LinkSetting(SubSystem), subSystem);
    rc := 1;
  }

  /** `addVersionFlags`: the same rule for `MinimumRequiredVersion` under `ItemDefinitionGroup/Link`. */
  method AddVersionFlags(d: Document, version: string) returns (r: Document, rc: int)
    ensures rc == 1 && r == SetOrInsert(d, LinkSetting(MinimumRequiredVersion), version)
    ensures Strip(r, LinkSetting(MinimumRequiredVersion)) == Strip(d, LinkSetting(MinimumRequiredVersion))
    ensures forall k :: 0 <= k < |Matches(r, LinkSetting(MinimumRequiredVersion))| ==>
      Matches(r, LinkSetting(MinimumRequiredVersion))[k] == version
    ensures |Matches(r, LinkSetting(MinimumRequiredVersion))| ==
      if Matches(d, LinkSetting(MinimumRequiredVersion)) != [] then |Matches(d, LinkSetting(MinimumRequiredVersion))|
      else ParentCount(d, LinkSetting(MinimumRequiredVersion))
  {
    r := SetOrInsertLeaves(d, LinkSetting(MinimumRequiredVersion), version);
    SetOrInsertFacts(d, LinkSetting(MinimumRequiredVersion), version);
    rc := 1;
  }

  /**
   * `removeCompilerFlags`: unlink every PlatformToolset under a PropertyGroup
   * and return 1; return 0 and leave the document alone if there is none.
   */
  method RemoveCompilerFlags(d: Document) returns (r: Document, rc: int)
    ensures Matches(d, Toolset) == [] ==> rc == 0 && r == d
    ensures Matches(d, Toolset) != [] ==> rc == 1 && r == Strip(d, Toolset)
    ensures Matches(r, Toolset) == []
    ensures Size(r) == Size(d) - |Matches(d, Toolset)|
  {
    if |Matches(d, Toolset)| != 0 {
      r := EditDocument(d, Toolset, RemoveEach);
      StripFacts(d, Toolset);
      rc := 1;
    } else {
      r, rc := d, 0;
    }
  }
}
