/** The dictionary-based code-structure editor of src/tools/code_structure.py.

    The project is a nested record: functions hold parameters, a return and a
    logic description, and an ordered list of nested entries. Entries are
    addressed by dot-separated paths, each segment picking the FIRST function
    of that name at the current level. The Python code mutates the dict it
    finds in place; here a found function is identified by its index path
    (`Loc`), and an edit rebuilds the tree along that path. */
module CodeStructureTool {
  import opened Common

  datatype Parameter = Parameter(name: string, description: string)

  /** A `{"function": {...}}` record; `returns` and `logic` are the
      `description` entries of the "returns" and "logic" sub-dicts. */
  datatype FunctionNode = FunctionNode(
    name: string,
    description: string,
    parameters: seq<Parameter>,
    returnDescription: string,
    logicDescription: string,
    children: seq<Entry>)

  /** An entry of a `code_structure` list. Entries without a "function" key
      (only possible in a project loaded from YAML) are skipped by every
      walk. */
  datatype Entry = FunctionEntry(node: FunctionNode) | OtherEntry

  datatype Project = Project(name: string, description: string, entries: seq<Entry>)

  /** The index path of a function: one index per nesting level. */
  type Loc = seq<nat>

  const NotCreatedError: string := "プロジェクトが作成されていません。先にcreate_projectを呼び出してください。"
  const NotCreatedText: string := "プロジェクトが作成されていません。"

  /** The function dict add_function builds. */
  function NewFunction(name: string, description: string): (f: FunctionNode)
    ensures f.name == name && f.description == description
    ensures f.parameters == [] && f.returnDescription == "" && f.logicDescription == "" && f.children == []
  {
    FunctionNode(name, description, [], "", "", [])
  }

  // ---------------------------------------------------------------------
  // Paths and the first-match walk

  predicate Matches(e: Entry, name: string)
  {
    e.FunctionEntry? && e.node.name == name
  }

  /** The index of the first function named `name` at or after `from`. */
  function FirstMatch(entries: seq<Entry>, name: string, from: nat): (r: Option<nat>)
    requires from <= |entries|
    ensures r.Some? ==> (from <= r.value < |entries| && Matches(entries[r.value], name)
      && forall k :: from <= k < r.value ==> !Matches(entries[k], name))
    ensures r.None? ==> forall k :: from <= k < |entries| ==> !Matches(entries[k], name)
    decreases |entries| - from
  {
    if from == |entries| then None
    else if Matches(entries[from], name) then Some(from)
    else FirstMatch(entries, name, from + 1)
  }

  predicate ValidLoc(entries: seq<Entry>, loc: Loc)
    decreases |loc|
  {
    && |loc| >= 1 && loc[0] < |entries| && entries[loc[0]].FunctionEntry?
    && (|loc| > 1 ==> ValidLoc(entries[loc[0]].node.children, loc[1..]))
  }

  function NodeAt(entries: seq<Entry>, loc: Loc): FunctionNode
    requires ValidLoc(entries, loc)
    decreases |loc|
  {
    var f := entries[loc[0]].node;
    if |loc| == 1 then f else NodeAt(f.children, loc[1..])
  }

  /** The first-match walk of `_find_function` and `add_function`: each
      segment selects the first function of that name at the current level;
      any missing segment gives None. A found location names the path. */
  function Find(entries: seq<Entry>, parts: seq<string>): (r: Option<Loc>)
    requires |parts| >= 1
    ensures r.Some? ==> (ValidLoc(entries, r.value) && |r.value| == |parts|
      && NodeAt(entries, r.value).name == parts[|parts| - 1])
    decreases |parts|
  {
    match FirstMatch(entries, parts[0], 0)
    case None => None
    case Some(i) =>
      if |parts| == 1 then Some([i])
      else match Find(entries[i].node.children, parts[1..])
        case None => None
        case Some(rest) => Some([i] + rest)
  }

  /** A found location follows the first matches, level by level: its first
      index is the first function named like the first segment, and the rest
      is what the walk finds below it. */
  lemma FindIsFirstMatch(entries: seq<Entry>, parts: seq<string>)
    requires |parts| >= 1 && Find(entries, parts).Some?
    ensures var loc := Find(entries, parts).value;
      && FirstMatch(entries, parts[0], 0) == Some(loc[0])
      && (|parts| > 1 ==> Find(entries[loc[0]].node.children, parts[1..]) == Some(loc[1..]))
  {
  }

  // ---------------------------------------------------------------------
  // Edits at a location

  datatype Edit =
    | AddParameterEdit(parameter: Parameter)
    | SetReturnEdit(description: string)
    | SetLogicEdit(description: string)
    | AddChildEdit(child: FunctionNode)

  /** What add_parameter, add_return, add_logic and a nested add_function do
      to the function dict they found. */
  function ApplyEdit(f: FunctionNode, e: Edit): (g: FunctionNode)
    ensures g.name == f.name && g.description == f.description
    ensures e.AddParameterEdit? ==> g == f.(parameters := f.parameters + [e.parameter])
    ensures e.SetReturnEdit? ==> g == f.(returnDescription := e.description)
    ensures e.SetLogicEdit? ==> g == f.(logicDescription := e.description)
    ensures e.AddChildEdit? ==> g == f.(children := f.children + [FunctionEntry(e.child)])
  {
    match e
    case AddParameterEdit(p) => f.(parameters := f.parameters + [p])
    case SetReturnEdit(d) => f.(returnDescription := d)
    case SetLogicEdit(d) => f.(logicDescription := d)
    case AddChildEdit(c) => f.(children := f.children + [FunctionEntry(c)])
  }

  /** The tree after editing the function at `loc` in place. */
  function UpdateAt(entries: seq<Entry>, loc: Loc, e: Edit): (r: seq<Entry>)
    requires ValidLoc(entries, loc)
    ensures |r| == |entries|
    ensures forall i :: 0 <= i < |entries| && i != loc[0] ==> r[i] == entries[i]
    decreases |loc|
  {
    var f := entries[loc[0]].node;
    var g := if |loc| == 1 then ApplyEdit(f, e) else f.(children := UpdateAt(f.children, loc[1..], e));
    entries[loc[0] := FunctionEntry(g)]
  }

  predicate IsPrefix(a: Loc, b: Loc)
  {
    |a| <= |b| && b[..|a|] == a
  }

  /** The edited function is found where it was, with the edit applied. */
  lemma {:induction false} UpdateAtTarget(entries: seq<Entry>, loc: Loc, e: Edit)
    requires ValidLoc(entries, loc)
    ensures ValidLoc(UpdateAt(entries, loc, e), loc)
    ensures NodeAt(UpdateAt(entries, loc, e), loc) == ApplyEdit(NodeAt(entries, loc), e)
    decreases |loc|
  {
    if |loc| > 1 {
      UpdateAtTarget(entries[loc[0]].node.children, loc[1..], e);
    }
  }

  /** Nothing else changes: every function that is not the edited one or one
      of its enclosing functions is untouched and still at its location. */
  lemma {:induction false} UpdateAtElsewhere(entries: seq<Entry>, loc: Loc, e: Edit, other: Loc)
    requires ValidLoc(entries, loc) && ValidLoc(entries, other) && !IsPrefix(other, loc)
    ensures ValidLoc(UpdateAt(entries, loc, e), other)
    ensures NodeAt(UpdateAt(entries, loc, e), other) == NodeAt(entries, other)
    decreases |loc|
  {
    var r := UpdateAt(entries, loc, e);
    if other[0] != loc[0] {
    } else if |loc| == 1 {
      // `other` lies strictly below the edited function, whose existing
      // children every edit keeps in place.
      assert |other| > 1;
      var f := entries[loc[0]].node;
      ChildrenPrefixKeepsNode(f.children, ApplyEdit(f, e).children, other[1..]);
    } else {
      assert |other| > 1;
      assert !IsPrefix(other[1..], loc[1..]);
      UpdateAtElsewhere(entries[loc[0]].node.children, loc[1..], e, other[1..]);
    }
  }

  /** An edit leaves the existing children of the edited function as a prefix
      of its new children. */
  lemma {:induction false} ChildrenPrefixKeepsNode(before: seq<Entry>, after: seq<Entry>, loc: Loc)
    requires ValidLoc(before, loc) && |before| <= |after| && after[..|before|] == before
    ensures ValidLoc(after, loc) && NodeAt(after, loc) == NodeAt(before, loc)
  {
    assert after[loc[0]] == before[loc[0]];
  }

  /** Enclosing functions keep every field but their children, and the
      number of their children. */
  lemma {:induction false} UpdateAtAncestor(entries: seq<Entry>, loc: Loc, e: Edit, anc: Loc)
    requires ValidLoc(entries, loc) && ValidLoc(entries, anc) && |anc| < |loc| && IsPrefix(anc, loc)
    ensures ValidLoc(UpdateAt(entries, loc, e), anc)
    ensures var before, after := NodeAt(entries, anc), NodeAt(UpdateAt(entries, loc, e), anc);
      after == before.(children := after.children) && |after.children| == |before.children|
    decreases |loc|
  {
    assert anc[0] == loc[0];
    if |anc| > 1 {
      assert IsPrefix(anc[1..], loc[1..]);
      UpdateAtAncestor(entries[loc[0]].node.children, loc[1..], e, anc[1..]);
    }
  }

  // ---------------------------------------------------------------------
  // Counting

  /** `_count_functions`: function entries at every depth. */
  function Count(entries: seq<Entry>): nat
  {
    if entries == [] then 0 else EntryCount(entries[0]) + Count(entries[1..])
  }

  /** A function entry counts itself and everything nested in it. */
  function EntryCount(e: Entry): (r: nat)
    ensures r == 0 <==> e.OtherEntry?
    ensures e.FunctionEntry? ==> r == 1 + Count(e.node.children)
  {
    match e
    case OtherEntry => 0
    case FunctionEntry(f) => 1 + Count(f.children)
  }

  /** The count is zero exactly when no entry is a function. */
  lemma {:induction false} CountZero(entries: seq<Entry>)
    ensures Count(entries) == 0 <==> forall i :: 0 <= i < |entries| ==> entries[i].OtherEntry?
  {
    if entries != [] {
      CountZero(entries[1..]);
      assert forall i :: 1 <= i < |entries| ==> entries[i] == entries[1..][i - 1];
    }
  }

  lemma {:induction false} CountAppend(entries: seq<Entry>, e: Entry)
    ensures Count(entries + [e]) == Count(entries) + EntryCount(e)
  {
    if entries != [] {
      assert (entries + [e])[1..] == entries[1..] + [e];
      CountAppend(entries[1..], e);
    }
  }

  lemma {:induction false} CountReplace(entries: seq<Entry>, i: nat, e: Entry)
    requires i < |entries|
    ensures Count(entries[i := e]) == Count(entries) - EntryCount(entries[i]) + EntryCount(e)
  {
    if i > 0 {
      assert entries[i := e][1..] == entries[1..][i - 1 := e];
      CountReplace(entries[1..], i - 1, e);
    } else {
      assert entries[i := e][1..] == entries[1..];
    }
  }

  /** An edit adds exactly the functions it inserts: one new empty function
      adds one, and parameter, return or logic edits add none. */
  lemma {:induction false} CountAfterEdit(entries: seq<Entry>, loc: Loc, e: Edit)
    requires ValidLoc(entries, loc)
    ensures Count(UpdateAt(entries, loc, e)) ==
      Count(entries) + (if e.AddChildEdit? then 1 + Count(e.child.children) else 0)
    decreases |loc|
  {
    var f := entries[loc[0]].node;
    if |loc| > 1 {
      CountAfterEdit(f.children, loc[1..], e);
    } else if e.AddChildEdit? {
      CountAppend(f.children, FunctionEntry(e.child));
    }
    var g := if |loc| == 1 then ApplyEdit(f, e) else f.(children := UpdateAt(f.children, loc[1..], e));
    CountReplace(entries, loc[0], FunctionEntry(g));
  }

  // ---------------------------------------------------------------------
  // Rendering

  /** `'  ' * k`. */
  function Indent(k: nat): (s: string)
    ensures |s| == 2 * k
  {
    if k == 0 then "" else "  " + Indent(k - 1)
  }

  /** The fixed texts of one function's rendering at indent level k. */
  function HeaderLine(k: nat, name: string): string
  {
    Indent(k) + "関数: " + name
  }

  function DescriptionLine(k: nat, description: string): string
  {
    Indent(k + 1) + "説明: " + description
  }

  function ParameterHeading(k: nat): string
  {
    Indent(k + 1) + "パラメータ:"
  }

  function ParameterLine(k: nat, p: Parameter): string
  {
    Indent(k) + p.name + ": " + p.description
  }

  function ReturnLine(k: nat, description: string): string
  {
    Indent(k + 1) + "戻り値: " + description
  }

  function LogicLine(k: nat, description: string): string
  {
    Indent(k + 1) + "ロジック: " + description
  }

  function ChildrenHeading(k: nat): string
  {
    Indent(k + 1) + "内部構造:"
  }

  /** The lines `_append_structure` adds for a list of entries. */
  function Lines(entries: seq<Entry>, k: nat): seq<string>
  {
    if entries == [] then [] else EntryLines(entries[0], k) + Lines(entries[1..], k)
  }

  /** One function: its header and description, then only the non-empty
      sections, nested functions two levels deeper. */
  function EntryLines(e: Entry, k: nat): seq<string>
    decreases e, 1
  {
    match e
    case OtherEntry => []
    case FunctionEntry(f) =>
      [HeaderLine(k, f.name), DescriptionLine(k, f.description)]
      + ParameterSection(f, k) + ReturnSection(f, k) + LogicSection(f, k) + ChildSection(f, k)
  }

  function ParameterSection(f: FunctionNode, k: nat): seq<string>
  {
    if f.parameters != [] then [ParameterHeading(k)] + ParameterLines(f.parameters, k + 2) else []
  }

  function ReturnSection(f: FunctionNode, k: nat): seq<string>
  {
    if f.returnDescription != "" then [ReturnLine(k, f.returnDescription)] else []
  }

  function LogicSection(f: FunctionNode, k: nat): seq<string>
  {
    if f.logicDescription != "" then [LogicLine(k, f.logicDescription)] else []
  }

  function ChildSection(f: FunctionNode, k: nat): seq<string>
    decreases f, 0
  {
    if f.children != [] then [ChildrenHeading(k)] + Lines(f.children, k + 2) else []
  }

  function ParameterLines(ps: seq<Parameter>, k: nat): (r: seq<string>)
    ensures |r| == |ps|
  {
    if ps == [] then [] else [ParameterLine(k, ps[0])] + ParameterLines(ps[1..], k)
  }

  /** Every function at every depth renders at least its header and its
      description; a list without functions renders nothing. */
  lemma {:induction false} LinesLength(entries: seq<Entry>, k: nat)
    ensures |Lines(entries, k)| >= 2 * Count(entries)
    ensures Lines(entries, k) == [] <==> Count(entries) == 0
    decreases entries, 2
  {
    if entries != [] {
      EntryLinesLength(entries[0], k);
      LinesLength(entries[1..], k);
    }
  }

  lemma {:induction false} EntryLinesLength(e: Entry, k: nat)
    ensures |EntryLines(e, k)| >= 2 * EntryCount(e)
    ensures EntryLines(e, k) == [] <==> e.OtherEntry?
    decreases e, 3
  {
    if e.FunctionEntry? {
      var f := e.node;
      if f.children != [] {
        LinesLength(f.children, k + 2);
      }
    }
  }

  lemma {:induction false} LinesAppend(entries: seq<Entry>, e: Entry, k: nat)
    ensures Lines(entries + [e], k) == Lines(entries, k) + EntryLines(e, k)
  {
    if entries != [] {
      assert (entries + [e])[1..] == entries[1..] + [e];
      LinesAppend(entries[1..], e, k);
    }
  }

  lemma AppendedLines(entries: seq<Entry>, j: nat, k: nat)
    requires j < |entries|
    ensures Lines(entries[..j + 1], k) == Lines(entries[..j], k) + EntryLines(entries[j], k)
  {
    assert entries[..j + 1] == entries[..j] + [entries[j]];
    LinesAppend(entries[..j], entries[j], k);
  }

  /** The loop step of `_append_structure`. */
  lemma AppendedStep(result: seq<string>, entries: seq<Entry>, j: nat, k: nat)
    requires j < |entries|
    ensures result + Lines(entries[..j], k) + EntryLines(entries[j], k) == result + Lines(entries[..j + 1], k)
  {
    AppendedLines(entries, j, k);
  }

  lemma {:induction false} LinesContainEntry(entries: seq<Entry>, i: nat, k: nat, line: string)
    requires i < |entries| && line in EntryLines(entries[i], k)
    ensures line in Lines(entries, k)
  {
    if i > 0 {
      LinesContainEntry(entries[1..], i - 1, k, line);
    }
  }

  /** The rendering lists every function of the tree, a function at nesting
      depth d (0 for the top level) indented 2 * d levels deeper than the top
      level. */
  lemma {:induction false} RenderShowsEveryFunction(entries: seq<Entry>, loc: Loc, k: nat)
    requires ValidLoc(entries, loc)
    ensures HeaderLine(k + 2 * (|loc| - 1), NodeAt(entries, loc).name) in Lines(entries, k)
    decreases |loc|
  {
    var f := entries[loc[0]].node;
    assert entries[loc[0]] == FunctionEntry(f);
    var line := HeaderLine(k + 2 * (|loc| - 1), NodeAt(entries, loc).name);
    if |loc| > 1 {
      assert NodeAt(entries, loc) == NodeAt(f.children, loc[1..]);
      assert k + 2 * (|loc| - 1) == (k + 2) + 2 * (|loc[1..]| - 1);
      RenderShowsEveryFunction(f.children, loc[1..], k + 2);
      ChildLineInEntry(f, k, line);
    } else {
      HeaderInEntry(f, k);
    }
    LinesContainEntry(entries, loc[0], k, line);
  }

  /** A function's own header is the first line of its rendering. */
  lemma HeaderInEntry(f: FunctionNode, k: nat)
    ensures HeaderLine(k, f.name) in EntryLines(FunctionEntry(f), k)
  {
    assert EntryLines(FunctionEntry(f), k)[0] == HeaderLine(k, f.name);
  }

  /** The lines of a function's children are part of its rendering. */
  lemma ChildLineInEntry(f: FunctionNode, k: nat, line: string)
    requires line in Lines(f.children, k + 2)
    ensures line in EntryLines(FunctionEntry(f), k)
  {
    assert f.children != [];
    assert line in ChildSection(f, k);
  }

  /** `"\n".join(lines)`. */
  function JoinLines(lines: seq<string>): string
  {
    if lines == [] then "" else if |lines| == 1 then lines[0] else lines[0] + "\n" + JoinLines(lines[1..])
  }

  /** `show_structure`'s lines: three heading lines, then at least a header
      and a description per function at every depth; only the headings for a
      project without functions. */
  function StructureLines(p: Project): (r: seq<string>)
    ensures |r| >= 3 + 2 * Count(p.entries)
    ensures Count(p.entries) == 0 <==> |r| == 3
  {
    LinesLength(p.entries, 1);
    ["プロジェクト: " + p.name, "説明: " + p.description, "コード構造:"] + Lines(p.entries, 1)
  }

  /** `show_summary`'s three lines: name, description, function count. */
  function SummaryLines(p: Project): (r: seq<string>)
    ensures |r| == 3
  {
    ["プロジェクト要約: " + p.name, "説明: " + p.description, "関数数: " + NatToString(Count(p.entries))]
  }

  /** The count line determines the count: two summaries with the same
      count line are of projects with as many functions. */
  lemma SummaryShowsCount(p: Project, q: Project)
    requires SummaryLines(p)[2] == SummaryLines(q)[2]
    ensures Count(p.entries) == Count(q.entries)
  {
    var prefix := "関数数: ";
    assert NatToString(Count(p.entries)) == SummaryLines(p)[2][|prefix|..];
    assert NatToString(Count(q.entries)) == SummaryLines(q)[2][|prefix|..];
    NatToStringInjective(Count(p.entries), Count(q.entries));
  }

  /** `_count_functions`. */
  method CountFunctions(entries: seq<Entry>) returns (count: nat)
    ensures count == Count(entries)
    decreases entries
  {
    count := 0;
    var j := 0;
    while j < |entries|
      invariant 0 <= j <= |entries|
      invariant count == Count(entries[..j])
    {
      var e := entries[j];
      if e.FunctionEntry? {
        count := count + 1;
        assert e.node < e;
        var nested := CountFunctions(e.node.children);
        count := count + nested;
      }
      CountAppend(entries[..j], e);
      assert entries[..j + 1] == entries[..j] + [e];
      j := j + 1;
    }
    assert entries[..j] == entries;
  }

  /** `_append_structure`: appends the rendering of `entries` to `result`. */
  method AppendStructure(entries: seq<Entry>, result: seq<string>, indent: nat) returns (out: seq<string>)
    ensures out == result + Lines(entries, indent)
    decreases entries, 2
  {
    out := result;
    var j := 0;
    while j < |entries|
      invariant 0 <= j <= |entries|
      invariant out == result + Lines(entries[..j], indent)
    {
      out := AppendEntry(entries[j], out, indent);
      AppendedStep(result, entries, j, indent);
      j := j + 1;
    }
    assert entries[..j] == entries;
  }

  /** One entry of the loop: only function entries add lines. */
  method AppendEntry(e: Entry, result: seq<string>, indent: nat) returns (out: seq<string>)
    ensures out == result + EntryLines(e, indent)
    decreases e, 1
  {
    out := result;
    if e.FunctionEntry? {
      var lines := FunctionLines(e, indent);
      out := out + lines;
    }
  }

  /** The lines `_append_structure` adds for one function entry. */
  method FunctionLines(e: Entry, indent: nat) returns (lines: seq<string>)
    requires e.FunctionEntry?
    ensures lines == EntryLines(e, indent)
    decreases e, 0
  {
    var f := e.node;
    lines := [HeaderLine(indent, f.name), DescriptionLine(indent, f.description)];
    var section := [];
    if f.parameters != [] {
      section := AppendParameters(f.parameters, [ParameterHeading(indent)], indent + 2);
    }
    lines := lines + section;
    section := [];
    if f.returnDescription != "" {
      section := [ReturnLine(indent, f.returnDescription)];
    }
    lines := lines + section;
    section := [];
    if f.logicDescription != "" {
      section := [LogicLine(indent, f.logicDescription)];
    }
    lines := lines + section;
    section := [];
    if f.children != [] {
      section := AppendStructure(f.children, [ChildrenHeading(indent)], indent + 2);
    }
    lines := lines + section;
  }

  /** The parameter loop of `_append_structure`. */
  method AppendParameters(ps: seq<Parameter>, result: seq<string>, indent: nat) returns (out: seq<string>)
    ensures out == result + ParameterLines(ps, indent)
  {
    out := result;
    var q := 0;
    while q < |ps|
      invariant 0 <= q <= |ps|
      invariant out == result + ParameterLines(ps[..q], indent)
    {
      ParameterLinesAppend(ps[..q], ps[q], indent);
      assert ps[..q + 1] == ps[..q] + [ps[q]];
      out := out + [ParameterLine(indent, ps[q])];
      q := q + 1;
    }
    assert ps[..q] == ps;
  }

  lemma {:induction false} ParameterLinesAppend(ps: seq<Parameter>, p: Parameter, k: nat)
    ensures ParameterLines(ps + [p], k) == ParameterLines(ps, k) + [ParameterLine(k, p)]
  {
    if ps != [] {
      assert (ps + [p])[1..] == ps[1..] + [p];
      ParameterLinesAppend(ps[1..], p, k);
    }
  }

  // ---------------------------------------------------------------------
  // The manager

  function Prefixed(prefix: Loc, r: Option<Loc>): Option<Loc>
  {
    match r
    case None => None
    case Some(rest) => Some(prefix + rest)
  }

  lemma PrefixedTwice(a: Loc, b: Loc, r: Option<Loc>)
    ensures Prefixed(a, Prefixed(b, r)) == Prefixed(a + b, r)
  {
    if r.Some? {
      assert a + (b + r.value) == (a + b) + r.value;
    }
  }

  /** The walk shared by `add_function` and `_find_function`. */
  method Locate(entries: seq<Entry>, parts: seq<string>) returns (loc: Option<Loc>)
    requires |parts| >= 1
    ensures loc == Find(entries, parts)
  {
    var current := entries;
    var prefix: Loc := [];
    var i := 0;
    assert parts[0..] == parts;
    assert Find(entries, parts) == Prefixed(prefix, Find(current, parts[i..])) by {
      var r := Find(entries, parts);
      if r.Some? {
        assert [] + r.value == r.value;
      }
    }
    while i < |parts|
      invariant 0 <= i < |parts|
      invariant Find(entries, parts) == Prefixed(prefix, Find(current, parts[i..]))
    {
      var j := 0;
      while j < |current| && !Matches(current[j], parts[i])
        invariant 0 <= j <= |current|
        invariant FirstMatch(current, parts[i], 0) == FirstMatch(current, parts[i], j)
      {
        j := j + 1;
      }
      if j == |current| {
        return None;
      }
      if i == |parts| - 1 {
        return Some(prefix + [j]);
      }
      assert parts[i..][1..] == parts[i + 1..];
      assert Find(current, parts[i..]) == Prefixed([j], Find(current[j].node.children, parts[i + 1..]));
      PrefixedTwice(prefix, [j], Find(current[j].node.children, parts[i + 1..]));
      prefix := prefix + [j];
      current := current[j].node.children;
      i := i + 1;
    }
    assert false;
  }

  class CodeStructureManager {
    var project: Option<Project>

    constructor ()
      ensures project == None
    {
      project := None;
    }

    /** `create_project`: a new empty project replaces the current one. */
    method CreateProject(name: string, description: string) returns (p: Project)
      modifies this
      ensures project == Some(p) && p.name == name && p.description == description && p.entries == []
    {
      p := Project(name, description, []);
      project := Some(p);
    }

    /** `_find_function`: the location of the function the dotted path
        names, or None. It never raises. */
    method FindFunction(functionPath: string) returns (loc: Option<Loc>)
      ensures project.None? ==> loc == None
      ensures project.Some? ==> loc == Find(project.value.entries, Split(functionPath, '.'))
    {
      if project.None? {
        return None;
      }
      loc := Locate(project.value.entries, Split(functionPath, '.'));
    }

    /** `add_function`: no project raises; no parent path appends at the
        top level; otherwise the new function is appended under the function
        the dotted parent path names, and a missing segment raises and
        inserts nothing. */
    method AddFunction(name: string, description: string, parentPath: Option<string>)
      returns (r: Result<FunctionNode>)
      modifies this
      ensures old(project).None? ==> r == Err(NotCreatedError) && project == old(project)
      ensures old(project).Some? && parentPath.None? ==>
        && r == Ok(NewFunction(name, description))
        && project == Some(old(project).value.(entries := old(project).value.entries + [FunctionEntry(r.value)]))
      ensures old(project).Some? && parentPath.Some? ==>
        var loc := Find(old(project).value.entries, Split(parentPath.value, '.'));
        && (loc.None? ==> r == Err("親パス '" + parentPath.value + "' が見つかりません") && project == old(project))
        && (loc.Some? ==>
             && r == Ok(NewFunction(name, description))
             && project == Some(old(project).value.(entries :=
                  UpdateAt(old(project).value.entries, loc.value, AddChildEdit(r.value)))))
      ensures r.Ok? ==> project.Some? && Count(project.value.entries) == Count(old(project).value.entries) + 1
    {
      if project.None? {
        return Err(NotCreatedError);
      }
      var p := project.value;
      var functionDef := NewFunction(name, description);
      if parentPath.None? {
        CountAppend(p.entries, FunctionEntry(functionDef));
        project := Some(p.(entries := p.entries + [FunctionEntry(functionDef)]));
        return Ok(functionDef);
      }
      var loc := Locate(p.entries, Split(parentPath.value, '.'));
      if loc.None? {
        return Err("親パス '" + parentPath.value + "' が見つかりません");
      }
      CountAfterEdit(p.entries, loc.value, AddChildEdit(functionDef));
      project := Some(p.(entries := UpdateAt(p.entries, loc.value, AddChildEdit(functionDef))));
      r := Ok(functionDef);
    }

    /** The common shape of add_parameter, add_return and add_logic: no
        project or no function at the path raises; otherwise the edit is
        applied to that function alone. */
    method EditFunction(functionPath: string, e: Edit) returns (r: Result<FunctionNode>)
      requires !e.AddChildEdit?
      modifies this
      ensures old(project).None? ==> r == Err(NotCreatedError) && project == old(project)
      ensures old(project).Some? ==>
        var loc := Find(old(project).value.entries, Split(functionPath, '.'));
        && (loc.None? ==> r == Err("関数 '" + functionPath + "' が見つかりません") && project == old(project))
        && (loc.Some? ==>
             && r == Ok(ApplyEdit(NodeAt(old(project).value.entries, loc.value), e))
             && project == Some(old(project).value.(entries :=
                  UpdateAt(old(project).value.entries, loc.value, e))))
    {
      if project.None? {
        return Err(NotCreatedError);
      }
      var p := project.value;
      var loc := FindFunction(functionPath);
      if loc.None? {
        return Err("関数 '" + functionPath + "' が見つかりません");
      }
      UpdateAtTarget(p.entries, loc.value, e);
      project := Some(p.(entries := UpdateAt(p.entries, loc.value, e)));
      r := Ok(ApplyEdit(NodeAt(p.entries, loc.value), e));
    }

    /** `add_parameter`: appended after the function's earlier parameters;
        returns the new parameter. */
    method AddParameter(functionPath: string, name: string, description: string) returns (r: Result<Parameter>)
      modifies this
      ensures old(project).None? ==> r == Err(NotCreatedError) && project == old(project)
      ensures old(project).Some? ==>
        var loc := Find(old(project).value.entries, Split(functionPath, '.'));
        && (loc.None? ==> r.Err? && project == old(project))
        && (loc.Some? ==>
             && r == Ok(Parameter(name, description))
             && project == Some(old(project).value.(entries :=
                  UpdateAt(old(project).value.entries, loc.value, AddParameterEdit(r.value)))))
    {
      var parameter := Parameter(name, description);
      var edited := EditFunction(functionPath, AddParameterEdit(parameter));
      r := if edited.Ok? then Ok(parameter) else Err(edited.msg);
    }

    /** `add_return`: overwrites only that function's return description;
        returns the new description. */
    method AddReturn(functionPath: string, description: string) returns (r: Result<string>)
      modifies this
      ensures old(project).None? ==> r == Err(NotCreatedError) && project == old(project)
      ensures old(project).Some? ==>
        var loc := Find(old(project).value.entries, Split(functionPath, '.'));
        && (loc.None? ==> r.Err? && project == old(project))
        && (loc.Some? ==>
             && r == Ok(description)
             && project == Some(old(project).value.(entries :=
                  UpdateAt(old(project).value.entries, loc.value, SetReturnEdit(description)))))
    {
      var edited := EditFunction(functionPath, SetReturnEdit(description));
      r := if edited.Ok? then Ok(edited.value.returnDescription) else Err(edited.msg);
    }

    /** `add_logic`: overwrites only that function's logic description;
        returns the new description. */
    method AddLogic(functionPath: string, description: string) returns (r: Result<string>)
      modifies this
      ensures old(project).None? ==> r == Err(NotCreatedError) && project == old(project)
      ensures old(project).Some? ==>
        var loc := Find(old(project).value.entries, Split(functionPath, '.'));
        && (loc.None? ==> r.Err? && project == old(project))
        && (loc.Some? ==>
             && r == Ok(description)
             && project == Some(old(project).value.(entries :=
                  UpdateAt(old(project).value.entries, loc.value, SetLogicEdit(description)))))
    {
      var edited := EditFunction(functionPath, SetLogicEdit(description));
      r := if edited.Ok? then Ok(edited.value.logicDescription) else Err(edited.msg);
    }

    /** `show_structure`: the fixed text without a project, otherwise the
        name and description lines, then every function. */
    method ShowStructure() returns (s: string)
      ensures project.None? ==> s == NotCreatedText
      ensures project.Some? ==> s == JoinLines(StructureLines(project.value))
    {
      if project.None? {
        return NotCreatedText;
      }
      var p := project.value;
      var result := ["プロジェクト: " + p.name, "説明: " + p.description, "コード構造:"];
      result := AppendStructure(p.entries, result, 1);
      s := JoinLines(result);
    }

    /** `show_summary`: name, description and the number of functions at
        every depth. */
    method ShowSummary() returns (s: string)
      ensures project.None? ==> s == NotCreatedText
      ensures project.Some? ==> s == JoinLines(SummaryLines(project.value))
    {
      if project.None? {
        return NotCreatedText;
      }
      var p := project.value;
      var functionCount := CountFunctions(p.entries);
      s := JoinLines(["プロジェクト要約: " + p.name, "説明: " + p.description, "関数数: " + NatToString(functionCount)]);
    }

    /** `save_yaml`: raises without a project; otherwise the project is what
        is dumped. */
    method SaveYaml() returns (r: Result<Project>)
      ensures project.None? ==> r == Err(NotCreatedError)
      ensures project.Some? ==> r == Ok(project.value)
    {
      if project.None? {
        return Err(NotCreatedError);
      }
      r := Ok(project.value);
    }
  }

  // ---------------------------------------------------------------------
  // The module-level command-line functions: each builds a fresh manager.

  method CliCreateProject(name: string, description: string) returns (p: Project)
    ensures p == Project(name, description, [])
  {
    var manager := new CodeStructureManager();
    p := manager.CreateProject(name, description);
  }

  /** Always raises: the fresh manager has no project. */
  method CliAddFunction(name: string, description: string, parentPath: Option<string>)
    returns (r: Result<FunctionNode>)
    ensures r == Err(NotCreatedError)
  {
    var manager := new CodeStructureManager();
    r := manager.AddFunction(name, description, parentPath);
  }

  method CliAddParameter(functionPath: string, name: string, description: string)
    returns (r: Result<Parameter>)
    ensures r == Err(NotCreatedError)
  {
    var manager := new CodeStructureManager();
    r := manager.AddParameter(functionPath, name, description);
  }

  method CliAddReturn(functionPath: string, description: string) returns (r: Result<string>)
    ensures r == Err(NotCreatedError)
  {
    var manager := new CodeStructureManager();
    r := manager.AddReturn(functionPath, description);
  }

  method CliAddLogic(functionPath: string, description: string) returns (r: Result<string>)
    ensures r == Err(NotCreatedError)
  {
    var manager := new CodeStructureManager();
    r := manager.AddLogic(functionPath, description);
  }

  /** Always the "not created" text. */
  method CliShowStructure() returns (s: string)
    ensures s == NotCreatedText
  {
    var manager := new CodeStructureManager();
    s := manager.ShowStructure();
  }

  method CliShowSummary() returns (s: string)
    ensures s == NotCreatedText
  {
    var manager := new CodeStructureManager();
    s := manager.ShowSummary();
  }

  method CliSaveYaml() returns (r: Result<Project>)
    ensures r == Err(NotCreatedError)
  {
    var manager := new CodeStructureManager();
    r := manager.SaveYaml();
  }
}
