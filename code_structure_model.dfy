/** The class-based code-structure model of src/core/code_structure_manager.py.

    Parameter, return, logic, function and project definitions are values
    here; their dict form (`to_dict`/`from_dict`) is a `Value`. Functions are
    addressed by slash-separated paths through `ProjectStructure.find_function`,
    and the manager edits the function a path resolves to. A resolved
    function is identified by its index path (`Loc`) from the top level. */
module CodeStructureModel {
  import opened Common
  import opened Values

  datatype ParameterDefinition = ParameterDefinition(name: string, description: string)

  datatype ReturnDefinition = ReturnDefinition(description: string)

  datatype LogicDefinition = LogicDefinition(description: string)

  /** `returnDef` and `logicDef` are None until set_return / set_logic. */
  datatype FunctionDefinition = FunctionDefinition(
    name: string,
    description: string,
    parameters: seq<ParameterDefinition>,
    returnDef: Option<ReturnDefinition>,
    logicDef: Option<LogicDefinition>,
    children: seq<FunctionDefinition>)

  datatype ProjectStructure = ProjectStructure(
    name: string,
    description: string,
    functions: seq<FunctionDefinition>)

  type Loc = seq<nat>

  const NoProjectError: string := "プロジェクトが作成されていません。create_project()を先に呼び出してください。"

  /** `FunctionDefinition(name, description)`. */
  function NewFunction(name: string, description: string): (f: FunctionDefinition)
    ensures f.name == name && f.description == description
    ensures f.parameters == [] && f.returnDef == None && f.logicDef == None && f.children == []
  {
    FunctionDefinition(name, description, [], None, None, [])
  }

  // ---------------------------------------------------------------------
  // Dict form

  /** `data.get(key, "")` where the stored value must be a string. */
  function GetString(m: map<string, Value>, key: string): Result<string>
  {
    if key !in m then Ok("")
    else if m[key].VStr? then Ok(m[key].s)
    else Err("'" + key + "' is not a string")
  }

  /** A key `data.get(key, "")` reads as a string: absent, or a string. */
  predicate StringOrAbsent(m: map<string, Value>, key: string)
  {
    key !in m || m[key].VStr?
  }

  /** `ParameterDefinition.to_dict`: exactly the name and the description. */
  function ParameterToDict(p: ParameterDefinition): (r: Value)
    ensures r.VDict? && r.entries.Keys == {"name", "description"}
  {
    VDict(map["name" := VStr(p.name), "description" := VStr(p.description)])
  }

  /** `ParameterDefinition.from_dict`: a mapping whose name and description
      are strings or missing; a missing one reads as "". */
  function ParameterFromDict(v: Value): (r: Result<ParameterDefinition>)
    ensures r.Ok? <==> v.VDict? && StringOrAbsent(v.entries, "name") && StringOrAbsent(v.entries, "description")
    ensures r.Ok? && "name" !in v.entries ==> r.value.name == ""
    ensures r.Ok? && "description" !in v.entries ==> r.value.description == ""
  {
    if !v.VDict? then Err("parameter record is not a dict")
    else match GetString(v.entries, "name")
      case Err(e) => Err(e)
      case Ok(name) =>
        match GetString(v.entries, "description")
        case Err(e) => Err(e)
        case Ok(description) => Ok(ParameterDefinition(name, description))
  }

  /** A one-key `{"description": ...}` record, the dict form of a return or
      logic definition. */
  function DescriptionToDict(description: string): Value
  {
    VDict(map["description" := VStr(description)])
  }

  function DescriptionFromDict(v: Value): Result<string>
  {
    if !v.VDict? then Err("description record is not a dict") else GetString(v.entries, "description")
  }

  function ReturnToDict(r: ReturnDefinition): Value
  {
    DescriptionToDict(r.description)
  }

  function ReturnFromDict(v: Value): Result<ReturnDefinition>
  {
    match DescriptionFromDict(v)
    case Err(e) => Err(e)
    case Ok(d) => Ok(ReturnDefinition(d))
  }

  function LogicToDict(l: LogicDefinition): Value
  {
    DescriptionToDict(l.description)
  }

  function LogicFromDict(v: Value): Result<LogicDefinition>
  {
    match DescriptionFromDict(v)
    case Err(e) => Err(e)
    case Ok(d) => Ok(LogicDefinition(d))
  }

  /** Missing keys read as "": an empty record gives empty definitions. */
  lemma EmptyRecordDefaults()
    ensures ParameterFromDict(VDict(map[])) == Ok(ParameterDefinition("", ""))
    ensures ReturnFromDict(VDict(map[])) == Ok(ReturnDefinition(""))
    ensures LogicFromDict(VDict(map[])) == Ok(LogicDefinition(""))
  {
  }

  /** The small definitions read back exactly what they wrote. */
  lemma DefinitionRoundTrips(p: ParameterDefinition, r: ReturnDefinition, l: LogicDefinition)
    ensures ParameterFromDict(ParameterToDict(p)) == Ok(p)
    ensures ReturnFromDict(ReturnToDict(r)) == Ok(r)
    ensures LogicFromDict(LogicToDict(l)) == Ok(l)
  {
    var pm := ParameterToDict(p).entries;
    assert pm["name"] == VStr(p.name) && pm["description"] == VStr(p.description);
    assert DescriptionToDict(r.description).entries["description"] == VStr(r.description);
    assert DescriptionToDict(l.description).entries["description"] == VStr(l.description);
  }

  function ParametersToList(ps: seq<ParameterDefinition>): (vs: seq<Value>)
    ensures |vs| == |ps|
  {
    if ps == [] then [] else [ParameterToDict(ps[0])] + ParametersToList(ps[1..])
  }

  /** `for param_data in data.get("parameters", [])`. */
  function ParametersFromList(vs: seq<Value>): Result<seq<ParameterDefinition>>
  {
    if vs == [] then Ok([])
    else match ParameterFromDict(vs[0])
      case Err(e) => Err(e)
      case Ok(p) =>
        match ParametersFromList(vs[1..])
        case Err(e) => Err(e)
        case Ok(ps) => Ok([p] + ps)
  }

  lemma {:induction false} ParametersRoundTrip(ps: seq<ParameterDefinition>)
    ensures ParametersFromList(ParametersToList(ps)) == Ok(ps)
  {
    if ps != [] {
      DefinitionRoundTrips(ps[0], ReturnDefinition(""), LogicDefinition(""));
      ParametersRoundTrip(ps[1..]);
      assert ParametersToList(ps)[1..] == ParametersToList(ps[1..]);
      assert [ps[0]] + ps[1..] == ps;
    }
  }

  /** `FunctionDefinition.to_dict`: name and description always; the
      parameters, returns, logic and code_structure keys only when present
      and non-empty, children wrapped as `{"function": ...}`. */
  function FunctionToDict(f: FunctionDefinition): (r: Value)
    ensures r.VDict? && "name" in r.entries && "description" in r.entries
    ensures "parameters" in r.entries <==> f.parameters != []
    ensures "returns" in r.entries <==> f.returnDef.Some?
    ensures "logic" in r.entries <==> f.logicDef.Some?
    ensures "code_structure" in r.entries <==> f.children != []
    ensures r.entries.Keys <= {"name", "description", "parameters", "returns", "logic", "code_structure"}
    decreases f, 1
  {
    var base := map["name" := VStr(f.name), "description" := VStr(f.description)];
    var m1 := if f.parameters != [] then base["parameters" := VList(ParametersToList(f.parameters))] else base;
    var m2 := if f.returnDef.Some? then m1["returns" := ReturnToDict(f.returnDef.value)] else m1;
    var m3 := if f.logicDef.Some? then m2["logic" := LogicToDict(f.logicDef.value)] else m2;
    VDict(if f.children != [] then m3["code_structure" := VList(FunctionsToList(f.children))] else m3)
  }

  /** `[{"function": f.to_dict()} for f in functions]`. */
  function FunctionsToList(fs: seq<FunctionDefinition>): (vs: seq<Value>)
    ensures |vs| == |fs|
    decreases fs, 0
  {
    if fs == [] then [] else [VDict(map["function" := FunctionToDict(fs[0])])] + FunctionsToList(fs[1..])
  }

  /** The fields of `from_dict` other than the nested functions. */
  datatype FunctionHeader = FunctionHeader(
    name: string,
    description: string,
    parameters: seq<ParameterDefinition>,
    returnDef: Option<ReturnDefinition>,
    logicDef: Option<LogicDefinition>)

  function DecodeFunctionHeader(m: map<string, Value>): Result<FunctionHeader>
  {
    match GetString(m, "name")
    case Err(e) => Err(e)
    case Ok(name) =>
      match GetString(m, "description")
      case Err(e) => Err(e)
      case Ok(description) =>
        var params := if "parameters" !in m || EmptyStringOrDict(m["parameters"]) then Ok([])
          else if m["parameters"].VList? then ParametersFromList(m["parameters"].items)
          else Err("parameters are strings, or not iterable");
        match params
        case Err(e) => Err(e)
        case Ok(ps) =>
          var returnResult := if "returns" !in m then Ok(None)
            else match ReturnFromDict(m["returns"]) case Err(e) => Err(e) case Ok(r) => Ok(Some(r));
          match returnResult
          case Err(e) => Err(e)
          case Ok(r) =>
            var logic := if "logic" !in m then Ok(None)
              else match LogicFromDict(m["logic"]) case Err(e) => Err(e) case Ok(l) => Ok(Some(l));
            match logic
            case Err(e) => Err(e)
            case Ok(l) => Ok(FunctionHeader(name, description, ps, r, l))
  }

  /** `FunctionDefinition.from_dict`: Err where Python raises or where a
      field does not have the type the definition holds. */
  function FunctionFromDict(v: Value): (r: Result<FunctionDefinition>)
    ensures r.Ok? ==> v.VDict? && StringOrAbsent(v.entries, "name") && StringOrAbsent(v.entries, "description")
    ensures r.Ok? && "parameters" !in v.entries ==> r.value.parameters == []
    ensures r.Ok? && "parameters" in v.entries && !v.entries["parameters"].VList? ==> r.value.parameters == []
    ensures r.Ok? && "returns" !in v.entries ==> r.value.returnDef == None
    ensures r.Ok? && "logic" !in v.entries ==> r.value.logicDef == None
    ensures r.Ok? && "code_structure" !in v.entries ==> r.value.children == []
    ensures r.Ok? && "code_structure" in v.entries && !v.entries["code_structure"].VList? ==> r.value.children == []
    decreases v, 1
  {
    if !v.VDict? then Err("function record is not a dict")
    else
      var m := v.entries;
      match DecodeFunctionHeader(m)
      case Err(e) => Err(e)
      case Ok(h) =>
        var nested := if "code_structure" !in m then Ok([]) else NestedFunctions(m["code_structure"]);
        match nested
        case Err(e) => Err(e)
        case Ok(children) =>
          Ok(FunctionDefinition(h.name, h.description, h.parameters, h.returnDef, h.logicDef, children))
  }

  /** An item that `"function" in item` rejects without raising: a dict
      without the key, a string in which "function" does not occur, or a
      list that does not hold the string "function". A string or list that
      passes the test cannot then be indexed by `item["function"]`, and the
      test itself raises on anything else. */
  predicate SkippedItem(item: Value)
  {
    match item
    case VDict(m) => "function" !in m
    case VStr(s) => forall i: nat :: i <= |s| ==> !OccursAt(s, "function", i)
    case VList(xs) => VStr("function") !in xs
    case _ => false
  }

  /** `for item in data.get("code_structure", [])`: a list's items are read
      by FunctionsFromList; a string hands the loop one-character strings,
      which are all skipped; a dict hands it its keys, skipped unless one of
      them holds "function"; any other value is not iterable. */
  function NestedFunctions(cs: Value): (r: Result<seq<FunctionDefinition>>)
    ensures !cs.VList? && r.Ok? ==> r.value == []
    decreases cs, 2
  {
    match cs
    case VList(items) => FunctionsFromList(items)
    case VStr(_) => Ok([])
    case VDict(m) =>
      if forall k :: k in m ==> SkippedItem(VStr(k)) then Ok([])
      else Err("a code_structure key holds \"function\" but is not a dict")
    case _ => Err("code_structure is not iterable")
  }

  /** The loop body `if "function" in item:` over a list's items: an item
      with a "function" key is read, a skipped item adds nothing, any other
      item raises. */
  function FunctionsFromList(items: seq<Value>): Result<seq<FunctionDefinition>>
    decreases items, 0
  {
    if items == [] then Ok([])
    else if items[0].VDict? && "function" in items[0].entries then
      match FunctionFromDict(items[0].entries["function"])
      case Err(e) => Err(e)
      case Ok(f) =>
        match FunctionsFromList(items[1..])
        case Err(e) => Err(e)
        case Ok(rest) => Ok([f] + rest)
    else if SkippedItem(items[0]) then FunctionsFromList(items[1..])
    else Err("code_structure item cannot be tested or indexed")
  }

  lemma FunctionHeaderRoundTrip(f: FunctionDefinition)
    ensures DecodeFunctionHeader(FunctionToDict(f).entries)
      == Ok(FunctionHeader(f.name, f.description, f.parameters, f.returnDef, f.logicDef))
  {
    var m := FunctionToDict(f).entries;
    assert m["name"] == VStr(f.name) && m["description"] == VStr(f.description);
    assert "parameters" in m <==> f.parameters != [];
    assert "returns" in m <==> f.returnDef.Some?;
    assert "logic" in m <==> f.logicDef.Some?;
    if f.parameters != [] {
      assert m["parameters"] == VList(ParametersToList(f.parameters));
    }
    if f.returnDef.Some? {
      assert m["returns"] == ReturnToDict(f.returnDef.value);
    }
    if f.logicDef.Some? {
      assert m["logic"] == LogicToDict(f.logicDef.value);
    }
    DecodeFunctionHeaderOf(m, f);
  }

  /** A record holding a function's fields as to_dict writes them decodes to
      those fields. */
  lemma DecodeFunctionHeaderOf(m: map<string, Value>, f: FunctionDefinition)
    requires "name" in m && m["name"] == VStr(f.name)
    requires "description" in m && m["description"] == VStr(f.description)
    requires ("parameters" in m <==> f.parameters != [])
      && (f.parameters != [] ==> m["parameters"] == VList(ParametersToList(f.parameters)))
    requires ("returns" in m <==> f.returnDef.Some?)
      && (f.returnDef.Some? ==> m["returns"] == ReturnToDict(f.returnDef.value))
    requires ("logic" in m <==> f.logicDef.Some?)
      && (f.logicDef.Some? ==> m["logic"] == LogicToDict(f.logicDef.value))
    ensures DecodeFunctionHeader(m)
      == Ok(FunctionHeader(f.name, f.description, f.parameters, f.returnDef, f.logicDef))
  {
    ParametersRoundTrip(f.parameters);
    if f.returnDef.Some? {
      DefinitionRoundTrips(ParameterDefinition("", ""), f.returnDef.value, LogicDefinition(""));
    }
    if f.logicDef.Some? {
      DefinitionRoundTrips(ParameterDefinition("", ""), ReturnDefinition(""), f.logicDef.value);
    }
  }

  /** `FunctionDefinition.from_dict(f.to_dict())` rebuilds the function:
      every field, parameters and nested functions in the same order. */
  lemma {:induction false} FunctionRoundTrip(f: FunctionDefinition)
    ensures FunctionFromDict(FunctionToDict(f)) == Ok(f)
    decreases f, 1
  {
    FunctionHeaderRoundTrip(f);
    var m := FunctionToDict(f).entries;
    assert "code_structure" in m <==> f.children != [];
    if f.children != [] {
      assert m["code_structure"] == VList(FunctionsToList(f.children));
    }
    FunctionsRoundTrip(f.children);
  }

  lemma {:induction false} FunctionsRoundTrip(fs: seq<FunctionDefinition>)
    ensures FunctionsFromList(FunctionsToList(fs)) == Ok(fs)
    decreases fs, 0
  {
    if fs != [] {
      var item := VDict(map["function" := FunctionToDict(fs[0])]);
      assert FunctionsToList(fs)[0] == item;
      assert FunctionsToList(fs)[1..] == FunctionsToList(fs[1..]);
      FunctionRoundTrip(fs[0]);
      FunctionsRoundTrip(fs[1..]);
      assert [fs[0]] + fs[1..] == fs;
    }
  }

  /** The items the loop does not skip: dicts carrying a function, and the
      items that raise, kept so that their error is kept. */
  function FunctionItems(items: seq<Value>): seq<Value>
  {
    if items == [] then []
    else if SkippedItem(items[0]) then FunctionItems(items[1..])
    else [items[0]] + FunctionItems(items[1..])
  }

  /** Reading skips the items `"function" in item` rejects (dicts without
      the key, and strings and lists without "function"): the result is that of
      the list with those items removed, one function per remaining item. */
  lemma {:induction false} SkipsItemsWithoutFunction(items: seq<Value>)
    ensures FunctionsFromList(items) == FunctionsFromList(FunctionItems(items))
    ensures FunctionsFromList(items).Ok? ==> |FunctionsFromList(items).value| == |FunctionItems(items)|
  {
    if items != [] {
      SkipsItemsWithoutFunction(items[1..]);
      var rest := FunctionItems(items[1..]);
      if !SkippedItem(items[0]) {
        assert FunctionItems(items) == [items[0]] + rest;
        assert ([items[0]] + rest)[1..] == rest;
      }
    }
  }

  /** A string under "code_structure", or a dict none of whose keys holds
      "function", reads as no "code_structure" key at all: the loop skips
      every item it is handed. */
  lemma SkippedStructureAsAbsent(m: map<string, Value>, cs: Value)
    requires cs.VStr? || (cs.VDict? && forall k :: k in cs.entries ==> SkippedItem(VStr(k)))
    ensures FunctionFromDict(VDict(m["code_structure" := cs])) == FunctionFromDict(VDict(m - {"code_structure"}))
  {
    var with, without := m["code_structure" := cs], m - {"code_structure"};
    HeaderIgnoresStructure(with, without);
  }

  /** The header is read from the keys other than "code_structure". */
  lemma HeaderIgnoresStructure(a: map<string, Value>, b: map<string, Value>)
    requires forall k :: k != "code_structure" ==> (k in a <==> k in b)
    requires forall k :: k != "code_structure" && k in a ==> a[k] == b[k]
    ensures DecodeFunctionHeader(a) == DecodeFunctionHeader(b)
  {
    assert GetString(a, "name") == GetString(b, "name");
    assert GetString(a, "description") == GetString(b, "description");
  }

  /** A string item is skipped unless "function" occurs in it, and then
      indexing it by "function" raises. */
  lemma StringItems()
    ensures FunctionsFromList([VStr("helper")]) == Ok([])
    ensures FunctionsFromList([VStr("my_function")]).Err?
  {
    assert OccursAt("my_function", "function", 3);
  }

  /** `ProjectStructure.to_dict`. */
  function ProjectToDict(p: ProjectStructure): (r: Value)
    ensures r.VDict? && r.entries.Keys == {"name", "description", "code_structure"}
    ensures r.entries["code_structure"].VList? && |r.entries["code_structure"].items| == |p.functions|
  {
    VDict(map["name" := VStr(p.name), "description" := VStr(p.description),
               "code_structure" := VList(FunctionsToList(p.functions))])
  }

  /** `ProjectStructure.from_dict`. */
  function ProjectFromDict(v: Value): (r: Result<ProjectStructure>)
    ensures r.Ok? ==> v.VDict? && StringOrAbsent(v.entries, "name") && StringOrAbsent(v.entries, "description")
    ensures r.Ok? && "name" !in v.entries ==> r.value.name == ""
    ensures r.Ok? && "code_structure" !in v.entries ==> r.value.functions == []
    ensures r.Ok? && "code_structure" in v.entries && !v.entries["code_structure"].VList? ==> r.value.functions == []
  {
    if !v.VDict? then Err("project record is not a dict")
    else
      var m := v.entries;
      match GetString(m, "name")
      case Err(e) => Err(e)
      case Ok(name) =>
        match GetString(m, "description")
        case Err(e) => Err(e)
        case Ok(description) =>
          var nested := if "code_structure" !in m then Ok([]) else NestedFunctions(m["code_structure"]);
          match nested
          case Err(e) => Err(e)
          case Ok(fs) => Ok(ProjectStructure(name, description, fs))
  }

  /** `ProjectStructure.from_dict(p.to_dict())` gives back name,
      description and the ordered functions. */
  lemma ProjectRoundTrip(p: ProjectStructure)
    ensures ProjectFromDict(ProjectToDict(p)) == Ok(p)
  {
    var m := ProjectToDict(p).entries;
    assert m["name"] == VStr(p.name) && m["description"] == VStr(p.description);
    assert m["code_structure"] == VList(FunctionsToList(p.functions));
    FunctionsRoundTrip(p.functions);
  }

  // ---------------------------------------------------------------------
  // Path lookup

  /** The index of the first function named `name` at or after `from`. */
  function FirstNamed(fs: seq<FunctionDefinition>, name: string, from: nat): (r: Option<nat>)
    requires from <= |fs|
    ensures r.Some? ==> (from <= r.value < |fs| && fs[r.value].name == name
      && forall k :: from <= k < r.value ==> fs[k].name != name)
    ensures r.None? ==> forall k :: from <= k < |fs| ==> fs[k].name != name
    decreases |fs| - from
  {
    if from == |fs| then None
    else if fs[from].name == name then Some(from)
    else FirstNamed(fs, name, from + 1)
  }

  predicate ValidLoc(fs: seq<FunctionDefinition>, loc: Loc)
    decreases |loc|
  {
    |loc| >= 1 && loc[0] < |fs| && (|loc| > 1 ==> ValidLoc(fs[loc[0]].children, loc[1..]))
  }

  function At(fs: seq<FunctionDefinition>, loc: Loc): FunctionDefinition
    requires ValidLoc(fs, loc)
    decreases |loc|
  {
    if |loc| == 1 then fs[loc[0]] else At(fs[loc[0]].children, loc[1..])
  }

  /** A first-match walk: each segment selects the first function of that
      name among the children of the previous match. */
  function Walk(fs: seq<FunctionDefinition>, parts: seq<string>): (r: Option<Loc>)
    requires |parts| >= 1
    ensures r.Some? ==> (ValidLoc(fs, r.value) && |r.value| == |parts|
      && At(fs, r.value).name == parts[|parts| - 1])
    decreases |parts|
  {
    match FirstNamed(fs, parts[0], 0)
    case None => None
    case Some(i) =>
      if |parts| == 1 then Some([i])
      else match Walk(fs[i].children, parts[1..])
        case None => None
        case Some(rest) => Some([i] + rest)
  }

  /** `find_function` as written: the first segment must name a top-level
      function; the walk over the remaining segments then starts again at the
      top level. The empty path resolves to nothing; a resolved location ends
      at a function named like the last segment. */
  function FindPath(fs: seq<FunctionDefinition>, path: string): (r: Option<Loc>)
    ensures path == "" ==> r == None
    ensures r.Some? ==> ValidLoc(fs, r.value) && At(fs, r.value).name == Split(path, '/')[|Split(path, '/')| - 1]
  {
    if path == "" then None
    else
      var parts := Split(path, '/');
      match FirstNamed(fs, parts[0], 0)
      case None => None
      case Some(i) => if |parts| == 1 then Some([i]) else Walk(fs, parts[1..])
  }

  /** A path without '/' resolves to the first top-level function of that
      name. */
  lemma FindPathResolves(fs: seq<FunctionDefinition>, path: string)
    ensures path != "" && '/' !in path ==> FindPath(fs, path) == SingleLoc(FirstNamed(fs, path, 0))
  {
    if path != "" && '/' !in path {
      SplitNoSeparator(path, '/');
    }
  }

  /** A path with several segments: the first segment only has to name some
      top-level function; the walk of the remaining segments then starts
      again at the top level. */
  lemma FindPathSkipsFirstSegment(fs: seq<FunctionDefinition>, first: string, rest: string)
    requires '/' !in first
    ensures FindPath(fs, first + "/" + rest)
      == (if FirstNamed(fs, first, 0).None? then None else Walk(fs, Split(rest, '/')))
  {
    var path := first + "/" + rest;
    assert path == first + ['/'] + rest;
    SplitAtFirst(first, rest, '/');
    var parts := Split(path, '/');
    assert parts[0] == first && |parts| > 1;
    assert parts[1..] == Split(rest, '/');
  }

  /** Two segments without '/' joined by one. */
  lemma SplitTwo(a: string, b: string)
    requires '/' !in a && '/' !in b
    ensures Split(a + ['/'] + b, '/') == [a, b]
  {
    SplitNoSeparator(b, '/');
    SplitAtFirst(a, b, '/');
  }

  /** The quirk: with a top-level "main" whose only child is "sub",
      "main/sub" does not resolve, while "main/main" resolves to "main"
      itself. */
  lemma SecondSegmentSearchesTopLevel()
    ensures var sub := NewFunction("sub", "");
      var main := NewFunction("main", "").(children := [sub]);
      && FindPath([main], "main/sub") == None
      && FindPath([main], "main/main") == Some([0])
  {
    var sub := NewFunction("sub", "");
    var main := NewFunction("main", "").(children := [sub]);
    assert "main/sub" == "main" + ['/'] + "sub";
    assert "main/main" == "main" + ['/'] + "main";
    SplitTwo("main", "sub");
    SplitTwo("main", "main");
    assert FirstNamed([main], "main", 0) == Some(0);
    assert FirstNamed([main], "sub", 0) == None by {
      assert FirstNamed([main], "sub", 1) == None;
    }
    assert Walk([main], ["sub"]) == None;
    assert Walk([main], ["main"]) == Some([0]);
  }

  function SingleLoc(r: Option<nat>): Option<Loc>
  {
    match r
    case None => None
    case Some(i) => Some([i])
  }

  /** The first loop of `find_function`. */
  method FirstMatchLoop(fs: seq<FunctionDefinition>, name: string) returns (r: Option<nat>)
    ensures r == FirstNamed(fs, name, 0)
  {
    var j := 0;
    while j < |fs|
      invariant 0 <= j <= |fs|
      invariant FirstNamed(fs, name, 0) == FirstNamed(fs, name, j)
    {
      if fs[j].name == name {
        return Some(j);
      }
      j := j + 1;
    }
    r := None;
  }

  /** `ProjectStructure.find_function`: the location of the function the
      path resolves to, or None. */
  method FindFunction(p: ProjectStructure, path: string) returns (loc: Option<Loc>)
    ensures loc == FindPath(p.functions, path)
  {
    if path == "" {
      return None;
    }
    var parts := Split(path, '/');
    var first := FirstMatchLoop(p.functions, parts[0]);
    if first.None? || |parts| == 1 {
      return SingleLoc(first);
    }
    var currentLevel := p.functions;
    var prefix: Loc := [];
    var k := 1;
    assert parts[1..][0..] == parts[1..];
    assert Walk(p.functions, parts[1..]) == PrefixedLoc(prefix, Walk(currentLevel, parts[1..])) by {
      var w := Walk(p.functions, parts[1..]);
      if w.Some? {
        assert [] + w.value == w.value;
      }
    }
    while k < |parts|
      invariant 1 <= k < |parts|
      invariant Walk(p.functions, parts[1..]) == PrefixedLoc(prefix, Walk(currentLevel, parts[k..]))
    {
      var found := FirstMatchLoop(currentLevel, parts[k]);
      if found.None? {
        return None;
      }
      if k == |parts| - 1 {
        return Some(prefix + [found.value]);
      }
      assert parts[k..][1..] == parts[k + 1..];
      PrefixedLocTwice(prefix, [found.value], Walk(currentLevel[found.value].children, parts[k + 1..]));
      prefix := prefix + [found.value];
      currentLevel := currentLevel[found.value].children;
      k := k + 1;
    }
    assert false;
  }

  function PrefixedLoc(prefix: Loc, r: Option<Loc>): Option<Loc>
  {
    match r
    case None => None
    case Some(rest) => Some(prefix + rest)
  }

  lemma PrefixedLocTwice(a: Loc, b: Loc, r: Option<Loc>)
    ensures PrefixedLoc(a, PrefixedLoc(b, r)) == PrefixedLoc(a + b, r)
  {
    if r.Some? {
      assert a + (b + r.value) == (a + b) + r.value;
    }
  }

  // ---------------------------------------------------------------------
  // Edits

  datatype Edit =
    | AddParameterEdit(parameter: ParameterDefinition)
    | SetReturnEdit(returnDef: ReturnDefinition)
    | SetLogicEdit(logicDef: LogicDefinition)
    | AddFunctionEdit(child: FunctionDefinition)

  /** `add_parameter` and `add_function` append, `set_return` and
      `set_logic` replace any earlier definition; name and description never
      change. */
  function ApplyEdit(f: FunctionDefinition, e: Edit): (g: FunctionDefinition)
    ensures g.name == f.name && g.description == f.description
    ensures g.parameters == (if e.AddParameterEdit? then f.parameters + [e.parameter] else f.parameters)
    ensures g.returnDef == (if e.SetReturnEdit? then Some(e.returnDef) else f.returnDef)
    ensures g.logicDef == (if e.SetLogicEdit? then Some(e.logicDef) else f.logicDef)
    ensures g.children == (if e.AddFunctionEdit? then f.children + [e.child] else f.children)
  {
    match e
    case AddParameterEdit(p) => f.(parameters := f.parameters + [p])
    case SetReturnEdit(r) => f.(returnDef := Some(r))
    case SetLogicEdit(l) => f.(logicDef := Some(l))
    case AddFunctionEdit(c) => f.(children := f.children + [c])
  }

  /** The project's functions after editing the one at `loc` in place. */
  function UpdateAt(fs: seq<FunctionDefinition>, loc: Loc, e: Edit): (r: seq<FunctionDefinition>)
    requires ValidLoc(fs, loc)
    ensures |r| == |fs|
    ensures forall i :: 0 <= i < |fs| && i != loc[0] ==> r[i] == fs[i]
    decreases |loc|
  {
    var f := fs[loc[0]];
    fs[loc[0] := if |loc| == 1 then ApplyEdit(f, e) else f.(children := UpdateAt(f.children, loc[1..], e))]
  }

  predicate IsPrefix(a: Loc, b: Loc)
  {
    |a| <= |b| && b[..|a|] == a
  }

  /** The edited function is where it was, with the edit applied. */
  lemma {:induction false} UpdateAtTarget(fs: seq<FunctionDefinition>, loc: Loc, e: Edit)
    requires ValidLoc(fs, loc)
    ensures ValidLoc(UpdateAt(fs, loc, e), loc)
    ensures At(UpdateAt(fs, loc, e), loc) == ApplyEdit(At(fs, loc), e)
    decreases |loc|
  {
    if |loc| > 1 {
      UpdateAtTarget(fs[loc[0]].children, loc[1..], e);
    }
  }

  /** Only the resolved function changes: any function that neither is it
      nor encloses it is untouched and still at its location. */
  lemma {:induction false} UpdateAtElsewhere(fs: seq<FunctionDefinition>, loc: Loc, e: Edit, other: Loc)
    requires ValidLoc(fs, loc) && ValidLoc(fs, other) && !IsPrefix(other, loc)
    ensures ValidLoc(UpdateAt(fs, loc, e), other)
    ensures At(UpdateAt(fs, loc, e), other) == At(fs, other)
    decreases |loc|
  {
    if other[0] != loc[0] {
    } else if |loc| == 1 {
      assert |other| > 1;
      var f := fs[loc[0]];
      ChildrenPrefixKeepsFunction(f.children, ApplyEdit(f, e).children, other[1..]);
    } else {
      assert |other| > 1;
      assert !IsPrefix(other[1..], loc[1..]);
      UpdateAtElsewhere(fs[loc[0]].children, loc[1..], e, other[1..]);
    }
  }

  lemma ChildrenPrefixKeepsFunction(before: seq<FunctionDefinition>, after: seq<FunctionDefinition>, loc: Loc)
    requires ValidLoc(before, loc) && |before| <= |after| && after[..|before|] == before
    ensures ValidLoc(after, loc) && At(after, loc) == At(before, loc)
  {
    assert after[loc[0]] == before[loc[0]];
  }

  // ---------------------------------------------------------------------
  // The manager

  class CodeStructureManager {
    var currentProject: Option<ProjectStructure>

    constructor ()
      ensures currentProject == None
    {
      currentProject := None;
    }

    /** `create_project`: a new empty project replaces the current one. */
    method CreateProject(name: string, description: string) returns (p: ProjectStructure)
      modifies this
      ensures p == ProjectStructure(name, description, [])
      ensures currentProject == Some(p)
    {
      p := ProjectStructure(name, description, []);
      currentProject := Some(p);
    }

    /** `add_function`: no project raises; an absent or empty parent path
        appends at the top level; otherwise the new function is appended to
        the children of the function the path resolves to, and an unresolved
        path raises without changing anything. */
    method AddFunction(name: string, description: string, parentPath: Option<string>)
      returns (r: Result<FunctionDefinition>)
      modifies this
      ensures old(currentProject).None? ==> r == Err(NoProjectError) && currentProject == old(currentProject)
      ensures old(currentProject).Some? && (parentPath.None? || parentPath.value == "") ==>
        && r == Ok(NewFunction(name, description))
        && currentProject == Some(old(currentProject).value.(functions :=
             old(currentProject).value.functions + [r.value]))
      ensures old(currentProject).Some? && parentPath.Some? && parentPath.value != "" ==>
        var loc := FindPath(old(currentProject).value.functions, parentPath.value);
        && (loc.None? ==> (r == Err("親関数 '" + parentPath.value + "' が見つかりません。")
              && currentProject == old(currentProject)))
        && (loc.Some? ==>
              && r == Ok(NewFunction(name, description))
              && ValidLoc(old(currentProject).value.functions, loc.value)
              && currentProject == Some(old(currentProject).value.(functions :=
                   UpdateAt(old(currentProject).value.functions, loc.value, AddFunctionEdit(r.value)))))
    {
      if currentProject.None? {
        return Err(NoProjectError);
      }
      var p := currentProject.value;
      var func := NewFunction(name, description);
      if parentPath.Some? && parentPath.value != "" {
        var loc := FindFunction(p, parentPath.value);
        if loc.None? {
          return Err("親関数 '" + parentPath.value + "' が見つかりません。");
        }
        FindPathResolves(p.functions, parentPath.value);
        currentProject := Some(p.(functions := UpdateAt(p.functions, loc.value, AddFunctionEdit(func))));
        return Ok(func);
      }
      currentProject := Some(p.(functions := p.functions + [func]));
      r := Ok(func);
    }

    /** The shared shape of add_parameter, add_return and add_logic: no
        project or an unresolved path raises; otherwise the edit is applied
        to the resolved function alone. */
    method EditFunction(functionPath: string, e: Edit) returns (r: Result<FunctionDefinition>)
      requires !e.AddFunctionEdit?
      modifies this
      ensures old(currentProject).None? ==> r == Err(NoProjectError) && currentProject == old(currentProject)
      ensures old(currentProject).Some? ==>
        var loc := FindPath(old(currentProject).value.functions, functionPath);
        && (loc.None? ==> (r == Err("関数 '" + functionPath + "' が見つかりません。")
              && currentProject == old(currentProject)))
        && (loc.Some? ==>
              && ValidLoc(old(currentProject).value.functions, loc.value)
              && r == Ok(ApplyEdit(At(old(currentProject).value.functions, loc.value), e))
              && currentProject == Some(old(currentProject).value.(functions :=
                   UpdateAt(old(currentProject).value.functions, loc.value, e))))
    {
      if currentProject.None? {
        return Err(NoProjectError);
      }
      var p := currentProject.value;
      var loc := FindFunction(p, functionPath);
      if loc.None? {
        return Err("関数 '" + functionPath + "' が見つかりません。");
      }
      FindPathResolves(p.functions, functionPath);
      currentProject := Some(p.(functions := UpdateAt(p.functions, loc.value, e)));
      r := Ok(ApplyEdit(At(p.functions, loc.value), e));
    }

    /** `add_parameter`: appended to the resolved function's parameters. */
    method AddParameter(functionPath: string, name: string, description: string)
      returns (r: Result<ParameterDefinition>)
      modifies this
      ensures old(currentProject).None? ==> r == Err(NoProjectError) && currentProject == old(currentProject)
      ensures old(currentProject).Some? ==>
        var loc := FindPath(old(currentProject).value.functions, functionPath);
        && (loc.None? ==> r.Err? && currentProject == old(currentProject))
        && (loc.Some? ==>
              && ValidLoc(old(currentProject).value.functions, loc.value)
              && r == Ok(ParameterDefinition(name, description))
              && currentProject == Some(old(currentProject).value.(functions :=
                   UpdateAt(old(currentProject).value.functions, loc.value, AddParameterEdit(r.value)))))
    {
      var param := ParameterDefinition(name, description);
      var edited := EditFunction(functionPath, AddParameterEdit(param));
      r := if edited.Ok? then Ok(edited.value.parameters[|edited.value.parameters| - 1]) else Err(edited.msg);
    }

    /** `add_return`: the resolved function's return definition is replaced. */
    method AddReturn(functionPath: string, description: string) returns (r: Result<ReturnDefinition>)
      modifies this
      ensures old(currentProject).None? ==> r == Err(NoProjectError) && currentProject == old(currentProject)
      ensures old(currentProject).Some? ==>
        var loc := FindPath(old(currentProject).value.functions, functionPath);
        && (loc.None? ==> r.Err? && currentProject == old(currentProject))
        && (loc.Some? ==>
              && ValidLoc(old(currentProject).value.functions, loc.value)
              && r == Ok(ReturnDefinition(description))
              && currentProject == Some(old(currentProject).value.(functions :=
                   UpdateAt(old(currentProject).value.functions, loc.value, SetReturnEdit(r.value)))))
    {
      var edited := EditFunction(functionPath, SetReturnEdit(ReturnDefinition(description)));
      r := if edited.Ok? then Ok(edited.value.returnDef.value) else Err(edited.msg);
    }

    /** `add_logic`: the resolved function's logic definition is replaced. */
    method AddLogic(functionPath: string, description: string) returns (r: Result<LogicDefinition>)
      modifies this
      ensures old(currentProject).None? ==> r == Err(NoProjectError) && currentProject == old(currentProject)
      ensures old(currentProject).Some? ==>
        var loc := FindPath(old(currentProject).value.functions, functionPath);
        && (loc.None? ==> r.Err? && currentProject == old(currentProject))
        && (loc.Some? ==>
              && ValidLoc(old(currentProject).value.functions, loc.value)
              && r == Ok(LogicDefinition(description))
              && currentProject == Some(old(currentProject).value.(functions :=
                   UpdateAt(old(currentProject).value.functions, loc.value, SetLogicEdit(r.value)))))
    {
      var edited := EditFunction(functionPath, SetLogicEdit(LogicDefinition(description)));
      r := if edited.Ok? then Ok(edited.value.logicDef.value) else Err(edited.msg);
    }
  }
}
