/** The application's persistent settings and project store
    (src/services/data_storage.py): dotted-key access to the nested
    configuration, the most-recently-used project list kept in it, and the
    project name an import derives from its file path. Files on disk are
    abstract maps: the config file is the `config` field, each project's
    `project.yaml` an entry of `projects`, and an import source an entry of
    the caller's `files`. */
module DataStorage {
  import opened Common
  import opened Values

  // ---------------------------------------------------------------------
  // Configuration

  /** The configuration `_load_config` writes when there is no config
      file. */
  const DefaultConfig: map<string, Value> := map[
    "theme" := VStr("swedish_minimalist"),
    "editor" := VDict(map["font_size" := VInt(14), "tab_size" := VInt(4), "auto_save" := VBool(true)]),
    "llm" := VDict(map[
      "api_url" := VStr("https://api.openai.com/v1"),
      "model" := VStr("gpt-4"),
      "temperature" := VReal(0.7)]),
    "recent_projects" := VList([])]

  /** What the config file holds at start-up: no file, a file that cannot be
      read or holds nothing, or a mapping. */
  datatype StoredConfig = NoFile | Unreadable | Loaded(entries: map<string, Value>)

  /** `_load_config`: the default when there is no file, {} when it cannot be
      read or is empty, the stored mapping otherwise. */
  function LoadConfig(stored: StoredConfig): (r: map<string, Value>)
    ensures stored.NoFile? ==> r == DefaultConfig
    ensures stored.Unreadable? ==> r == map[]
    ensures stored.Loaded? ==> r == stored.entries
  {
    match stored
    case NoFile => DefaultConfig
    case Unreadable => map[]
    case Loaded(entries) => entries
  }

  /** The value at a key path: each segment must name an entry of a mapping;
      otherwise the result is None. */
  function Lookup(v: Value, keys: seq<string>): (r: Value)
    ensures |keys| >= 1 && r != VNone ==> v.VDict? && keys[0] in v.entries
  {
    if keys == [] then v
    else if v.VDict? && keys[0] in v.entries then Lookup(v.entries[keys[0]], keys[1..])
    else VNone
  }

  /** A missing segment or a non-mapping on the way gives None. */
  lemma {:induction false} LookupMissing(v: Value, keys: seq<string>, i: nat)
    requires i < |keys|
    requires forall j :: 0 <= j < i ==> Lookup(v, keys[..j]).VDict? && keys[j] in Lookup(v, keys[..j]).entries
    requires !Lookup(v, keys[..i]).VDict? || keys[i] !in Lookup(v, keys[..i]).entries
    ensures Lookup(v, keys) == VNone
    decreases i
  {
    if i == 0 {
      assert keys[..0] == [];
    } else {
      assert keys[..1] == [keys[0]];
      assert Lookup(v, keys[..0]) == v by { assert keys[..0] == []; }
      var child := v.entries[keys[0]];
      forall j | 0 <= j < i - 1
        ensures Lookup(child, keys[1..][..j]).VDict? && keys[1..][j] in Lookup(child, keys[1..][..j]).entries
      {
        assert keys[..j + 1][1..] == keys[1..][..j];
        assert Lookup(v, keys[..j + 1]) == Lookup(child, keys[1..][..j]);
      }
      assert keys[..i][1..] == keys[1..][..i - 1];
      assert Lookup(v, keys[..i]) == Lookup(child, keys[1..][..i - 1]);
      LookupMissing(child, keys[1..], i - 1);
    }
  }

  /** The walk goes one segment at a time: looking up `a + b` is looking up
      `b` in what `a` gives. */
  lemma {:induction false} LookupComposes(v: Value, a: seq<string>, b: seq<string>)
    ensures Lookup(v, a + b) == Lookup(Lookup(v, a), b)
    decreases |a|
  {
    if a == [] {
      assert a + b == b;
    } else {
      assert (a + b)[0] == a[0] && (a + b)[1..] == a[1..] + b;
      if v.VDict? && a[0] in v.entries {
        LookupComposes(v.entries[a[0]], a[1..], b);
      } else if b != [] {
        assert Lookup(VNone, b) == VNone;
      }
    }
  }

  /** The mapping to descend into at `k`: the entry when it is a mapping,
      else a fresh {} (set_config replaces missing and non-mapping
      entries). */
  function Child(m: map<string, Value>, k: string): (r: map<string, Value>)
    ensures k in m && m[k].VDict? ==> Lookup(VDict(m), [k]) == VDict(r)
    ensures !(k in m && m[k].VDict?) ==> r == map[]
  {
    if k in m && m[k].VDict? then m[k].entries else map[]
  }

  /** The configuration after `set_config` of `keys` to `value`. */
  function SetPath(m: map<string, Value>, keys: seq<string>, value: Value): (r: map<string, Value>)
    requires |keys| >= 1
    ensures keys[0] in r
    ensures forall k :: k in m && k != keys[0] ==> k in r && r[k] == m[k]
    ensures forall k :: k in r ==> k in m || k == keys[0]
    decreases |keys|
  {
    if |keys| == 1 then m[keys[0] := value]
    else m[keys[0] := VDict(SetPath(Child(m, keys[0]), keys[1..], value))]
  }

  /** After set_config, get_config of the same key gives the value. */
  lemma {:induction false} GetAfterSet(m: map<string, Value>, keys: seq<string>, value: Value)
    requires |keys| >= 1
    ensures Lookup(VDict(SetPath(m, keys, value)), keys) == value
    decreases |keys|
  {
    if |keys| > 1 {
      GetAfterSet(Child(m, keys[0]), keys[1..], value);
    }
  }

  /** set_config leaves every key path with another first segment as it
      was. */
  lemma {:induction false} SetLeavesOthers(m: map<string, Value>, keys: seq<string>, value: Value, other: seq<string>)
    requires |keys| >= 1 && |other| >= 1
    requires other[0] != keys[0]
    ensures Lookup(VDict(SetPath(m, keys, value)), other) == Lookup(VDict(m), other)
  {
  }

  /** set_config below an existing mapping leaves its other entries. */
  lemma {:induction false} SetLeavesSiblings(m: map<string, Value>, keys: seq<string>, value: Value, other: seq<string>)
    requires |keys| >= 1 && |other| >= 1
    requires exists i :: (0 <= i < |keys| && i < |other| && keys[..i] == other[..i] && keys[i] != other[i]
      && Lookup(VDict(m), keys[..i]).VDict?)
    ensures Lookup(VDict(SetPath(m, keys, value)), other) == Lookup(VDict(m), other)
    decreases |keys|
  {
    var i :| 0 <= i < |keys| && i < |other| && keys[..i] == other[..i] && keys[i] != other[i]
      && Lookup(VDict(m), keys[..i]).VDict?;
    if i == 0 {
      SetLeavesOthers(m, keys, value, other);
    } else {
      assert other[0] == keys[0] by { assert keys[..i][0] == other[..i][0]; }
      assert keys[..i] == [keys[0]] + keys[1..][..i - 1];
      assert Lookup(VDict(m), keys[..i]) == Lookup(m[keys[0]], keys[1..][..i - 1]);
      var c := m[keys[0]].entries;
      assert Child(m, keys[0]) == c;
      assert keys[1..][..i - 1] == other[1..][..i - 1] by {
        assert keys[..i][1..] == other[..i][1..];
      }
      assert |keys| > 1;
      SetLeavesSiblings(c, keys[1..], value, other[1..]);
    }
  }

  // ---------------------------------------------------------------------
  // Most-recently-used project list

  /** `list.remove(x)`: drops the first occurrence. */
  function RemoveFirst(items: seq<Value>, x: Value): (r: seq<Value>)
    ensures x in items ==> |r| == |items| - 1
    ensures x !in items ==> r == items
    ensures forall y :: y in r ==> y in items
    ensures forall y :: y != x ==> multiset(r)[y] == multiset(items)[y]
  {
    if items == [] then []
    else
      assert items == [items[0]] + items[1..];
      if items[0] == x then items[1..]
      else [items[0]] + RemoveFirst(items[1..], x)
  }

  /** No entry occurs twice. */
  predicate NoDuplicates(items: seq<Value>)
  {
    forall i, j :: 0 <= i < j < |items| ==> items[i] != items[j]
  }

  /** The entries other than `x`, in order. */
  function Without(items: seq<Value>, x: Value): (r: seq<Value>)
    ensures x !in r
    ensures |r| <= |items|
  {
    if items == [] then []
    else (if items[0] == x then [] else [items[0]]) + Without(items[1..], x)
  }

  /** Without a duplicate of `x`, removing its first occurrence removes them
      all. */
  lemma {:induction false} RemoveFirstIsWithout(items: seq<Value>, x: Value)
    requires multiset(items)[x] <= 1
    ensures RemoveFirst(items, x) == Without(items, x)
  {
    if items != [] {
      assert items == [items[0]] + items[1..];
      if items[0] == x {
        assert x !in items[1..];
        WithoutAbsent(items[1..], x);
      } else {
        RemoveFirstIsWithout(items[1..], x);
      }
    }
  }

  lemma {:induction false} WithoutAbsent(items: seq<Value>, x: Value)
    requires x !in items
    ensures Without(items, x) == items
  {
    if items != [] {
      WithoutAbsent(items[1..], x);
    }
  }

  lemma {:induction false} WithoutKeepsDistinct(items: seq<Value>, x: Value)
    requires NoDuplicates(items)
    ensures NoDuplicates(Without(items, x))
    ensures forall y :: y in Without(items, x) ==> y in items
  {
    if items != [] {
      assert NoDuplicates(items[1..]);
      WithoutKeepsDistinct(items[1..], x);
      assert items[0] !in items[1..];
    }
  }

  lemma NoDuplicatesCount(items: seq<Value>, x: Value)
    requires NoDuplicates(items)
    ensures multiset(items)[x] <= 1
    decreases |items|
  {
    if items != [] {
      assert items == [items[0]] + items[1..];
      assert NoDuplicates(items[1..]);
      NoDuplicatesCount(items[1..], x);
      if items[0] == x {
        assert x !in items[1..];
      }
    }
  }

  const MaxRecent := 10

  /** `items[:n]`. */
  function Take(items: seq<Value>, n: nat): (r: seq<Value>)
    ensures |r| == if |items| < n then |items| else n
    ensures r <= items
  {
    if |items| <= n then items else items[..n]
  }

  /** The list after opening `name`: its earlier occurrence removed, the name
      inserted at the front, the first ten kept. */
  function MovedToFront(items: seq<Value>, name: string): (r: seq<Value>)
    ensures 1 <= |r| <= MaxRecent && r[0] == VStr(name)
  {
    Take([VStr(name)] + RemoveFirst(items, VStr(name)), MaxRecent)
  }

  /** For a list without duplicates, the moved list has none either, keeps
      the other names in their old order and drops only from the end. */
  lemma MovedToFrontProperties(items: seq<Value>, name: string)
    requires NoDuplicates(items)
    ensures var r := MovedToFront(items, name);
      var w := Without(items, VStr(name));
      && NoDuplicates(r)
      && r[1..] <= w
      && |r| == if |w| + 1 < MaxRecent then |w| + 1 else MaxRecent
  {
    var x := VStr(name);
    NoDuplicatesCount(items, x);
    RemoveFirstIsWithout(items, x);
    var w := Without(items, x);
    WithoutKeepsDistinct(items, x);
    ConsDistinct(x, w);
    var full := [x] + w;
    var r := MovedToFront(items, name);
    assert r == Take(full, MaxRecent);
    PrefixDistinct(full, r);
    assert r[1..] <= w by {
      forall k | 0 <= k < |r| - 1 ensures r[1..][k] == w[k] {
        assert r[k + 1] == full[k + 1];
      }
    }
  }

  lemma ConsDistinct(x: Value, w: seq<Value>)
    requires NoDuplicates(w) && x !in w
    ensures NoDuplicates([x] + w)
  {
    var full := [x] + w;
    forall i, j | 0 <= i < j < |full| ensures full[i] != full[j] {
      assert full[j] == w[j - 1];
      if i > 0 {
        assert full[i] == w[i - 1];
      }
    }
  }

  lemma PrefixDistinct(a: seq<Value>, b: seq<Value>)
    requires NoDuplicates(a) && b <= a
    ensures NoDuplicates(b)
  {
    forall i, j | 0 <= i < j < |b| ensures b[i] != b[j] {
      assert b[i] == a[i] && b[j] == a[j];
    }
  }

  /** The recent list and its update in the config: a list is moved to the
      front; anything else makes the list operations raise. */
  function RecentAfterOpen(config: map<string, Value>, name: string): (r: Option<map<string, Value>>)
    ensures r.Some? <==> "recent_projects" !in config || config["recent_projects"].VList?
    ensures r.Some? ==> (r.value.Keys == config.Keys + {"recent_projects"}
      && r.value["recent_projects"].VList?
      && (forall k :: k in config && k != "recent_projects" ==> r.value[k] == config[k]))
  {
    var recent := if "recent_projects" in config then config["recent_projects"] else VList([]);
    match recent
    case VList(items) => Some(config["recent_projects" := VList(MovedToFront(items, name))])
    case _ => None
  }

  /** `name in s` for a string `s`. */
  predicate Substring(name: string, s: string)
  {
    exists i :: 0 <= i <= |s| && OccursAt(s, name, i)
  }

  /** The config after delete_project's list update, or None where the
      membership test or `remove` raises: a list loses the name's first
      occurrence; a string or mapping that does not contain the name, or no
      list at all, leaves the config as it is. */
  function RecentAfterDelete(config: map<string, Value>, name: string): (r: Option<map<string, Value>>)
    ensures "recent_projects" !in config ==> r == Some(config)
    ensures r.None? ==> "recent_projects" in config && !config["recent_projects"].VList?
    ensures r.Some? ==> (r.value.Keys == config.Keys
      && forall k :: k in config && k != "recent_projects" ==> r.value[k] == config[k])
  {
    var recent := if "recent_projects" in config then config["recent_projects"] else VList([]);
    match recent
    case VList(items) =>
      if VStr(name) in items
      then Some(config["recent_projects" := VList(RemoveFirst(items, VStr(name)))])
      else Some(config)
    case VStr(s) => if Substring(name, s) then None else Some(config)
    case VDict(entries) => if name in entries then None else Some(config)
    case _ => None
  }

  /** Deleting a listed project drops exactly that name and keeps the rest in
      order. */
  lemma DeleteDropsName(config: map<string, Value>, name: string)
    requires "recent_projects" in config && config["recent_projects"].VList?
    requires NoDuplicates(config["recent_projects"].items)
    ensures var r := RecentAfterDelete(config, name);
      && r.Some?
      && r.value.Keys == config.Keys
      && r.value["recent_projects"] == VList(Without(config["recent_projects"].items, VStr(name)))
      && (forall k :: k in config && k != "recent_projects" ==> r.value[k] == config[k])
  {
    var items := config["recent_projects"].items;
    NoDuplicatesCount(items, VStr(name));
    RemoveFirstIsWithout(items, VStr(name));
    if VStr(name) !in items {
      WithoutAbsent(items, VStr(name));
    }
  }

  /** Opening a project that is the newest entry leaves the list as it
      was. */
  lemma ReopenNewest(items: seq<Value>, name: string)
    requires |items| <= MaxRecent && items != [] && items[0] == VStr(name)
    ensures MovedToFront(items, name) == items
  {
    assert RemoveFirst(items, VStr(name)) == items[1..];
    assert [VStr(name)] + items[1..] == items;
  }

  // ---------------------------------------------------------------------
  // Import name

  /** Index just after the last '/' (0 when there is none). */
  function BaseStart(path: string): (r: nat)
    ensures r <= |path|
    ensures r > 0 ==> path[r - 1] == '/'
    ensures forall k :: r <= k < |path| ==> path[k] != '/'
  {
    if path == [] then 0
    else if path[|path| - 1] == '/' then |path|
    else BaseStart(path[..|path| - 1])
  }

  /** `os.path.basename`. */
  function Basename(path: string): (r: string)
    ensures '/' !in r
  {
    var s := BaseStart(path);
    assert forall k :: 0 <= k < |path[s..]| ==> path[s..][k] == path[s + k];
    path[s..]
  }

  /** The position of the last '.', if any. */
  function LastDot(s: string): (r: Option<nat>)
    ensures r.Some? ==> (r.value < |s| && s[r.value] == '.'
      && forall k :: r.value < k < |s| ==> s[k] != '.')
    ensures r.None? ==> '.' !in s
  {
    if s == [] then None
    else if s[|s| - 1] == '.' then Some(|s| - 1)
    else
      var r := LastDot(s[..|s| - 1]);
      assert s == s[..|s| - 1] + [s[|s| - 1]];
      r
  }

  /** `os.path.splitext(name)[0]` on a base name: the text before the last
      dot, unless everything before that dot is dots (".bashrc", "..x"). */
  function StripExtension(name: string): (r: string)
    ensures r <= name
  {
    match LastDot(name)
    case None => name
    case Some(d) => if exists k :: 0 <= k < d && name[k] != '.' then name[..d] else name
  }

  /** `os.path.splitext(os.path.basename(import_path))[0]`. */
  function ImportName(path: string): (r: string)
    ensures '/' !in r
  {
    StripExtension(Basename(path))
  }

  /** A directory, a stem that is not all dots and has no '/', and an
      extension without '.' or '/': the import name is the stem. */
  lemma ImportNameOfFile(dir: string, stem: string, ext: string)
    requires '/' !in stem && '/' !in ext && '.' !in ext
    requires exists k :: 0 <= k < |stem| && stem[k] != '.'
    ensures ImportName(dir + "/" + stem + "." + ext) == stem
  {
    var base := stem + "." + ext;
    assert dir + "/" + stem + "." + ext == dir + "/" + base;
    assert '/' !in base by {
      forall k | 0 <= k < |base| ensures base[k] != '/' {
        if k < |stem| {
          assert base[k] == stem[k];
        } else if k > |stem| {
          assert base[k] == ext[k - |stem| - 1];
        }
      }
    }
    BaseIsLastPart(dir, base);
    StripOfStemExt(stem, ext);
  }

  /** `splitext` of a stem that is not all dots and an extension without a
      dot gives the stem. */
  lemma StripOfStemExt(stem: string, ext: string)
    requires '.' !in ext
    requires exists k :: 0 <= k < |stem| && stem[k] != '.'
    ensures StripExtension(stem + "." + ext) == stem
  {
    var base := stem + "." + ext;
    var d := |stem|;
    assert base[d] == '.';
    assert forall k :: d < k < |base| ==> base[k] == ext[k - d - 1];
    LastDotIs(base, d);
    var k :| 0 <= k < |stem| && stem[k] != '.';
    assert base[k] == stem[k];
    assert base[..d] == stem;
  }

  /** A name without a dot is its own import name, whatever directory
      holds it. */
  lemma ImportNameWithoutExtension(dir: string, name: string)
    requires '/' !in name && '.' !in name
    ensures ImportName(dir + "/" + name) == name
  {
    BaseIsLastPart(dir, name);
  }

  lemma BaseIsLastPart(dir: string, base: string)
    requires '/' !in base
    ensures Basename(dir + "/" + base) == base
  {
    var path := dir + "/" + base;
    var s := BaseStart(path);
    assert path[|dir|] == '/';
    assert forall k :: |dir| < k < |path| ==> path[k] == base[k - |dir| - 1];
    assert s == |dir| + 1;
    assert path[s..] == base;
  }

  lemma LastDotIs(s: string, d: nat)
    requires d < |s| && s[d] == '.'
    requires forall k :: d < k < |s| ==> s[k] != '.'
    ensures LastDot(s) == Some(d)
  {
    var r := LastDot(s);
    assert '.' in s;
  }

  // ---------------------------------------------------------------------
  // The service

  class DataStorageService {
    var config: map<string, Value>
    /** `projects/<name>/project.yaml` for every stored project. */
    var projects: map<string, Value>

    /** The store opened on a config file (the directories are created and
        the default config written when there is no file). */
    constructor (stored: StoredConfig, existing: map<string, Value>)
      ensures config == LoadConfig(stored) && projects == existing
    {
      config := LoadConfig(stored);
      projects := existing;
    }

    /** `get_config`: the whole config without a key, otherwise the walk
        along the dot-separated segments. */
    method GetConfig(key: Option<string>) returns (v: Value)
      ensures key.None? ==> v == VDict(config)
      ensures key.Some? ==> v == Lookup(VDict(config), Split(key.value, '.'))
    {
      if key.None? {
        return VDict(config);
      }
      var keys := Split(key.value, '.');
      v := VDict(config);
      var i := 0;
      while i < |keys|
        invariant 0 <= i <= |keys|
        invariant Lookup(VDict(config), keys) == Lookup(v, keys[i..])
      {
        if v.VDict? && keys[i] in v.entries {
          assert keys[i..][1..] == keys[i + 1..];
          v := v.entries[keys[i]];
        } else {
          return VNone;
        }
        i := i + 1;
      }
      assert keys[i..] == [];
    }

    /** `set_config`: the intermediate mappings are walked (missing or
        non-mapping ones become {}), the last segment is assigned, and the
        config is saved. */
    method SetConfig(key: string, value: Value, writeSucceeds: bool) returns (saved: bool)
      modifies this
      ensures config == SetPath(old(config), Split(key, '.'), value)
      ensures projects == old(projects)
      ensures saved == writeSucceeds
    {
      var keys := Split(key, '.');
      var n := |keys|;
      // levels[i] is the mapping reached after the first i segments
      var levels := [config];
      var i := 0;
      while i < n - 1
        invariant 0 <= i <= n - 1
        invariant |levels| == i + 1 && levels[0] == config
        invariant forall j :: 0 <= j < i ==> levels[j + 1] == Child(levels[j], keys[j])
      {
        levels := levels + [Child(levels[i], keys[i])];
        i := i + 1;
      }
      var acc := levels[n - 1][keys[n - 1] := value];
      var j := n - 1;
      while j > 0
        invariant 0 <= j <= n - 1
        invariant acc == SetPath(levels[j], keys[j..], value)
      {
        assert keys[j - 1..][1..] == keys[j..];
        acc := levels[j - 1][keys[j - 1] := VDict(acc)];
        j := j - 1;
      }
      assert keys[0..] == keys;
      config := acc;
      saved := writeSucceeds;
    }

    /** The list update shared by save_project, load_project and
        import_project; false when it raises and the config is kept. After
        an update, `get_recent_projects` lists the name first. */
    method OpenRecent(name: string) returns (ok: bool)
      modifies this
      ensures ok <==> RecentAfterOpen(old(config), name).Some?
      ensures ok ==> config == RecentAfterOpen(old(config), name).value
      ensures ok ==> (GetRecentProjects().VList? && 1 <= |GetRecentProjects().items| <= MaxRecent
        && GetRecentProjects().items[0] == VStr(name))
      ensures !ok ==> config == old(config)
      ensures projects == old(projects)
    {
      var recent := if "recent_projects" in config then config["recent_projects"] else VList([]);
      if !recent.VList? {
        return false;
      }
      var items := recent.items;
      if VStr(name) in items {
        items := RemoveFirst(items, VStr(name));
      }
      items := [VStr(name)] + items;
      config := config["recent_projects" := VList(Take(items, MaxRecent))];
      ok := true;
    }

    /** `save_project`: the project file is written, then the recent list is
        updated; false when the update raises. */
    method SaveProject(data: Value, name: string) returns (ok: bool)
      modifies this
      ensures projects == old(projects)[name := data]
      ensures ok <==> RecentAfterOpen(old(config), name).Some?
      ensures config == if ok then RecentAfterOpen(old(config), name).value else old(config)
    {
      projects := projects[name := data];
      ok := OpenRecent(name);
    }

    /** `load_project`: None for a project without a file or when the list
        update raises; otherwise the stored data, after the update. */
    method LoadProject(name: string) returns (data: Option<Value>)
      modifies this
      ensures projects == old(projects)
      ensures name !in projects ==> data.None? && config == old(config)
      ensures name in projects ==>
        && (data.Some? <==> RecentAfterOpen(old(config), name).Some?)
        && (data.Some? ==> data.value == projects[name])
        && config == if data.Some? then RecentAfterOpen(old(config), name).value else old(config)
    {
      if name !in projects {
        return None;
      }
      var stored := projects[name];
      var ok := OpenRecent(name);
      data := if ok then Some(stored) else None;
    }

    /** `get_recent_projects`. */
    function GetRecentProjects(): (r: Value)
      reads this
      ensures "recent_projects" in config ==> r == Lookup(VDict(config), ["recent_projects"])
      ensures "recent_projects" !in config ==> r == VList([])
    {
      if "recent_projects" in config then config["recent_projects"] else VList([])
    }

    /** `delete_project`: false for an unknown project; otherwise the project
        is removed and the name dropped from the recent list, false when
        that raises. */
    method DeleteProject(name: string) returns (ok: bool)
      modifies this
      ensures name !in old(projects) ==> !ok && projects == old(projects) && config == old(config)
      ensures name in old(projects) ==>
        && projects == old(projects) - {name}
        && (ok <==> RecentAfterDelete(old(config), name).Some?)
        && config == if ok then RecentAfterDelete(old(config), name).value else old(config)
    {
      if name !in projects {
        return false;
      }
      projects := projects - {name};
      var next := RecentAfterDelete(config, name);
      if next.None? {
        return false;
      }
      config := next.value;
      ok := true;
    }

    /** `import_project`: false when the source file does not exist;
        otherwise it is copied under the given name or the one derived from
        the path, and the recent list is updated. */
    method ImportProject(files: map<string, Value>, importPath: string, name: Option<string>) returns (ok: bool)
      modifies this
      ensures importPath !in files ==> !ok && projects == old(projects) && config == old(config)
      ensures importPath in files ==>
        var n := if name.Some? then name.value else ImportName(importPath);
        && projects == old(projects)[n := files[importPath]]
        && (ok <==> RecentAfterOpen(old(config), n).Some?)
        && config == if ok then RecentAfterOpen(old(config), n).value else old(config)
    {
      if importPath !in files {
        return false;
      }
      var n := if name.Some? then name.value else ImportName(importPath);
      projects := projects[n := files[importPath]];
      ok := OpenRecent(n);
    }
  }
}
