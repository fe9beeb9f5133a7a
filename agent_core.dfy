/** The task orchestration core of src/core/agent_core.py: the task record and
    its status machine, the planner that numbers and decomposes tasks, the
    working/long-term memory, the execution engine that dispatches on a type
    prefix, and the agent manager that owns the single current task.

    Tasks are owned tree values: a parent holds its children by value and the
    back-reference is the parent's id only. Operations that mutate a Python
    Task in place return the updated tree here. An operation that reads the
    wall clock once takes the reading as its `now` argument; one that reads
    it several times takes the successive readings as a `Clock` and the
    index of its first one. */
module AgentCore {
  import opened Common
  import opened Values

  type Timestamp = real

  datatype TaskStatus = Pending | InProgress | Completed | Failed

  /** `TaskStatus(...).value`; the only strings `TaskStatus(s)` accepts. */
  function StatusValue(s: TaskStatus): (v: string)
    ensures ParseStatus(v) == Some(s)
  {
    match s
    case Pending => "pending"
    case InProgress => "in_progress"
    case Completed => "completed"
    case Failed => "failed"
  }

  /** `TaskStatus(v)`: None where Python raises ValueError. */
  function ParseStatus(v: string): (r: Option<TaskStatus>)
    ensures r.Some? <==> v in {"pending", "in_progress", "completed", "failed"}
  {
    if v == "pending" then Some(Pending)
    else if v == "in_progress" then Some(InProgress)
    else if v == "completed" then Some(Completed)
    else if v == "failed" then Some(Failed)
    else None
  }

  /** `TaskStatus(v).value == v` whenever `TaskStatus(v)` succeeds: with
      StatusValue's contract, the two are inverse. */
  lemma ParseStatusInverse(v: string)
    requires ParseStatus(v).Some?
    ensures StatusValue(ParseStatus(v).value) == v
  {
  }

  /** A task; `result` is VNone where Python's is None. */
  datatype Task = Task(
    taskId: string,
    description: string,
    parentId: Option<string>,
    status: TaskStatus,
    subtasks: seq<Task>,
    createdAt: Timestamp,
    startedAt: Option<Timestamp>,
    completedAt: Option<Timestamp>,
    result: Value,
    error: Option<string>)

  /** `Task(task_id, description, parent_id)` created at time `now`. */
  function NewTask(id: string, description: string, parentId: Option<string>, now: Timestamp): (t: Task)
    ensures t.taskId == id && t.description == description && t.parentId == parentId
    ensures t.status == Pending && t.subtasks == [] && t.createdAt == now
    ensures t.startedAt == None && t.completedAt == None && t.result == VNone && t.error == None
  {
    Task(id, description, parentId, Pending, [], now, None, None, VNone, None)
  }

  /** `task.start()`: only status and started_at change. */
  function Start(t: Task, now: Timestamp): (r: Task)
    ensures r.status == InProgress && r.startedAt == Some(now)
    ensures r.taskId == t.taskId && r.description == t.description && r.parentId == t.parentId
    ensures r.subtasks == t.subtasks && r.createdAt == t.createdAt
    ensures r.completedAt == t.completedAt && r.result == t.result && r.error == t.error
  {
    t.(status := InProgress, startedAt := Some(now))
  }

  /** `task.complete(result)`: only status, completed_at and result change. */
  function Complete(t: Task, result: Value, now: Timestamp): (r: Task)
    ensures r.status == Completed && r.completedAt == Some(now) && r.result == result
    ensures r.taskId == t.taskId && r.description == t.description && r.parentId == t.parentId
    ensures r.subtasks == t.subtasks && r.createdAt == t.createdAt
    ensures r.startedAt == t.startedAt && r.error == t.error
  {
    t.(status := Completed, completedAt := Some(now), result := result)
  }

  /** `task.fail(error)`: only status, completed_at and error change. */
  function Fail(t: Task, error: string, now: Timestamp): (r: Task)
    ensures r.status == Failed && r.completedAt == Some(now) && r.error == Some(error)
    ensures r.taskId == t.taskId && r.description == t.description && r.parentId == t.parentId
    ensures r.subtasks == t.subtasks && r.createdAt == t.createdAt
    ensures r.startedAt == t.startedAt && r.result == t.result
  {
    t.(status := Failed, completedAt := Some(now), error := Some(error))
  }

  /** `task.add_subtask(subtask)`. */
  function AddSubtask(t: Task, sub: Task): (r: Task)
    ensures r.subtasks == t.subtasks + [sub]
    ensures r == t.(subtasks := r.subtasks)
  {
    t.(subtasks := t.subtasks + [sub])
  }

  // ---------------------------------------------------------------------
  // to_dict / from_dict

  function OptStr(o: Option<string>): Value
  {
    match o
    case None => VNone
    case Some(s) => VStr(s)
  }

  function OptTime(o: Option<Timestamp>): Value
  {
    match o
    case None => VNone
    case Some(r) => VReal(r)
  }

  /** The keys `to_dict` writes. */
  const TaskKeys: set<string> := {"task_id", "description", "parent_id", "status", "created_at",
    "started_at", "completed_at", "result", "error", "subtasks"}

  /** `task.to_dict()`: a dict with exactly the ten keys. */
  function ToDict(t: Task): (r: Value)
    ensures r.VDict? && r.entries.Keys == TaskKeys
    decreases t, 1
  {
    VDict(map[
      "task_id" := VStr(t.taskId),
      "description" := VStr(t.description),
      "parent_id" := OptStr(t.parentId),
      "status" := VStr(StatusValue(t.status)),
      "created_at" := VReal(t.createdAt),
      "started_at" := OptTime(t.startedAt),
      "completed_at" := OptTime(t.completedAt),
      "result" := t.result,
      "error" := OptStr(t.error),
      "subtasks" := VList(ToDicts(t.subtasks))])
  }

  /** `[subtask.to_dict() for subtask in subtasks]`. */
  function ToDicts(ts: seq<Task>): (vs: seq<Value>)
    ensures |vs| == |ts|
    decreases ts, 0
  {
    if ts == [] then [] else [ToDict(ts[0])] + ToDicts(ts[1..])
  }

  /** `data.get(key)` for an optional string field; Err for a JSON type that
      to_dict never writes there. */
  function GetOptStr(m: map<string, Value>, key: string): Result<Option<string>>
  {
    if key !in m then Ok(None)
    else match m[key]
      case VNone => Ok(None)
      case VStr(s) => Ok(Some(s))
      case _ => Err("unsupported type for '" + key + "'")
  }

  function GetOptTime(m: map<string, Value>, key: string): Result<Option<Timestamp>>
  {
    if key !in m then Ok(None)
    else match m[key]
      case VNone => Ok(None)
      case VReal(r) => Ok(Some(r))
      case _ => Err("unsupported type for '" + key + "'")
  }

  /** Every field of a task record except its subtasks. */
  datatype Header = Header(
    taskId: string, description: string, parentId: Option<string>, status: TaskStatus,
    createdAt: Timestamp, startedAt: Option<Timestamp>, completedAt: Option<Timestamp>,
    result: Value, error: Option<string>)

  function HeaderOf(t: Task): Header
  {
    Header(t.taskId, t.description, t.parentId, t.status, t.createdAt,
           t.startedAt, t.completedAt, t.result, t.error)
  }

  function WithSubtasks(h: Header, subtasks: seq<Task>): Task
  {
    Task(h.taskId, h.description, h.parentId, h.status, subtasks,
         h.createdAt, h.startedAt, h.completedAt, h.result, h.error)
  }

  /** The scalar part of `Task.from_dict(data)`, checked in the order the
      source reads the keys: Err where Python raises (a missing required key,
      a status outside the enumeration). */
  function DecodeHeader(m: map<string, Value>): Result<Header>
  {
    if "task_id" !in m then Err("'task_id'")
    else if "description" !in m then Err("'description'")
    else if !m["task_id"].VStr? || !m["description"].VStr? then Err("unsupported type for task_id or description")
    else match GetOptStr(m, "parent_id")
      case Err(e) => Err(e)
      case Ok(parentId) =>
        if "status" !in m then Err("'status'")
        else if !m["status"].VStr? || ParseStatus(m["status"].s).None? then Err("not a valid TaskStatus")
        else if "created_at" !in m then Err("'created_at'")
        else if !m["created_at"].VReal? then Err("unsupported type for 'created_at'")
        else match GetOptTime(m, "started_at")
          case Err(e) => Err(e)
          case Ok(startedAt) =>
            match GetOptTime(m, "completed_at")
            case Err(e) => Err(e)
            case Ok(completedAt) =>
              match GetOptStr(m, "error")
              case Err(e) => Err(e)
              case Ok(error) =>
                var result := if "result" in m then m["result"] else VNone;
                Ok(Header(m["task_id"].s, m["description"].s, parentId,
                          ParseStatus(m["status"].s).value, m["created_at"].r,
                          startedAt, completedAt, result, error))
  }

  /** `Task.from_dict(data)`: Err where Python raises (a record that is not a
      dict, a failing key as in DecodeHeader, subtasks whose records fail).
      The subtask loop goes over a list's records; an empty string or dict
      gives no subtasks, and the strings a non-empty one hands the loop are
      not records. */
  function FromDict(v: Value): (r: Result<Task>)
    ensures r.Ok? ==> v.VDict? && "task_id" in v.entries && v.entries["task_id"] == VStr(r.value.taskId)
    ensures r.Ok? && "subtasks" in v.entries && !v.entries["subtasks"].VList? ==> r.value.subtasks == []
    decreases v, 1
  {
    if !v.VDict? then Err("record is not a dict")
    else
      var m := v.entries;
      match DecodeHeader(m)
      case Err(e) => Err(e)
      case Ok(h) =>
        if "subtasks" !in m || EmptyStringOrDict(m["subtasks"]) then Ok(WithSubtasks(h, []))
        else if !m["subtasks"].VList? then Err("subtasks are strings, or not iterable")
        else match FromDicts(m["subtasks"].items)
          case Err(e) => Err(e)
          case Ok(children) => Ok(WithSubtasks(h, children))
  }

  /** The loop `for subtask_data in data.get("subtasks", [])`. */
  function FromDicts(vs: seq<Value>): (r: Result<seq<Task>>)
    ensures r.Ok? ==> |r.value| == |vs|
    decreases vs, 0
  {
    if vs == [] then Ok([])
    else match FromDict(vs[0])
      case Err(e) => Err(e)
      case Ok(t) =>
        match FromDicts(vs[1..])
        case Err(e) => Err(e)
        case Ok(ts) => Ok([t] + ts)
  }

  lemma HeaderRoundTrip(t: Task)
    ensures DecodeHeader(ToDict(t).entries) == Ok(HeaderOf(t))
  {
    var m := ToDict(t).entries;
    assert m["task_id"] == VStr(t.taskId) && m["description"] == VStr(t.description);
    assert m["parent_id"] == OptStr(t.parentId) && m["status"] == VStr(StatusValue(t.status));
    assert m["created_at"] == VReal(t.createdAt) && m["started_at"] == OptTime(t.startedAt);
    assert m["completed_at"] == OptTime(t.completedAt) && m["error"] == OptStr(t.error);
    assert m["result"] == t.result;
    DecodeHeaderOf(m, t);
  }

  /** A record holding a task's scalar fields as to_dict writes them decodes
      to those fields. */
  lemma DecodeHeaderOf(m: map<string, Value>, t: Task)
    requires "task_id" in m && m["task_id"] == VStr(t.taskId)
    requires "description" in m && m["description"] == VStr(t.description)
    requires "parent_id" in m && m["parent_id"] == OptStr(t.parentId)
    requires "status" in m && m["status"] == VStr(StatusValue(t.status))
    requires "created_at" in m && m["created_at"] == VReal(t.createdAt)
    requires "started_at" in m && m["started_at"] == OptTime(t.startedAt)
    requires "completed_at" in m && m["completed_at"] == OptTime(t.completedAt)
    requires "result" in m && m["result"] == t.result
    requires "error" in m && m["error"] == OptStr(t.error)
    ensures DecodeHeader(m) == Ok(HeaderOf(t))
  {
    assert GetOptStr(m, "parent_id") == Ok(t.parentId);
    assert GetOptTime(m, "started_at") == Ok(t.startedAt);
    assert GetOptTime(m, "completed_at") == Ok(t.completedAt);
    assert GetOptStr(m, "error") == Ok(t.error);
  }

  /** `Task.from_dict(t.to_dict())` rebuilds the whole tree: every field of
      every task, children in the same order. */
  lemma {:induction false} RoundTrip(t: Task)
    ensures FromDict(ToDict(t)) == Ok(t)
    decreases t, 1
  {
    HeaderRoundTrip(t);
    assert ToDict(t).entries["subtasks"] == VList(ToDicts(t.subtasks));
    RoundTripAll(t.subtasks);
  }

  lemma {:induction false} RoundTripAll(ts: seq<Task>)
    ensures FromDicts(ToDicts(ts)) == Ok(ts)
    decreases ts, 0
  {
    if ts != [] {
      RoundTrip(ts[0]);
      RoundTripAll(ts[1..]);
      assert ToDicts(ts)[1..] == ToDicts(ts[1..]);
      assert [ts[0]] + ts[1..] == ts;
    }
  }

  /** An empty string or dict under "subtasks" reads as no "subtasks" key
      at all: the loop over it visits nothing. */
  lemma EmptySubtasksAsAbsent(m: map<string, Value>, e: Value)
    requires EmptyStringOrDict(e)
    ensures FromDict(VDict(m["subtasks" := e])) == FromDict(VDict(m - {"subtasks"}))
  {
    var with, without := m["subtasks" := e], m - {"subtasks"};
    HeaderIgnoresSubtasks(with, without);
  }

  /** The header is read from the keys other than "subtasks". */
  lemma HeaderIgnoresSubtasks(a: map<string, Value>, b: map<string, Value>)
    requires forall k :: k != "subtasks" ==> (k in a <==> k in b)
    requires forall k :: k != "subtasks" && k in a ==> a[k] == b[k]
    ensures DecodeHeader(a) == DecodeHeader(b)
  {
    assert GetOptStr(a, "parent_id") == GetOptStr(b, "parent_id");
    assert GetOptTime(a, "started_at") == GetOptTime(b, "started_at");
    assert GetOptTime(a, "completed_at") == GetOptTime(b, "completed_at");
    assert GetOptStr(a, "error") == GetOptStr(b, "error");
  }

  // ---------------------------------------------------------------------
  // TaskPlanner

  /** `f"task_{n}"`. */
  function TaskIdOf(n: nat): string
  {
    "task_" + NatToString(n)
  }

  /** Two counters give two different ids. */
  lemma TaskIdInjective(a: nat, b: nat)
    requires TaskIdOf(a) == TaskIdOf(b)
    ensures a == b
  {
    var p := "task_";
    assert NatToString(a) == TaskIdOf(a)[|p|..];
    assert NatToString(b) == TaskIdOf(b)[|p|..];
    NatToStringInjective(a, b);
  }

  /** `plan_execution`: the given order is the execution order. */
  function PlanExecution(tasks: seq<Task>): (plan: seq<Task>)
    ensures plan == tasks
  {
    tasks
  }

  /** `created[i]` is the PENDING task made for `descriptions[i]` under
      `parentId`, numbered `first + i` and created at reading `n + i`. */
  predicate CreatedInOrder(created: seq<Task>, descriptions: seq<string>, parentId: string, first: nat, clock: Clock, n: nat)
  {
    && |created| <= |descriptions|
    && forall i :: 0 <= i < |created| ==>
      created[i] == NewTask(TaskIdOf(first + i), descriptions[i], Some(parentId), Reading(clock, n + i))
  }

  /** One more task, made for the next description. */
  lemma CreatedSnoc(created: seq<Task>, t: Task, descriptions: seq<string>, parentId: string, first: nat, clock: Clock, n: nat)
    requires CreatedInOrder(created, descriptions, parentId, first, clock, n) && |created| < |descriptions|
    requires t == NewTask(TaskIdOf(first + |created|), descriptions[|created|], Some(parentId), Reading(clock, n + |created|))
    ensures CreatedInOrder(created + [t], descriptions, parentId, first, clock, n)
  {
    var k := |created|;
    forall i | 0 <= i < k + 1
      ensures (created + [t])[i] == NewTask(TaskIdOf(first + i), descriptions[i], Some(parentId), Reading(clock, n + i))
    {
      if i < k {
        assert (created + [t])[i] == created[i];
      }
    }
  }

  class TaskPlanner {
    var nextTaskId: nat
    /** The ids handed out so far, in order. */
    ghost var issued: seq<string>

    ghost predicate Valid()
      reads this
    {
      && nextTaskId >= 1
      && |issued| == nextTaskId - 1
      && forall k :: 0 <= k < |issued| ==> issued[k] == TaskIdOf(k + 1)
    }

    constructor ()
      ensures Valid() && nextTaskId == 1 && issued == []
    {
      nextTaskId := 1;
      issued := [];
    }

    /** No id was handed out twice. */
    lemma IssuedDistinct()
      requires Valid()
      ensures forall i, j :: 0 <= i < j < |issued| ==> issued[i] != issued[j]
    {
      forall i, j | 0 <= i < j < |issued| ensures issued[i] != issued[j] {
        if issued[i] == issued[j] {
          TaskIdInjective(i + 1, j + 1);
        }
      }
    }

    /** `create_task`: a fresh PENDING task numbered by the counter. */
    method CreateTask(description: string, parentId: Option<string>, now: Timestamp) returns (t: Task)
      requires Valid()
      modifies this
      ensures Valid()
      ensures t == NewTask(TaskIdOf(old(nextTaskId)), description, parentId, now)
      ensures nextTaskId == old(nextTaskId) + 1
      ensures issued == old(issued) + [t.taskId]
      ensures t.taskId !in old(issued)
    {
      t := NewTask(TaskIdOf(nextTaskId), description, parentId, now);
      forall k | 0 <= k < |issued| ensures issued[k] != t.taskId {
        if issued[k] == t.taskId {
          TaskIdInjective(k + 1, nextTaskId);
        }
      }
      issued := issued + [t.taskId];
      nextTaskId := nextTaskId + 1;
    }

    /** `decompose_task`: one new PENDING child per description, appended in
        order after the existing children; returns exactly the new ones.
        Child `i` is created at the clock reading `clock(n + i)`. */
    method DecomposeTask(task: Task, descriptions: seq<string>, clock: Clock, n: nat)
      returns (updated: Task, created: seq<Task>)
      requires Valid()
      modifies this
      ensures Valid()
      ensures nextTaskId == old(nextTaskId) + |descriptions|
      ensures |created| == |descriptions|
      ensures updated == task.(subtasks := task.subtasks + created)
      ensures CreatedInOrder(created, descriptions, task.taskId, old(nextTaskId), clock, n)
      ensures old(issued) <= issued && |issued| == |old(issued)| + |created|
      ensures forall i :: 0 <= i < |created| ==>
        issued[|old(issued)| + i] == created[i].taskId && created[i].taskId !in old(issued)
    {
      updated := task;
      created := [];
      var k := 0;
      while k < |descriptions|
        invariant 0 <= k <= |descriptions|
        invariant Valid()
        invariant nextTaskId == old(nextTaskId) + k
        invariant |created| == k
        invariant updated == task.(subtasks := task.subtasks + created)
        invariant CreatedInOrder(created, descriptions, task.taskId, old(nextTaskId), clock, n)
        invariant old(issued) <= issued
        invariant forall i :: 0 <= i < k ==> created[i].taskId !in old(issued)
      {
        var sub := CreateTask(descriptions[k], Some(task.taskId), Reading(clock, n + k));
        assert sub == NewTask(TaskIdOf(old(nextTaskId) + k), descriptions[k], Some(task.taskId), Reading(clock, n + k));
        updated := AddSubtask(updated, sub);
        CreatedSnoc(created, sub, descriptions, task.taskId, old(nextTaskId), clock, n);
        created := created + [sub];
        assert created[k] == sub;
        k := k + 1;
      }
    }
  }

  // ---------------------------------------------------------------------
  // MemoryManager (working memory; long-term memory as a key/value map)

  class MemoryManager {
    var workingMemory: map<string, Value>
    /** The `<key>.json` files under the memory directory. */
    var longTermMemory: map<string, Value>

    constructor (stored: map<string, Value>)
      ensures workingMemory == map[] && longTermMemory == stored
    {
      workingMemory := map[];
      longTermMemory := stored;
    }

    method SetWorkingMemory(key: string, value: Value)
      modifies this
      ensures workingMemory == old(workingMemory)[key := value]
      ensures longTermMemory == old(longTermMemory)
    {
      workingMemory := workingMemory[key := value];
    }

    /** `get_working_memory(key, default)`. */
    function GetWorkingMemory(key: string, default: Value): (v: Value)
      reads this
      ensures key in workingMemory ==> v == workingMemory[key]
      ensures key !in workingMemory ==> v == default
    {
      if key in workingMemory then workingMemory[key] else default
    }

    method SaveLongTermMemory(key: string, value: Value)
      modifies this
      ensures longTermMemory == old(longTermMemory)[key := value]
      ensures workingMemory == old(workingMemory)
    {
      longTermMemory := longTermMemory[key := value];
    }

    /** `load_long_term_memory(key, default)`. */
    function LoadLongTermMemory(key: string, default: Value): (v: Value)
      reads this
      ensures key in longTermMemory ==> v == longTermMemory[key]
      ensures key !in longTermMemory ==> v == default
    {
      if key in longTermMemory then longTermMemory[key] else default
    }
  }

  // ---------------------------------------------------------------------
  // ExecutionEngine

  /** What a registered handler does when called on a task: return a result
      or raise an exception with the given text. */
  datatype HandlerOutcome = Returned(value: Value) | Raised(message: string)

  type Handler = Task -> HandlerOutcome

  /** The type prefix: the text before the first ':', or "default". */
  function TaskType(description: string): (ty: string)
    ensures ':' in description ==>
      |ty| < |description| && description[..|ty|] == ty && description[|ty|] == ':' && ':' !in ty
    ensures ':' !in description ==> ty == "default"
  {
    if ':' in description then
      SplitFirstPiece(description, ':');
      Split(description, ':')[0]
    else "default"
  }

  /** The first piece of a split that found the separator is the text before
      its first occurrence. */
  lemma SplitFirstPiece(s: string, c: char)
    requires c in s
    ensures var p := Split(s, c)[0];
      |p| < |s| && s[..|p|] == p && s[|p|] == c && c !in p
  {
    SplitJoin(s, c);
    var parts := Split(s, c);
    if |parts| == 1 {
      assert false;
    }
    assert s == parts[0] + [c] + Join(parts[1..], c);
  }

  /** The successive readings of `time.time()`: the `n`-th call returns
      `clock(n)`. */
  type Clock = nat -> Timestamp

  /** The `i`-th reading of `clock`. */
  function Reading(clock: Clock, i: nat): Timestamp
  {
    clock(i)
  }

  /** A clock that never goes backwards. */
  ghost predicate Monotone(clock: Clock)
  {
    forall i: nat, j: nat :: i <= j ==> Reading(clock, i) <= Reading(clock, j)
  }

  /** A task after execution, and the first clock reading left unread. */
  datatype Run = Run(task: Task, next: nat)

  /** The tasks of a plan after execution, and the first reading left. */
  datatype Runs = Runs(tasks: seq<Task>, next: nat)

  /** What `execute_task` leaves behind for `t`, given the handler table,
      when its first clock reading is `clock(n)`: one reading to start, then
      the handler's or the children's, then one to complete or fail. */
  function Executed(handlers: map<string, Handler>, t: Task, clock: Clock, n: nat): (r: Run)
    ensures r.next >= n + 2
    decreases t, 1
  {
    var ty := TaskType(t.description);
    var started := Start(t, Reading(clock, n));
    if ty in handlers then
      match handlers[ty](started)
      case Returned(v) => Run(Complete(started, v, Reading(clock, n + 1)), n + 2)
      case Raised(msg) => Run(Fail(started, msg, Reading(clock, n + 1)), n + 2)
    else
      var children := ExecutedAll(handlers, t.subtasks, clock, n + 1);
      Run(Complete(started.(subtasks := children.tasks), VNone, Reading(clock, children.next)), children.next + 1)
  }

  /** Each task of the list executed in turn, each one reading the clock
      after the one before it. */
  function ExecutedAll(handlers: map<string, Handler>, ts: seq<Task>, clock: Clock, n: nat): (r: Runs)
    ensures |r.tasks| == |ts| && r.next >= n
    decreases ts, 0
  {
    if ts == [] then Runs([], n)
    else
      var first := Executed(handlers, ts[0], clock, n);
      var rest := ExecutedAll(handlers, ts[1..], clock, first.next);
      Runs([first.task] + rest.tasks, rest.next)
  }

  /** A non-empty plan: its first task, then the rest from the first reading
      that task leaves. */
  lemma ExecutedAllCons(handlers: map<string, Handler>, ts: seq<Task>, clock: Clock, n: nat)
    requires ts != []
    ensures var first := Executed(handlers, ts[0], clock, n);
      var rest := ExecutedAll(handlers, ts[1..], clock, first.next);
      ExecutedAll(handlers, ts, clock, n) == Runs([first.task] + rest.tasks, rest.next)
  {
  }

  /** The `i`-th task of a plan starts at the first reading its
      predecessors leave. */
  lemma {:induction false} ExecutedAllAt(handlers: map<string, Handler>, ts: seq<Task>, clock: Clock, n: nat, i: nat)
    requires i < |ts|
    ensures ExecutedAll(handlers, ts, clock, n).tasks[i]
      == Executed(handlers, ts[i], clock, ExecutedAll(handlers, ts[..i], clock, n).next).task
    decreases ts
  {
    ExecutedAllCons(handlers, ts, clock, n);
    if i == 0 {
      assert ts[..0] == [];
    } else {
      var m := Executed(handlers, ts[0], clock, n).next;
      ExecutedAllAt(handlers, ts[1..], clock, m, i - 1);
      assert ts[..i][0] == ts[0] && ts[..i][1..] == ts[1..][..i - 1];
      ExecutedAllCons(handlers, ts[..i], clock, n);
    }
  }

  /** A plan with one more task: the plan, then the task from the first
      reading the plan leaves. */
  lemma {:induction false} ExecutedAllSnoc(handlers: map<string, Handler>, ts: seq<Task>, t: Task, clock: Clock, n: nat)
    ensures var before := ExecutedAll(handlers, ts, clock, n);
      var last := Executed(handlers, t, clock, before.next);
      ExecutedAll(handlers, ts + [t], clock, n) == Runs(before.tasks + [last.task], last.next)
    decreases ts
  {
    if ts != [] {
      var first := Executed(handlers, ts[0], clock, n);
      var rest := ExecutedAll(handlers, ts[1..], clock, first.next);
      var last := Executed(handlers, t, clock, rest.next);
      assert (ts + [t])[0] == ts[0] && (ts + [t])[1..] == ts[1..] + [t];
      ExecutedAllCons(handlers, ts + [t], clock, n);
      ExecutedAllCons(handlers, ts, clock, n);
      ExecutedAllSnoc(handlers, ts[1..], t, clock, first.next);
      assert [first.task] + (rest.tasks + [last.task]) == ([first.task] + rest.tasks) + [last.task];
    } else {
      assert ts + [t] == [t] && [t][1..] == [];
      ExecutedAllCons(handlers, [t], clock, n);
    }
  }

  /** Executing the first `k + 1` tasks of a plan: the first `k`, then task
      `k` from the first reading they leave. */
  lemma ExecutedAllStep(handlers: map<string, Handler>, ts: seq<Task>, k: nat, clock: Clock, n: nat)
    requires k < |ts|
    ensures var before := ExecutedAll(handlers, ts[..k], clock, n);
      var last := Executed(handlers, ts[k], clock, before.next);
      ExecutedAll(handlers, ts[..k + 1], clock, n) == Runs(before.tasks + [last.task], last.next)
  {
    assert ts[..k + 1] == ts[..k] + [ts[k]];
    ExecutedAllSnoc(handlers, ts[..k], ts[k], clock, n);
  }

  /** A plan reads the clock for its first `k` tasks, then for the rest. */
  lemma {:induction false} ExecutedAllSplit(handlers: map<string, Handler>, ts: seq<Task>, k: nat, clock: Clock, n: nat)
    requires k <= |ts|
    ensures ExecutedAll(handlers, ts, clock, n).next
      == ExecutedAll(handlers, ts[k..], clock, ExecutedAll(handlers, ts[..k], clock, n).next).next
    decreases k
  {
    if k == 0 {
      assert ts[..0] == [] && ts[0..] == ts;
    } else {
      var m := Executed(handlers, ts[0], clock, n).next;
      ExecutedAllCons(handlers, ts, clock, n);
      ExecutedAllCons(handlers, ts[..k], clock, n);
      ExecutedAllSplit(handlers, ts[1..], k - 1, clock, m);
      assert ts[..k][0] == ts[0] && ts[..k][1..] == ts[1..][..k - 1];
      assert ts[1..][k - 1..] == ts[k..];
    }
  }

  /** The outcome of execute_task: a handler for the type decides between
      COMPLETED with its result and FAILED with the exception text, and the
      children are not run; without a handler every child is run, in order,
      and the task is COMPLETED with result None whatever its children's
      outcomes. Either way the task ends in a terminal status, started at
      its first clock reading and finished at its last. */
  lemma ExecutedOutcome(handlers: map<string, Handler>, t: Task, clock: Clock, n: nat)
    ensures var run := Executed(handlers, t, clock, n);
      var r := run.task;
      && r.status in {Completed, Failed}
      && r.startedAt == Some(Reading(clock, n)) && r.completedAt == Some(Reading(clock, run.next - 1))
      && r.taskId == t.taskId && r.description == t.description && r.parentId == t.parentId
      && var ty := TaskType(t.description);
         (ty in handlers ==>
           r.subtasks == t.subtasks && run.next == n + 2
           && match handlers[ty](Start(t, Reading(clock, n)))
              case Returned(v) => r.status == Completed && r.result == v && r.error == t.error
              case Raised(msg) => r.status == Failed && r.error == Some(msg) && r.result == t.result)
         && (ty !in handlers ==>
           && r.status == Completed && r.result == VNone && r.error == t.error
           && var children := ExecutedAll(handlers, t.subtasks, clock, n + 1);
              r.subtasks == children.tasks && run.next == children.next + 1)
  {
  }

  /** With a clock that never goes backwards, no task finishes before it
      starts. */
  lemma StartedBeforeCompleted(handlers: map<string, Handler>, t: Task, clock: Clock, n: nat)
    requires Monotone(clock)
    ensures var r := Executed(handlers, t, clock, n).task;
      r.startedAt.Some? && r.completedAt.Some? && r.startedAt.value <= r.completedAt.value
  {
    var run := Executed(handlers, t, clock, n);
    ExecutedOutcome(handlers, t, clock, n);
    assert Reading(clock, n) <= Reading(clock, run.next - 1);
  }

  /** Where child `i` of a task run without a handler starts reading the
      clock, and where it stops. */
  lemma ChildReadings(handlers: map<string, Handler>, t: Task, clock: Clock, n: nat, i: nat)
    requires TaskType(t.description) !in handlers && i < |t.subtasks|
    ensures var s := ExecutedAll(handlers, t.subtasks[..i], clock, n + 1).next;
      var child := Executed(handlers, t.subtasks[i], clock, s);
      && Executed(handlers, t, clock, n).task.subtasks[i] == child.task
      && n + 1 <= s && child.next <= ExecutedAll(handlers, t.subtasks, clock, n + 1).next
      && (i + 1 < |t.subtasks| ==> ExecutedAll(handlers, t.subtasks[..i + 1], clock, n + 1).next == child.next)
  {
    var s := ExecutedAll(handlers, t.subtasks[..i], clock, n + 1).next;
    ExecutedOutcome(handlers, t, clock, n);
    ExecutedAllAt(handlers, t.subtasks, clock, n + 1, i);
    ExecutedAllStep(handlers, t.subtasks, i, clock, n + 1);
    ExecutedAllSplit(handlers, t.subtasks, i + 1, clock, n + 1);
  }

  /** With a clock that never goes backwards, each child of a task run
      without a handler starts no earlier than the task started and
      finishes no later than the task finished. */
  lemma ChildWithinParent(handlers: map<string, Handler>, t: Task, clock: Clock, n: nat, i: nat)
    requires Monotone(clock)
    requires TaskType(t.description) !in handlers && i < |t.subtasks|
    ensures var r := Executed(handlers, t, clock, n).task;
      && r.startedAt.Some? && r.completedAt.Some?
      && r.subtasks[i].startedAt.Some? && r.subtasks[i].completedAt.Some?
      && r.startedAt.value <= r.subtasks[i].startedAt.value
      && r.subtasks[i].completedAt.value <= r.completedAt.value
  {
    var s := ExecutedAll(handlers, t.subtasks[..i], clock, n + 1).next;
    var child := Executed(handlers, t.subtasks[i], clock, s);
    var last := ExecutedAll(handlers, t.subtasks, clock, n + 1).next;
    ChildReadings(handlers, t, clock, n, i);
    ExecutedOutcome(handlers, t, clock, n);
    ExecutedOutcome(handlers, t.subtasks[i], clock, s);
    assert Reading(clock, n) <= Reading(clock, s);
    assert Reading(clock, child.next - 1) <= Reading(clock, last);
  }

  /** With a clock that never goes backwards, the children of a task run
      without a handler run one after the other: each finishes before the
      next one starts. */
  lemma ChildrenInOrder(handlers: map<string, Handler>, t: Task, clock: Clock, n: nat, i: nat)
    requires Monotone(clock)
    requires TaskType(t.description) !in handlers && i + 1 < |t.subtasks|
    ensures var r := Executed(handlers, t, clock, n).task;
      && r.subtasks[i].completedAt.Some? && r.subtasks[i + 1].startedAt.Some?
      && r.subtasks[i].completedAt.value <= r.subtasks[i + 1].startedAt.value
  {
    var s := ExecutedAll(handlers, t.subtasks[..i], clock, n + 1).next;
    var child := Executed(handlers, t.subtasks[i], clock, s);
    ChildReadings(handlers, t, clock, n, i);
    ChildReadings(handlers, t, clock, n, i + 1);
    ExecutedOutcome(handlers, t.subtasks[i], clock, s);
    ExecutedOutcome(handlers, t.subtasks[i + 1], clock, child.next);
    assert Reading(clock, child.next - 1) <= Reading(clock, child.next);
  }

  /** Two trees with the same ids, descriptions, parents and creation times,
      node for node. */
  predicate SameSkeleton(a: Task, b: Task)
    decreases a
  {
    && a.taskId == b.taskId && a.description == b.description
    && a.parentId == b.parentId && a.createdAt == b.createdAt
    && |a.subtasks| == |b.subtasks|
    && forall i :: 0 <= i < |a.subtasks| ==> SameSkeleton(a.subtasks[i], b.subtasks[i])
  }

  lemma {:induction false} SameSkeletonRefl(t: Task)
    ensures SameSkeleton(t, t)
    decreases t
  {
    forall i | 0 <= i < |t.subtasks| ensures SameSkeleton(t.subtasks[i], t.subtasks[i]) {
      SameSkeletonRefl(t.subtasks[i]);
    }
  }

  /** Execution never raises and never reshapes the tree: the result has the
      same tasks, node for node, as the input. */
  lemma {:induction false} ExecutedKeepsSkeleton(handlers: map<string, Handler>, t: Task, clock: Clock, n: nat)
    ensures SameSkeleton(Executed(handlers, t, clock, n).task, t)
    decreases t
  {
    var r := Executed(handlers, t, clock, n).task;
    if TaskType(t.description) in handlers {
      SameSkeletonRefl(t);
    } else {
      forall i | 0 <= i < |t.subtasks| ensures SameSkeleton(r.subtasks[i], t.subtasks[i]) {
        var s := ExecutedAll(handlers, t.subtasks[..i], clock, n + 1).next;
        ExecutedAllAt(handlers, t.subtasks, clock, n + 1, i);
        ExecutedKeepsSkeleton(handlers, t.subtasks[i], clock, s);
      }
    }
  }

  class ExecutionEngine {
    const memory: MemoryManager
    var handlers: map<string, Handler>

    constructor (memory: MemoryManager)
      ensures this.memory == memory && handlers == map[]
    {
      this.memory := memory;
      handlers := map[];
    }

    /** `register_task_handler`: the last registration for a type wins. */
    method RegisterTaskHandler(taskType: string, handler: Handler)
      modifies this
      ensures handlers == old(handlers)[taskType := handler]
    {
      handlers := handlers[taskType := handler];
    }

    /** `execute_task`: start, then either the handler for the type prefix or
        every subtask in order, as a plan is run; a raised exception becomes
        FAILED. The clock is read from `clock(n)` on, and `next` is the
        first reading left. */
    method ExecuteTask(task: Task, clock: Clock, n: nat) returns (done: Task, next: nat)
      ensures Run(done, next) == Executed(handlers, task, clock, n)
      decreases task, 1
    {
      var taskType := if ':' in task.description then Split(task.description, ':')[0] else "default";
      done := Start(task, Reading(clock, n));
      next := n + 1;
      if taskType in handlers {
        var outcome := handlers[taskType](done);
        match outcome {
          case Returned(v) => done := Complete(done, v, Reading(clock, next));
          case Raised(msg) => done := Fail(done, msg, Reading(clock, next));
        }
        next := next + 1;
      } else {
        var children;
        children, next := ExecutePlan(task.subtasks, clock, next);
        done := Complete(done.(subtasks := children), VNone, Reading(clock, next));
        next := next + 1;
      }
    }

    /** `execute_plan`: every task of the plan, in order, each reading the
        clock after the one before. */
    method ExecutePlan(tasks: seq<Task>, clock: Clock, n: nat) returns (done: seq<Task>, next: nat)
      ensures Runs(done, next) == ExecutedAll(handlers, tasks, clock, n)
      decreases tasks, 0
    {
      done := [];
      next := n;
      var k := 0;
      while k < |tasks|
        invariant 0 <= k <= |tasks|
        invariant Runs(done, next) == ExecutedAll(handlers, tasks[..k], clock, n)
      {
        var d, after := ExecuteTask(tasks[k], clock, next);
        ExecutedAllStep(handlers, tasks, k, clock, n);
        done := done + [d];
        next := after;
        k := k + 1;
      }
      assert tasks[..k] == tasks;
    }
  }

  // ---------------------------------------------------------------------
  // AgentManager

  /** The fixed five-stage breakdown of process_instruction. */
  const DefaultBreakdown: seq<string> := [
    "分析: 指示を分析",
    "計画: 実行計画を作成",
    "実行: タスクを実行",
    "検証: 結果を検証",
    "報告: 結果を報告"
  ]

  const CurrentTaskKey: string := "current_task"

  /** The record get_task_status returns for the current task. */
  function TaskStatusRecord(current: Option<Task>): (r: Value)
    ensures current.None? ==> r == VDict(map["status" := VStr("no_task")])
    ensures current.Some? ==> FromDict(r) == Ok(current.value)
  {
    match current
    case None => VDict(map["status" := VStr("no_task")])
    case Some(t) => RoundTrip(t); ToDict(t)
  }

  /** A saved task record is truthy and decodes to the task, so load_state
      after save_state restores the current task and reports success. */
  lemma SavedTaskReloads(t: Task)
    ensures Truthy(ToDict(t)) && FromDict(ToDict(t)) == Ok(t)
  {
    RoundTrip(t);
    assert "task_id" in ToDict(t).entries;
  }

  /** `main` has exactly the fixed breakdown as children: five fresh
      PENDING leaves `task_{first}` .. `task_{first + 4}` under `main`,
      with the fixed descriptions, no times, result or error, created at
      the successive clock readings from `clock(n)` on. */
  predicate FreshBreakdown(main: Task, first: nat, clock: Clock, n: nat)
  {
    && |main.subtasks| == |DefaultBreakdown|
    && CreatedInOrder(main.subtasks, DefaultBreakdown, main.taskId, first, clock, n)
  }

  /** A fresh root decomposed into the fixed breakdown is the root with
      exactly that breakdown as children. */
  lemma BreakdownCreated(main: Task, root: Task, created: seq<Task>, first: nat, clock: Clock, n: nat)
    requires root.subtasks == [] && main == root.(subtasks := root.subtasks + created)
    requires |created| == |DefaultBreakdown|
    requires CreatedInOrder(created, DefaultBreakdown, root.taskId, first, clock, n)
    ensures main == root.(subtasks := main.subtasks)
    ensures FreshBreakdown(main, first, clock, n)
  {
    assert main.subtasks == created;
  }

  /** The six ids a breakdown hands out, the root's and its children's,
      are pairwise distinct. */
  lemma BreakdownIdsDistinct(main: Task, first: nat, clock: Clock, n: nat)
    requires first >= 1 && main.taskId == TaskIdOf(first - 1)
    requires FreshBreakdown(main, first, clock, n)
    ensures forall i :: 0 <= i < |main.subtasks| ==> main.subtasks[i].taskId != main.taskId
    ensures forall i, j :: 0 <= i < j < |main.subtasks| ==> main.subtasks[i].taskId != main.subtasks[j].taskId
  {
    forall i | 0 <= i < |main.subtasks|
      ensures main.subtasks[i].taskId != main.taskId
    {
      if main.subtasks[i].taskId == main.taskId {
        TaskIdInjective(first + i, first - 1);
      }
    }
    forall i, j | 0 <= i < j < |main.subtasks|
      ensures main.subtasks[i].taskId != main.subtasks[j].taskId
    {
      if main.subtasks[i].taskId == main.subtasks[j].taskId {
        TaskIdInjective(first + i, first + j);
      }
    }
  }

  class AgentManager {
    const memory: MemoryManager
    const planner: TaskPlanner
    const engine: ExecutionEngine
    var currentTask: Option<Task>

    ghost predicate Valid()
      reads this, planner
    {
      planner.Valid()
    }

    constructor (stored: map<string, Value>)
      ensures Valid() && fresh(memory) && fresh(planner) && fresh(engine)
      ensures currentTask == None && planner.nextTaskId == 1
      ensures memory.longTermMemory == stored && engine.handlers == map[]
    {
      var m := new MemoryManager(stored);
      memory := m;
      planner := new TaskPlanner();
      engine := new ExecutionEngine(m);
      currentTask := None;
    }

    /** `process_instruction`: a new root task with the fixed five children
        replaces the current task. */
    method ProcessInstruction(instruction: string, clock: Clock, n: nat) returns (main: Task)
      requires Valid()
      modifies this, planner
      ensures Valid()
      ensures currentTask == Some(main)
      ensures main == NewTask(TaskIdOf(old(planner.nextTaskId)), instruction, None, Reading(clock, n)).(subtasks := main.subtasks)
      ensures FreshBreakdown(main, old(planner.nextTaskId) + 1, clock, n + 1)
      ensures planner.nextTaskId == old(planner.nextTaskId) + 6
    {
      var root := planner.CreateTask(instruction, None, Reading(clock, n));
      currentTask := Some(root);
      ghost var first := planner.nextTaskId;
      var created;
      main, created := planner.DecomposeTask(root, DefaultBreakdown, clock, n + 1);
      BreakdownCreated(main, root, created, first, clock, n + 1);
      currentTask := Some(main);
    }

    /** `execute_current_task`: None without a current task, otherwise the
        current task is executed as a one-element plan and its result is
        returned. */
    method ExecuteCurrentTask(clock: Clock, n: nat) returns (r: Value)
      modifies this
      ensures old(currentTask).None? ==> r == VNone && currentTask == None
      ensures old(currentTask).Some? ==>
        && currentTask == Some(Executed(engine.handlers, old(currentTask).value, clock, n).task)
        && r == currentTask.value.result
    {
      if currentTask.None? {
        return VNone;
      }
      var plan := PlanExecution([currentTask.value]);
      var done, _ := engine.ExecutePlan(plan, clock, n);
      currentTask := Some(done[0]);
      r := done[0].result;
    }

    /** `get_task_status`. */
    function GetTaskStatus(): (r: Value)
      reads this
      ensures currentTask.None? ==> r == VDict(map["status" := VStr("no_task")])
      ensures currentTask.Some? ==> FromDict(r) == Ok(currentTask.value)
    {
      TaskStatusRecord(currentTask)
    }

    /** `save_state`: the current task, if any, under "current_task". */
    method SaveState()
      modifies memory
      ensures currentTask.Some? ==>
        memory.longTermMemory == old(memory.longTermMemory)[CurrentTaskKey := ToDict(currentTask.value)]
      ensures currentTask.None? ==> memory.longTermMemory == old(memory.longTermMemory)
      ensures memory.workingMemory == old(memory.workingMemory)
    {
      if currentTask.Some? {
        memory.SaveLongTermMemory(CurrentTaskKey, ToDict(currentTask.value));
      }
    }

    /** `load_state`: a truthy "current_task" record replaces the current task
        and gives true; no record gives false; a record from_dict rejects is
        the exception load_state lets through, and nothing changes. */
    method LoadState() returns (r: Result<bool>)
      modifies this
      ensures var data := memory.LoadLongTermMemory(CurrentTaskKey, VNone);
        && (!Truthy(data) ==> r == Ok(false) && currentTask == old(currentTask))
        && (Truthy(data) && FromDict(data).Err? ==> r.Err? && currentTask == old(currentTask))
        && (Truthy(data) && FromDict(data).Ok? ==> r == Ok(true) && currentTask == Some(FromDict(data).value))
    {
      var data := memory.LoadLongTermMemory(CurrentTaskKey, VNone);
      if Truthy(data) {
        match FromDict(data) {
          case Err(e) => r := Err(e);
          case Ok(t) =>
            currentTask := Some(t);
            r := Ok(true);
        }
      } else {
        r := Ok(false);
      }
    }
  }
}
