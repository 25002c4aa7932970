/**
 The data model of node tasks (templates, tasks, per-node statuses, outputs and task groups)
 and the two deletion guards: a task may be deleted unless one of its nodes is executing it,
 a task group unless one of its tasks is recorded as executing in the group's own status.
 */
module TaskModel {

  /** A nil pointer is `None`. */
  datatype Option<T> = None | Some(value: T)

  /** A signed 64-bit integer (the width of Go's `int` and `int64` on the targeted platforms). */
  newtype Int64 = x: int | -0x8000_0000_0000_0000 <= x < 0x8000_0000_0000_0000

  /** An instant, as nanoseconds since the Unix epoch. Nothing here compares or computes with it. */
  type Time = int

  /** The only status word the guards look at; the others are create, init, complete and timeout. */
  const Exec: string := "exec"

  /** The script to run. */
  datatype Shell = Shell(cmd: seq<string>)

  /** A reusable task definition. */
  datatype TaskTemp = TaskTemp(
    name: string,
    id: string,
    shell: Shell,
    envs: map<string, string>,
    input: string,
    args: seq<string>,
    depends: seq<string>,
    timeout: Int64,
    outPutChan: string,   // "stdout" or "stderr", checked outside this model
    createTime: Time,
    labels: map<string, string>)

  /** The status of one node's run of a task. */
  datatype TaskStatus = TaskStatus(
    status: string,
    startTime: Time,
    endTime: Time,
    takeTime: Int64,
    compleStatus: string,
    shellCode: Int64)   // the script's exit code

  /** One classification record of an output. */
  datatype TaskOutPutStatus = TaskOutPutStatus(
    name: string,
    conditionType: string,
    conditionStatus: string)

  /** The output one node reports for a task; `kind` is the record's `type` (check, install or common). */
  datatype TaskOutPut = TaskOutPut(
    nodeId: string,
    global: map<string, string>,
    inner: map<string, string>,
    kind: string,
    status: seq<TaskOutPutStatus>)

  /** A unit of work sent to `nodes`; `status` is keyed by node id (a nil map is the empty map). */
  datatype Task = Task(
    name: string,
    id: string,
    tempId: string,
    temp: Option<TaskTemp>,
    nodes: seq<string>,
    timer: string,
    timeOut: Int64,
    retry: Int64,
    interval: Int64,
    status: map<string, TaskStatus>,
    createTime: Time,
    startTime: Time,
    completeTime: Time,
    resultPath: string,
    eventId: string,
    isOnce: bool,
    outPut: seq<Option<TaskOutPut>>)
  {
    /** No node of this task is executing it. */
    predicate NoNodeExecuting() {
      NoneExecuting(status)
    }

    /** Whether the task may be deleted: unless some node's status is exec. */
    method CanBeDelete() returns (ok: bool)
      ensures |status| == 0 ==> ok
      ensures ok <==> NoNodeExecuting()
      ensures !ok <==> exists node :: node in status && status[node].status == Exec
    {
      if |status| == 0 {
        return true;
      }
      ok := NoExecIn(status);
    }
  }

  /** The group's own view of its tasks; `taskStatus` is keyed by task id, not node id. */
  datatype TaskGroupStatus = TaskGroupStatus(
    taskStatus: map<string, TaskStatus>,
    initTime: Time,
    startTime: Time,
    endTime: Time,
    status: string)

  /** A named collection of tasks; `status` is a pointer that may be nil. */
  datatype TaskGroup = TaskGroup(
    name: string,
    id: string,
    tasks: seq<Option<Task>>,
    createTime: Time,
    status: Option<TaskGroupStatus>)
  {
    /** No task is recorded as executing in the group's own status (the member tasks are not consulted). */
    predicate NoTaskExecuting() {
      status.None? || NoneExecuting(status.value.taskStatus)
    }

    /** Whether the group may be deleted: unless its status records some task as exec. */
    method CanBeDelete() returns (ok: bool)
      ensures (status.None? || |status.value.taskStatus| == 0) ==> ok
      ensures ok <==> NoTaskExecuting()
      ensures !ok <==> status.Some? && exists tid :: tid in status.value.taskStatus && status.value.taskStatus[tid].status == Exec
    {
      if status.None? || |status.value.taskStatus| == 0 {
        return true;
      }
      ok := NoExecIn(status.value.taskStatus);
    }
  }

  predicate IsExecuting(s: TaskStatus) {
    s.status == Exec
  }

  /** The specification of both guards: no entry of the map has the status exec. */
  predicate NoneExecuting(m: map<string, TaskStatus>) {
    forall k :: k in m ==> !IsExecuting(m[k])
  }

  /**
   The `range` loop shared by both guards: visits the keys in whatever order the runtime
   chooses and stops at the first entry whose status is exec.
   */
  method NoExecIn(m: map<string, TaskStatus>) returns (ok: bool)
    ensures ok <==> NoneExecuting(m)
  {
    var remaining := m.Keys;
    while remaining != {}
      invariant remaining <= m.Keys
      invariant forall k :: k in m && k !in remaining ==> !IsExecuting(m[k])
      decreases remaining
    {
      var k :| k in remaining;
      if m[k].status == Exec {
        return false;
      }
      remaining := remaining - {k};
    }
    return true;
  }

  /** `order` lists every key of `m` exactly once: one possible iteration order of the map. */
  ghost predicate Enumerates(m: map<string, TaskStatus>, order: seq<string>) {
    && (forall i :: 0 <= i < |order| ==> order[i] in m)
    && (forall k :: k in m ==> k in order)
    && (forall i, j :: 0 <= i < j < |order| ==> order[i] != order[j])
  }

  /** The loop of the guards run over the keys in the given order, stopping at the first exec. */
  function ScanInOrder(m: map<string, TaskStatus>, order: seq<string>): (r: bool)
    requires forall i :: 0 <= i < |order| ==> order[i] in m
    ensures r <==> forall i :: 0 <= i < |order| ==> !IsExecuting(m[order[i]])
  {
    if order == [] then true
    else if m[order[0]].status == Exec then false
    else ScanInOrder(m, order[1..])
  }

  /** Every map has an iteration order. */
  ghost function SomeOrder(m: map<string, TaskStatus>): (order: seq<string>)
    ensures Enumerates(m, order)
    decreases |m|
  {
    if |m| == 0 then []
    else
      var k :| k in m;
      var rest := SomeOrder(m - {k});
      assert forall i :: 0 <= i < |rest| ==> rest[i] in m - {k};
      [k] + rest
  }

  /** Whatever order the map is visited in, the scan answers the specification. */
  lemma ScanOrderIndependent(m: map<string, TaskStatus>, order: seq<string>)
    requires Enumerates(m, order)
    ensures ScanInOrder(m, order) == NoneExecuting(m)
  {
  }

  /** Two iteration orders of the same map give the same answer. */
  lemma ScanAgreesAcrossOrders(m: map<string, TaskStatus>, o1: seq<string>, o2: seq<string>)
    requires Enumerates(m, o1) && Enumerates(m, o2)
    ensures ScanInOrder(m, o1) == ScanInOrder(m, o2)
  {
  }

  /** The status words present in a map. */
  function StatusWords(m: map<string, TaskStatus>): (words: set<string>)
    ensures forall k :: k in m ==> m[k].status in words
    ensures forall w :: w in words ==> exists k :: k in m && m[k].status == w
  {
    set k | k in m :: m[k].status
  }

  /** Only the status words decide the guard: keys and the other fields of TaskStatus do not. */
  lemma DecidedByStatusWords(m1: map<string, TaskStatus>, m2: map<string, TaskStatus>)
    requires StatusWords(m1) == StatusWords(m2)
    ensures NoneExecuting(m1) == NoneExecuting(m2)
  {
  }

  /** Replacing one entry by a status with the same word (any times, take time, sub-status or exit code) keeps the verdict. */
  lemma OtherFieldsIrrelevant(m: map<string, TaskStatus>, k: string, s: TaskStatus)
    requires k in m && s.status == m[k].status
    ensures NoneExecuting(m[k := s]) == NoneExecuting(m)
  {
    var m' := m[k := s];
    assert forall j :: j in m ==> j in m' && IsExecuting(m'[j]) == IsExecuting(m[j]);
  }

  /** The group guard does not look at the member tasks. */
  lemma GroupGuardIgnoresTasks(g: TaskGroup, tasks: seq<Option<Task>>)
    ensures g.(tasks := tasks).NoTaskExecuting() == g.NoTaskExecuting()
  {
  }

  /** A group may be deletable while one of its member tasks is not. */
  lemma GranularitiesDiffer()
    ensures exists g: TaskGroup, i ::
      0 <= i < |g.tasks| && g.tasks[i].Some? && !g.tasks[i].value.NoNodeExecuting() && g.NoTaskExecuting()
  {
    var running := TaskStatus(Exec, 0, 0, 0, "", 0);
    var done := TaskStatus("complete", 0, 0, 0, "", 0);
    var t := Task("install", "task-1", "", None, ["node-1"], "", 0, 0, 0,
                  map["node-1" := running], 0, 0, 0, "", "", true, []);
    var g := TaskGroup("group", "group-1", [Some(t)], 0,
                       Some(TaskGroupStatus(map["task-1" := done], 0, 0, 0, "exec")));
    assert IsExecuting(t.status["node-1"]);
    assert g.tasks[0] == Some(t);
  }
}
