# Node task model and deletion guards

This project models the data model of Rainbond's node tasks, from `pkg/node/api/model/task.go`. It covers:

- a task template (`TaskTemp`) and its `Shell`;
- a task (`Task`) sent to a list of nodes, with one `TaskStatus` per node;
- the output a node reports (`TaskOutPut` with its `TaskOutPutStatus` records);
- a task group (`TaskGroup`) with its own `TaskGroupStatus`;
- the two deletion guards, `Task.CanBeDelete` and `TaskGroup.CanBeDelete`.

Everything is in the module `TaskModel` in `task.dfy`. Each struct is a datatype. A nil pointer is `Option.None`. A nil map and an empty map are the same empty Dafny map, because the code treats them alike. Status words stay plain strings, because the code compares raw strings. Only `"exec"` matters to the guards.

Both guards are methods on their datatypes. They share the `range` loop, `NoExecIn`. The loop takes keys in an arbitrary order (`:|`), just as Go leaves map iteration order unspecified. Each guard is proved equal to the predicate `NoneExecuting`: no entry of the map has the status `exec`. The same loop over an explicit, caller-chosen order is the function `ScanInOrder`. Lemmas show that every iteration order gives the specification's answer. They also show that only the status words decide the answer. Finally, they show that the group guard reads the group's own task-status map (keyed by task id) and never the member tasks' node maps.

## Model

| member | source | states |
|---|---|---|
| `TaskModel.Task.CanBeDelete` | pkg/node/api/model/task.go:89-99 | an empty (or nil) status map gives true; the result is false exactly when some node's status is `exec` |
| `TaskModel.TaskGroup.CanBeDelete` | pkg/node/api/model/task.go:150-160 | a nil group status or an empty task-status map gives true; the result is false exactly when the group status is present and some task id in it maps to `exec` |
| `TaskModel.NoExecIn` | pkg/node/api/model/task.go:93-98 | the early-return loop over the map, visiting keys in any order, returns true exactly when no entry has status `exec` |
| `TaskModel.ScanInOrder` | pkg/node/api/model/task.go:154-159 | the same loop over a given key order is true exactly when no visited key's status is `exec` |
| `TaskModel.SomeOrder` | pkg/node/api/model/task.go:93 | every status map has an iteration order that lists each key exactly once |
| `TaskModel.ScanOrderIndependent` | pkg/node/api/model/task.go:93-98 | for every iteration order of the map, the scan's answer equals "no entry is `exec`" |
| `TaskModel.ScanAgreesAcrossOrders` | pkg/node/api/model/task.go:154-159 | two iteration orders of the same map give the same answer |
| `TaskModel.DecidedByStatusWords` | pkg/node/api/model/task.go:94 | two maps with the same set of status words get the same verdict, whatever their keys and other fields |
| `TaskModel.OtherFieldsIrrelevant` | pkg/node/api/model/task.go:125-133 | replacing an entry by a status with the same word but different times, take time, completion sub-status or exit code leaves the verdict unchanged |
| `TaskModel.GroupGuardIgnoresTasks` | pkg/node/api/model/task.go:139 | the group guard gives the same answer whatever the member `Tasks` list holds |
| `TaskModel.GranularitiesDiffer` | pkg/node/api/model/task.go:150-160 | a group can be deletable while one of its member tasks has a node in `exec` and is not deletable |

## Left out

- `TaskTemp.String`, `Task.String` and `TaskGroup.String` (task.go:49-52, 83-86, 144-147): they only call an external JSON library and discard its error; its encoding rules are not part of this model.
- `ParseTaskOutPut` (task.go:112-115): it only calls the external JSON decoder; there is no local logic to model.
- The `validate:` struct tags (`required`, `uuid`, `numeric`, `in:stdout,stderr`): an external validation framework enforces them, so the model does not turn them into invariants.
- `time.Time` fields are plain integers (`Time`); nothing in the code compares or computes with them.
- Go's `int` and `int64` fields are the newtype `Int64`; no arithmetic is done on them, so no wrap-around arises.
- Retry and interval scheduling, `TimeOut` enforcement, `IsOnce`/`Timer` triggering, output appending and group-status aggregation: the fields are declared but the code has no logic for them.
- Value receivers: the guards take their receiver by value. Datatype values in Dafny are immutable, and the methods have no `modifies` clause, so they cannot change any state. No separate contract states "the task after the call equals the one before".
- Concurrent status reports from nodes, transport and persistence live outside this file.
