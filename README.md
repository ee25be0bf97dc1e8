# PutItemWithTagTask, modelled in Dafny

This project models the DwarfCorp task `PutItemWithTagTask`. The task tells a
creature to find an item carrying a given tag list and put it into a given
zone. It does two things:

- It prices itself for a candidate creature with `ComputeCost`. The price is a
  sentinel 1000 when the zone is missing and 1.0 otherwise.
- It compiles itself into a script with `CreateScript`. A chain of
  early-return guards re-validates the world: the zone must be a `Room`, the
  faction's room designator must list the room as a build designation, and
  the designator's lookup must find a designation for it. Only then is a
  `PutTaggedRoomItemAct` built from the creature's AI, the found
  `BuildDesignation` and the task's tags. Any failed guard yields "no
  script".

Files:

- `wrappers.dfy` has `Option` (a reference that may be null) and `Result` (a
  call that may throw).
- `world.dfy` has the read-only world the task consults. Zones are either
  `Room` or another kind of zone, and `AsRoom` is C#'s `as Room`. A
  `RoomDesignator` is seen only through its two queries: the set of rooms it
  lists as build designations (`IsBuildDesignation`), and a partial map that
  gives a room's `VoxelBuildDesignation` (`GetBuildDesignation`, where a
  missing key is a null result). The two are independent. A creature is its
  AI reference and its faction. The act is an opaque record of its three
  constructor arguments.
- `put_item_with_tag_task.dfy` has the task record, the two-argument
  constructor `New`, `ComputeCost`, the guard chain `Compile`, `CreateScript`
  and the lemmas about them.

`Compile` returns the script together with a record of the designator
queries it issued, in order; this record is bookkeeping written alongside the
guards. The guard order itself is stated by
`CreateScriptReadsOnlyTheRoomQueries`: the script depends only on the
creature's AI and the designator's two answers for the task's room, and when
the room is not listed the lookup's answer plays no part. `CreateScript` is
the script part of `Compile`.

All operations are Dafny functions over values. They cannot change the task
or the world, and the same task and world always give the same outcome. This
matches the source, where `CreateScript` and `ComputeCost` only read.

## Model

| member | source | states |
|---|---|---|
| World.AsRoom | VoxelTest/VoxelTest/Scripting/TaskManagement/Tasks/PutItemWithTagTask.cs:32 | `zone as Room` gives a room exactly when the zone is present and is a room, and then it is that same zone; a null zone or a non-room gives null |
| PutItemWithTag.New | VoxelTest/VoxelTest/Scripting/TaskManagement/Tasks/PutItemWithTagTask.cs:23-28 | the constructor succeeds exactly when the zone is non-null and then stores exactly the given tags and zone, with a name derived from the tags and the zone's id; a null zone fails with `NullZone` because `zone.ID` is read |
| PutItemWithTag.ComputeCost | VoxelTest/VoxelTest/Scripting/TaskManagement/Tasks/PutItemWithTagTask.cs:54-57 | the cost is 1000 exactly when the zone is null and 1.0 exactly when it is not; it is always finite, positive and at most 1000 |
| PutItemWithTag.Compile | VoxelTest/VoxelTest/Scripting/TaskManagement/Tasks/PutItemWithTagTask.cs:30-52 | no designator query is made unless the zone is a room; otherwise the queries made are a non-empty prefix of the build-designation check followed by the lookup, both about the task's room; the lookup is made exactly when the check held; a script is produced only after both queries |
| PutItemWithTag.CreateScript | VoxelTest/VoxelTest/Scripting/TaskManagement/Tasks/PutItemWithTagTask.cs:30-52 | no script when the zone is null or not a room, when the room is not listed as a build designation, or when the lookup finds nothing; a script exactly when all three guards pass, and then it is the act holding the creature's AI, the found designation's `BuildDesignation` and the task's tags |
| PutItemWithTag.CreateScriptReadsOnlyTheRoomQueries | VoxelTest/VoxelTest/Scripting/TaskManagement/Tasks/PutItemWithTagTask.cs:38-51 | two creatures with the same AI whose designators answer the same for the task's room give the same script and issue the same queries; when the room is not listed, the lookup's answer does not matter |
| PutItemWithTag.ComputeCostIgnoresAgent | VoxelTest/VoxelTest/Scripting/TaskManagement/Tasks/PutItemWithTagTask.cs:54-57 | the cost of a task is the same for every candidate creature |
| PutItemWithTag.SentinelCostNeverCompiles | VoxelTest/VoxelTest/Scripting/TaskManagement/Tasks/PutItemWithTagTask.cs:30-57 | a task priced at the sentinel 1000 gives no script for any creature |
| PutItemWithTag.BaseCostDoesNotImplyCompilation | VoxelTest/VoxelTest/Scripting/TaskManagement/Tasks/PutItemWithTagTask.cs:30-57 | some task is priced at 1.0 and still gives no script, so feasibility is decided by compilation and not by cost |
| PutItemWithTag.EveryGuardDecidesSomewhere | VoxelTest/VoxelTest/Scripting/TaskManagement/Tasks/PutItemWithTagTask.cs:32-51 | none of the three guards is dead: for each guard some non-null task and creature are rejected by that guard after exactly the queries before it, and some task and creature compile |
| PutItemWithTag.NewTaskOnActiveRoomCompiles | VoxelTest/VoxelTest/Scripting/TaskManagement/Tasks/PutItemWithTagTask.cs:23-51 | a task built on a room that the designator lists and can look up compiles to the act with the creature's AI, that designation's `BuildDesignation` and the tags given to the constructor |

## Left out

- The parameterless constructor used by deserialisation, and the JSON `IsReference` attribute: they are persistence concerns. The model still allows a task whose zone is null, since `Zone` is a public field.
- The exact text of `Name`: it depends on how `TagList` and `Zone.ID` are turned into text, which is not part of this model. `Name` is kept as the pair of values it is built from.
- The behaviour of `PutTaggedRoomItemAct`, the stepping of acts, and the machinery that assigns tasks to creatures: none of it is part of this model. The act is an opaque record of its three arguments.
- The internals of `RoomDesignator`, `Zone`/`Room`, `Creature`, `Faction`, `CreatureAI` and `TagList`: only the queries the task makes are modelled. Room identity is the zone's id.
- A null `creature`, a null `Faction` or a null `RoomDesignator`: `CreateScript` throws on them only when the zone is a `Room` (line 38); the model takes them as present. For any other zone the source returns null first, and the model gives `None` for every creature. `ComputeCost` never reads its argument.
- A null `tags` or a null creature AI: the source stores and passes them on (lines 25-26 and 51), and the model represents them as ordinary values that are passed through unchanged.
- A null `BuildDesignation` inside a found `VoxelBuildDesignation`: the source passes it on unchanged; the model treats the designation as an opaque value.
- The `float` type of the cost: only the constants 1000 and 1.0 occur, so costs are Dafny reals.
- `DwarfCorp/DwarfCorpXNA/DwarfGame.cs`: it is application start-up, graphics, content, sound and settings plumbing, with no task logic.
