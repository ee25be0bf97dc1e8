/** The goal "find an item carrying these tags and put it in this zone": its
    construction, its cost for a candidate creature, and its compilation into
    a `PutTaggedRoomItemAct` after re-validating the zone and its build
    designation against the current world. */
module PutItemWithTag {
  import opened Wrappers
  import opened World

  /** The task's `Name`, kept as the two values it is derived from; the exact
      text depends on formatting that is not part of this model. */
  datatype TaskName = PutItemName(tags: TagList, zoneId: ZoneId)

  /** `Zone` is a public field and may be null (`None`) although the
      two-argument constructor never leaves it so. */
  datatype PutItemWithTagTask = PutItemWithTagTask(name: TaskName, tags: TagList, zone: Option<Zone>)

  /** The constructor reads `zone.ID`, so a null zone makes it throw. */
  datatype ConstructError = NullZone

  /** Cost of a task whose zone is gone: high, but finite. */
  const SentinelCost: real := 1000.0

  /** Cost of a task whose zone is set. */
  const BaseCost: real := 1.0

  /** The two-argument constructor. */
  function New(tags: TagList, zone: Option<Zone>): (r: Result<PutItemWithTagTask, ConstructError>)
    ensures r.Ok? <==> zone.Some?
    ensures r.Err? ==> r.error == NullZone
    ensures r.Ok? ==> r.value.tags == tags && r.value.zone == zone
    ensures r.Ok? ==> r.value.name == PutItemName(tags, zone.value.id)
  {
    match zone
    case None => Err(NullZone)
    case Some(z) => Ok(PutItemWithTagTask(PutItemName(tags, z.id), tags, zone))
  }

  /** The cost of offering this task to `agent`. It never fails, and a
      missing zone is priced with the sentinel rather than rejected. */
  function ComputeCost(task: PutItemWithTagTask, agent: Creature): (cost: real)
    ensures cost == SentinelCost <==> task.zone.None?
    ensures cost == BaseCost <==> task.zone.Some?
    ensures 0.0 < cost <= SentinelCost
  {
    if task.zone.None? then SentinelCost else BaseCost
  }

  /** A query the task puts to the creature's room designator, with the room
      it asks about. */
  datatype Query = IsBuildDesignationQuery(room: ZoneId) | GetBuildDesignationQuery(room: ZoneId)

  /** The outcome of compiling the task, together with the designator queries
      issued on the way, in the order they were issued. */
  datatype Compilation = Compilation(script: Option<Act>, queries: seq<Query>)

  /** The full chain of queries, in the order the guards consult them. */
  function QueryChain(room: ZoneId): seq<Query>
  {
    [IsBuildDesignationQuery(room), GetBuildDesignationQuery(room)]
  }

  /** The guard chain of `CreateScript`: the zone must be a room, the room must
      be listed as a build designation, and the lookup of its designation must
      find one; only then is the act built. Each failed guard returns at once. */
  function Compile(task: PutItemWithTagTask, creature: Creature): (c: Compilation)
    ensures AsRoom(task.zone).None? ==> c.queries == []
    ensures AsRoom(task.zone).Some? ==>
      |c.queries| in {1, 2} && c.queries == QueryChain(task.zone.value.id)[..|c.queries|]
    ensures AsRoom(task.zone).Some? ==>
      (GetBuildDesignationQuery(task.zone.value.id) in c.queries <==>
       creature.faction.roomDesignator.IsBuildDesignation(task.zone.value))
    ensures c.script.Some? ==> AsRoom(task.zone).Some? && c.queries == QueryChain(task.zone.value.id)
  {
    match AsRoom(task.zone)
    case None => Compilation(None, [])
    case Some(room) =>
      var designator := creature.faction.roomDesignator;
      if !designator.IsBuildDesignation(room) then
        Compilation(None, [IsBuildDesignationQuery(room.id)])
      else
        var asked := QueryChain(room.id);
        match designator.GetBuildDesignation(room)
        case None => Compilation(None, asked)
        case Some(voxDesignation) =>
          Compilation(Some(PutTaggedRoomItemAct(creature.ai, voxDesignation.buildDesignation, task.tags)), asked)
  }

  /** `CreateScript`: the act for `creature`, or `None` for "no script". */
  function CreateScript(task: PutItemWithTagTask, creature: Creature): (r: Option<Act>)
    ensures AsRoom(task.zone).None? ==> r.None?
    ensures task.zone.None? ==> r.None?
    ensures AsRoom(task.zone).Some? && !creature.faction.roomDesignator.IsBuildDesignation(task.zone.value)
      ==> r.None?
    ensures AsRoom(task.zone).Some? && creature.faction.roomDesignator.GetBuildDesignation(task.zone.value).None?
      ==> r.None?
    ensures r.Some? <==>
      AsRoom(task.zone).Some?
      && creature.faction.roomDesignator.IsBuildDesignation(task.zone.value)
      && creature.faction.roomDesignator.GetBuildDesignation(task.zone.value).Some?
    ensures r.Some? ==>
      r.value == PutTaggedRoomItemAct(
        creature.ai,
        creature.faction.roomDesignator.GetBuildDesignation(task.zone.value).value.buildDesignation,
        task.tags)
  {
    Compile(task, creature).script
  }

  /** The result depends on the creature only through its AI and the two
      designator answers for the task's room; in particular, when the room is
      not listed, what the lookup would return plays no part. */
  lemma CreateScriptReadsOnlyTheRoomQueries(task: PutItemWithTagTask, c1: Creature, c2: Creature)
    requires c1.ai == c2.ai
    requires AsRoom(task.zone).Some? ==>
      var d1, d2, room := c1.faction.roomDesignator, c2.faction.roomDesignator, task.zone.value;
      d1.IsBuildDesignation(room) == d2.IsBuildDesignation(room)
      && (d1.IsBuildDesignation(room) ==> d1.GetBuildDesignation(room) == d2.GetBuildDesignation(room))
    ensures CreateScript(task, c1) == CreateScript(task, c2)
    ensures Compile(task, c1).queries == Compile(task, c2).queries
  {
  }

  /** Cost does not depend on the candidate. */
  lemma ComputeCostIgnoresAgent(task: PutItemWithTagTask, a1: Creature, a2: Creature)
    ensures ComputeCost(task, a1) == ComputeCost(task, a2)
  {
  }

  /** A task priced with the sentinel never compiles, for any creature. */
  lemma SentinelCostNeverCompiles(task: PutItemWithTagTask, agent: Creature, creature: Creature)
    requires ComputeCost(task, agent) == SentinelCost
    ensures CreateScript(task, creature).None?
  {
  }

  /** The converse fails: the base cost says nothing about feasibility, which
      is left to compilation. A task on a zone that is not a room is priced
      at the base cost and yet never compiles. */
  lemma BaseCostDoesNotImplyCompilation()
    ensures exists task: PutItemWithTagTask, creature: Creature ::
      ComputeCost(task, creature) == BaseCost && CreateScript(task, creature).None?
  {
    var tags: TagList := [];
    var task := PutItemWithTagTask(PutItemName(tags, 0), tags, Some(OtherZone(0)));
    var creature := Creature(0, Faction(RoomDesignator({0}, map[0 := VoxelBuildDesignation(RoomBuildDesignation(0))])));
    assert ComputeCost(task, creature) == BaseCost && CreateScript(task, creature).None?;
  }

  /** Every guard of the chain is the one that decides for some world: there
      is a task and creature rejected by the room guard, one rejected by the
      build-designation guard after one query, one rejected by the lookup
      guard after both queries, and one that compiles. */
  lemma EveryGuardDecidesSomewhere()
    ensures exists task: PutItemWithTagTask, creature: Creature ::
      task.zone.Some? && Compile(task, creature) == Compilation(None, [])
    ensures exists task: PutItemWithTagTask, creature: Creature ::
      Compile(task, creature).script.None? && |Compile(task, creature).queries| == 1
    ensures exists task: PutItemWithTagTask, creature: Creature ::
      Compile(task, creature).script.None? && |Compile(task, creature).queries| == 2
    ensures exists task: PutItemWithTagTask, creature: Creature ::
      Compile(task, creature).script.Some?
  {
    var tags: TagList := ["food"];
    var room := Room(7);
    var found := VoxelBuildDesignation(RoomBuildDesignation(3));
    var onRoom := PutItemWithTagTask(PutItemName(tags, 7), tags, Some(room));
    var onOther := PutItemWithTagTask(PutItemName(tags, 7), tags, Some(OtherZone(7)));
    var listedAndFound := Creature(1, Faction(RoomDesignator({7}, map[7 := found])));
    var unlisted := Creature(1, Faction(RoomDesignator({}, map[7 := found])));
    var listedNotFound := Creature(1, Faction(RoomDesignator({7}, map[])));
    assert Compile(onOther, listedAndFound) == Compilation(None, []);
    assert Compile(onRoom, unlisted).queries == [IsBuildDesignationQuery(7)];
    assert Compile(onRoom, listedNotFound).queries == QueryChain(7);
    assert Compile(onRoom, listedAndFound).script.Some?;
  }

  /** A freshly constructed task on a room whose build designation is listed
      and found compiles, for the creature asked, to the act carrying that
      creature's AI, the designation found and the task's own tags. */
  lemma NewTaskOnActiveRoomCompiles(tags: TagList, id: ZoneId, creature: Creature)
    requires id in creature.faction.roomDesignator.buildRooms
    requires id in creature.faction.roomDesignator.lookup
    ensures New(tags, Some(Room(id))).Ok?
    ensures CreateScript(New(tags, Some(Room(id))).value, creature)
      == Some(PutTaggedRoomItemAct(creature.ai, creature.faction.roomDesignator.lookup[id].buildDesignation, tags))
  {
  }
}
