/** The read-only world that a task consults: zones and rooms, a faction's room
    designator, the creature the task is offered to, and the act a task compiles
    to. Only the queries the task makes are modelled; their internals are not. */
module World {
  import opened Wrappers

  /** Identity of a zone (its `ID`). Designations are keyed by room identity. */
  type ZoneId = nat

  /** A tag filter; the task only stores it and passes it on. */
  type TagList = seq<string>

  /** Identity of a creature's AI component. */
  type AgentRef = nat

  /** A zone is either a `Room` or some other kind of zone. */
  datatype Zone = Room(id: ZoneId) | OtherZone(id: ZoneId)

  /** C#'s `zone as Room`: the same reference when it is a room, null otherwise
      (a null zone included). */
  function AsRoom(zone: Option<Zone>): (room: Option<Zone>)
    ensures room.Some? <==> zone.Some? && zone.value.Room?
    ensures room.Some? ==> room == zone
  {
    match zone
    case Some(Room(_)) => zone
    case _ => None
  }

  /** The room's own build designation, opaque to the task. */
  datatype RoomBuildDesignation = RoomBuildDesignation(id: nat)

  /** What the designator's lookup hands back; the task uses only its
      `BuildDesignation` field. */
  datatype VoxelBuildDesignation = VoxelBuildDesignation(buildDesignation: RoomBuildDesignation)

  /** A faction's room designator, seen through its two queries: which rooms
      are listed as build designations, and the (partial) lookup of a room's
      designation. The two are independent: a room may be listed while the
      lookup finds nothing for it. */
  datatype RoomDesignator = RoomDesignator(buildRooms: set<ZoneId>, lookup: map<ZoneId, VoxelBuildDesignation>)
  {
    predicate IsBuildDesignation(room: Zone)
      requires room.Room?
    {
      room.id in buildRooms
    }

    /** A missing key stands for the null the lookup returns. */
    function GetBuildDesignation(room: Zone): Option<VoxelBuildDesignation>
      requires room.Room?
    {
      if room.id in lookup then Some(lookup[room.id]) else None
    }
  }

  datatype Faction = Faction(roomDesignator: RoomDesignator)

  datatype Creature = Creature(ai: AgentRef, faction: Faction)

  /** The script a task compiles to, recorded as the three arguments it is
      built from; its stepping behaviour is not part of this model. */
  datatype Act = PutTaggedRoomItemAct(agent: AgentRef, designation: RoomBuildDesignation, tags: TagList)
}
