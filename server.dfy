/** The example SpacetimeDB module that runs a Bevy app on every scheduled
    tick: the `entity` table, the reducers that turn client requests into
    Bevy events, the three chained Bevy systems that turn those events into
    queued table writes, and the tick reducer that ties the three phases
    together. */
module Server {
  import opened Wrappers
  import opened ServerBridge

  // ---------------------------------------------------------------------
  // Table and event types
  // ---------------------------------------------------------------------

  /** A position or a direction. The source uses `f32` components; here they
      are exact integers. */
  datatype Vec2 = Vec2(x: int, y: int)

  function Plus(a: Vec2, b: Vec2): Vec2
  {
    Vec2(a.x + b.x, a.y + b.y)
  }

  /** Where a new player's entity starts. */
  const Origin: Vec2 := Vec2(0, 0)

  /** A row of the `entity` table. */
  datatype EntityRow = EntityRow(entityId: nat, position: Vec2, ownerIdentity: Identity)

  /** The `entity` table, rows in iteration order. */
  type EntityTable = seq<EntityRow>

  /** The table's constraints: `entity_id` is the primary key and
      `owner_identity` is a unique column. */
  ghost predicate TableValid(t: EntityTable)
  {
    forall i, j :: 0 <= i < j < |t| ==>
      t[i].entityId != t[j].entityId && t[i].ownerIdentity != t[j].ownerIdentity
  }

  /** `entity().iter().any(|e| e.owner_identity == owner)`. */
  predicate OwnsEntity(t: EntityTable, owner: Identity)
  {
    exists i | 0 <= i < |t| :: t[i].ownerIdentity == owner
  }

  /** Some row has primary key `id`. */
  predicate HasEntityId(t: EntityTable, id: nat)
  {
    exists i | 0 <= i < |t| :: t[i].entityId == id
  }

  /** `entity().owner_identity().find(owner)`: the row owned by `owner`. */
  function FindByOwner(t: EntityTable, owner: Identity): (r: Option<EntityRow>)
    ensures r.Some? <==> OwnsEntity(t, owner)
    ensures r.Some? ==> r.value in t && r.value.ownerIdentity == owner
    decreases |t|
  {
    if |t| == 0 then None
    else if t[0].ownerIdentity == owner then Some(t[0])
    else
      var r := FindByOwner(t[1..], owner);
      assert OwnsEntity(t, owner) ==> OwnsEntity(t[1..], owner) by {
        if OwnsEntity(t, owner) {
          var i :| 0 <= i < |t| && t[i].ownerIdentity == owner;
          assert t[1..][i - 1] == t[i];
        }
      }
      assert OwnsEntity(t[1..], owner) ==> OwnsEntity(t, owner) by {
        if OwnsEntity(t[1..], owner) {
          var i :| 0 <= i < |t[1..]| && t[1..][i].ownerIdentity == owner;
          assert t[i + 1] == t[1..][i];
        }
      }
      r
  }

  /** In a valid table the lookup by owner finds the one row that owner has. */
  lemma {:induction false} FindByOwnerIsTheOwnersRow(t: EntityTable, i: nat)
    requires TableValid(t) && i < |t|
    ensures FindByOwner(t, t[i].ownerIdentity) == Some(t[i])
    decreases |t|
  {
    if i > 0 {
      assert t[0].ownerIdentity != t[i].ownerIdentity;
      assert t[1..][i - 1] == t[i];
      FindByOwnerIsTheOwnersRow(t[1..], i - 1);
    }
  }

  /** A Bevy event asking for a new player entity. */
  datatype InstantiateEntityEvent = InstantiateEntityEvent(ownerIdentity: Identity, position: Vec2)

  /** A Bevy event carrying one movement input for entity `playerId`. */
  datatype PlayerInputEvent = PlayerInputEvent(playerId: nat, direction: Vec2)

  /** The two event types the app registers; the world's event log holds
      both, and each reader sees its own type. */
  datatype ServerEvent = Instantiate(instantiate: InstantiateEntityEvent) | PlayerInput(input: PlayerInputEvent)

  /** What an `EventReader<InstantiateEntityEvent>` reads from the log. */
  function InstantiateEvents(es: seq<ServerEvent>): seq<InstantiateEntityEvent>
    decreases |es|
  {
    if |es| == 0 then []
    else
      InstantiateEvents(es[..|es| - 1])
      + (match es[|es| - 1] case Instantiate(e) => [e] case PlayerInput(_) => [])
  }

  /** What an `EventReader<PlayerInputEvent>` reads from the log. */
  function InputEvents(es: seq<ServerEvent>): seq<PlayerInputEvent>
    decreases |es|
  {
    if |es| == 0 then []
    else
      InputEvents(es[..|es| - 1])
      + (match es[|es| - 1] case PlayerInput(e) => [e] case Instantiate(_) => [])
  }

  // ---------------------------------------------------------------------
  // Database commands queued by the systems
  // ---------------------------------------------------------------------

  /** The closures the systems queue, by what they capture. */
  datatype EntityCommand =
    | InsertEntity(row: EntityRow)
    | UpdatePosition(entityId: nat, position: Vec2)

  /** The message `try_insert` reports when a constrained column already
      holds the value. */
  const UniqueConstraintViolation: string := "unique constraint violation"

  /** `entity().try_insert(row)`: fails on a taken primary key or owner. */
  function TryInsert(t: EntityTable, row: EntityRow): Result<EntityTable, string>
  {
    if HasEntityId(t, row.entityId) || OwnsEntity(t, row.ownerIdentity) then Err(UniqueConstraintViolation)
    else Ok(t + [row])
  }

  /** `try_insert` refuses exactly the rows that would break a constraint,
      and accepting one keeps the table valid. */
  lemma TryInsertKeepsTableValid(t: EntityTable, row: EntityRow)
    requires TableValid(t)
    ensures TryInsert(t, row).Err? <==> HasEntityId(t, row.entityId) || OwnsEntity(t, row.ownerIdentity)
    ensures TryInsert(t, row).Ok? ==> TableValid(TryInsert(t, row).value)
  {
  }

  /** The table after `entity_id().update(row)` with `row` the first row
      with primary key `id` and its position replaced by `pos`. */
  function SetPosition(t: EntityTable, id: nat, pos: Vec2): (r: EntityTable)
    ensures |r| == |t|
    decreases |t|
  {
    if |t| == 0 then []
    else if t[0].entityId == id then [t[0].(position := pos)] + t[1..]
    else [t[0]] + SetPosition(t[1..], id, pos)
  }

  /** In a valid table, the update changes the position of the row with that
      primary key and nothing else, and the table stays valid. */
  lemma {:induction false} SetPositionOnlyThatRow(t: EntityTable, id: nat, pos: Vec2)
    requires TableValid(t)
    ensures forall i :: 0 <= i < |t| ==>
              SetPosition(t, id, pos)[i] == if t[i].entityId == id then t[i].(position := pos) else t[i]
    ensures TableValid(SetPosition(t, id, pos))
    decreases |t|
  {
    if |t| > 0 {
      var r := SetPosition(t, id, pos);
      assert TableValid(t[1..]) by {
        forall i, j | 0 <= i < j < |t[1..]|
          ensures t[1..][i].entityId != t[1..][j].entityId && t[1..][i].ownerIdentity != t[1..][j].ownerIdentity
        {
          assert t[1..][i] == t[i + 1] && t[1..][j] == t[j + 1];
        }
      }
      SetPositionOnlyThatRow(t[1..], id, pos);
      if t[0].entityId == id {
        forall i | 0 < i < |t| ensures r[i] == t[i] && t[i].entityId != id {
          assert t[0].entityId != t[i].entityId;
        }
      } else {
        forall i | 0 < i < |t|
          ensures r[i] == if t[i].entityId == id then t[i].(position := pos) else t[i]
        {
          assert r[i] == SetPosition(t[1..], id, pos)[i - 1];
          assert t[1..][i - 1] == t[i];
        }
      }
    }
  }

  /** Running one queued closure against the `entity` table: the insert
      closure of `instantiate_entity_system` and the position-update closure
      of `update_stdb_position_system`. */
  function ExecEntityCommand(cmd: EntityCommand, t: EntityTable): (EntityTable, CommandResult)
  {
    match cmd
    case InsertEntity(row) =>
      (match TryInsert(t, row)
       case Ok(t') => (t', Ok(None))
       case Err(e) => (t, Err(e)))
    case UpdatePosition(id, pos) =>
      if HasEntityId(t, id) then (SetPosition(t, id, pos), Ok(None))
      else (t, Ok(None))
  }

  /** The insert closure reports `Err` and leaves the table as it was when
      the id or the owner is taken; otherwise it adds the captured row and
      reports `Ok(None)`. */
  lemma InsertCommandOutcome(t: EntityTable, row: EntityRow)
    ensures var out := ExecEntityCommand(InsertEntity(row), t);
            if HasEntityId(t, row.entityId) || OwnsEntity(t, row.ownerIdentity)
            then out.0 == t && out.1.Err?
            else out.0 == t + [row] && out.1 == Ok(None)
  {
  }

  /** The update closure always reports `Ok(None)`; in a valid table it moves
      only the row with that id, and without such a row it changes nothing. */
  lemma UpdateCommandOutcome(t: EntityTable, id: nat, pos: Vec2)
    requires TableValid(t)
    ensures var out := ExecEntityCommand(UpdatePosition(id, pos), t);
            && out.1 == Ok(None)
            && |out.0| == |t|
            && (forall i :: 0 <= i < |t| ==> out.0[i] == if t[i].entityId == id then t[i].(position := pos) else t[i])
            && (!HasEntityId(t, id) ==> out.0 == t)
  {
    SetPositionOnlyThatRow(t, id, pos);
  }

  /** Every queued closure keeps the table's constraints. */
  lemma ExecEntityCommandKeepsTableValid(cmd: EntityCommand, t: EntityTable)
    requires TableValid(t)
    ensures TableValid(ExecEntityCommand(cmd, t).0)
  {
    match cmd
    case InsertEntity(row) => TryInsertKeepsTableValid(t, row);
    case UpdatePosition(id, pos) => SetPositionOnlyThatRow(t, id, pos);
  }

  /** Draining any command queue keeps the table's constraints. */
  lemma {:induction false} RunEntityCommandsKeepsTableValid(cmds: seq<DbCommand<EntityCommand>>, t: EntityTable)
    requires TableValid(t)
    ensures TableValid(RunCommands(ExecEntityCommand, cmds, t).0)
    decreases |cmds|
  {
    if |cmds| > 0 {
      ExecEntityCommandKeepsTableValid(cmds[0].closure, t);
      RunEntityCommandsKeepsTableValid(cmds[1..], ExecEntityCommand(cmds[0].closure, t).0);
    }
  }

  /** A failing insert does not stop the commands queued after it: a
      duplicate insert followed by a move still moves the row. */
  lemma FailedInsertDoesNotStopLaterCommands(t: EntityTable, i: nat, dup: EntityRow, pos: Vec2)
    requires TableValid(t) && i < |t| && dup.entityId == t[i].entityId
    ensures var cmds := [ExecuteClosure(InsertEntity(dup)), ExecuteClosure(UpdatePosition(t[i].entityId, pos))];
            var out := RunCommands(ExecEntityCommand, cmds, t);
            && out.1[0].Err? && out.1[1] == Ok(None)
            && |out.0| == |t| && out.0[i] == t[i].(position := pos)
  {
    assert HasEntityId(t, dup.entityId);
    assert HasEntityId(t, t[i].entityId);
    SetPositionOnlyThatRow(t, t[i].entityId, pos);
    RunTwoCommands(ExecEntityCommand, InsertEntity(dup), UpdatePosition(t[i].entityId, pos), t);
  }

  // ---------------------------------------------------------------------
  // Bevy state and the three chained systems, as functions
  // ---------------------------------------------------------------------

  /** A Bevy entity with a `Position`; `changed` is true when the position
      was added or written since `update_stdb_position_system` last ran. */
  datatype BevyEntity = BevyEntity(index: nat, position: Vec2, changed: bool)

  /** The app state the systems touch: the event log, the entities in query
      order, the index the next spawned entity gets, and the command queue. */
  datatype GameState = GameState(events: seq<ServerEvent>, entities: seq<BevyEntity>,
                                 nextIndex: nat, queue: seq<DbCommand<EntityCommand>>)

  /** The insert command queued for event `e` spawned as entity `index`. */
  function InsertCommand(index: nat, e: InstantiateEntityEvent): DbCommand<EntityCommand>
  {
    ExecuteClosure(InsertEntity(EntityRow(index, e.position, e.ownerIdentity)))
  }

  /** `instantiate_entity_system` over the events `evs` it reads. */
  function Spawn(s: GameState, evs: seq<InstantiateEntityEvent>): GameState
    decreases |evs|
  {
    if |evs| == 0 then s
    else
      var before := Spawn(s, evs[..|evs| - 1]);
      var e := evs[|evs| - 1];
      before.(entities := before.entities + [BevyEntity(before.nextIndex, e.position, true)],
              nextIndex := before.nextIndex + 1,
              queue := before.queue + [InsertCommand(before.nextIndex, e)])
  }

  /** Each event read spawns one entity at the event's position and queues
      one insert of that entity's row, in event order; nothing else changes. */
  lemma {:induction false} SpawnOnePerEvent(s: GameState, evs: seq<InstantiateEntityEvent>)
    ensures var r := Spawn(s, evs);
            && r.events == s.events
            && r.nextIndex == s.nextIndex + |evs|
            && |r.queue| == |s.queue| + |evs| && r.queue[..|s.queue|] == s.queue
            && (forall i :: 0 <= i < |evs| ==> r.queue[|s.queue| + i] == InsertCommand(s.nextIndex + i, evs[i]))
            && |r.entities| == |s.entities| + |evs| && r.entities[..|s.entities|] == s.entities
            && (forall i :: 0 <= i < |evs| ==>
                  r.entities[|s.entities| + i] == BevyEntity(s.nextIndex + i, evs[i].position, true))
    decreases |evs|
  {
    if |evs| > 0 {
      var init := evs[..|evs| - 1];
      SpawnOnePerEvent(s, init);
      var r := Spawn(s, evs);
      forall i | 0 <= i < |init| ensures init[i] == evs[i] { }
    }
  }

  /** `e` after an input moved it. Writing through `Mut<Position>` marks
      the component changed. */
  function Moved(e: BevyEntity, direction: Vec2): BevyEntity
  {
    e.(position := Plus(e.position, direction), changed := true)
  }

  /** No entity before position `k` has index `id`. */
  ghost predicate NoIndexBefore(es: seq<BevyEntity>, id: nat, k: nat)
    requires k <= |es|
  {
    forall j :: 0 <= j < k ==> es[j].index != id
  }

  /** One input event applied by `apply_player_movement_system`: the first
      entity whose index matches is moved, and the search stops there. */
  function MoveFirst(es: seq<BevyEntity>, ev: PlayerInputEvent): (r: seq<BevyEntity>)
    ensures |r| == |es|
    decreases |es|
  {
    if |es| == 0 then []
    else if es[0].index == ev.playerId then [Moved(es[0], ev.direction)] + es[1..]
    else [es[0]] + MoveFirst(es[1..], ev)
  }

  /** When entity `j` is the first with the event's index, exactly that
      entity is moved. */
  lemma {:induction false} MoveFirstAt(es: seq<BevyEntity>, ev: PlayerInputEvent, j: nat)
    requires j < |es| && es[j].index == ev.playerId && NoIndexBefore(es, ev.playerId, j)
    ensures MoveFirst(es, ev) == es[j := Moved(es[j], ev.direction)]
    decreases |es|
  {
    if j > 0 {
      assert es[0].index != ev.playerId;
      MoveFirstAt(es[1..], ev, j - 1);
      assert es[1..][j - 1 := Moved(es[j], ev.direction)] == es[j := Moved(es[j], ev.direction)][1..];
    }
  }

  /** An input for an index no entity has changes nothing. */
  lemma {:induction false} MoveFirstNoMatch(es: seq<BevyEntity>, ev: PlayerInputEvent)
    requires NoIndexBefore(es, ev.playerId, |es|)
    ensures MoveFirst(es, ev) == es
    decreases |es|
  {
    if |es| > 0 {
      assert es[0].index != ev.playerId;
      MoveFirstNoMatch(es[1..], ev);
      assert [es[0]] + es[1..] == es;
    }
  }

  /** All input events read, applied in order. */
  function MoveAll(es: seq<BevyEntity>, evs: seq<PlayerInputEvent>): seq<BevyEntity>
    decreases |evs|
  {
    if |evs| == 0 then es
    else MoveFirst(MoveAll(es, evs[..|evs| - 1]), evs[|evs| - 1])
  }

  /** The update commands `update_stdb_position_system` queues: one per
      changed entity, in query order, carrying its index and position. */
  function ChangedUpdates(es: seq<BevyEntity>): seq<DbCommand<EntityCommand>>
    decreases |es|
  {
    if |es| == 0 then []
    else
      var e := es[|es| - 1];
      ChangedUpdates(es[..|es| - 1])
      + (if e.changed then [ExecuteClosure(UpdatePosition(e.index, e.position))] else [])
  }

  /** The positions, in query order, of the entities marked changed: each
      such position once, in increasing order, and no other. */
  function ChangedIndices(es: seq<BevyEntity>): (r: seq<nat>)
    ensures forall k :: 0 <= k < |r| ==> r[k] < |es| && es[r[k]].changed
    ensures forall k, l :: 0 <= k < l < |r| ==> r[k] < r[l]
    ensures forall i :: 0 <= i < |es| && es[i].changed ==> i in r
    decreases |es|
  {
    if |es| == 0 then []
    else
      var init := ChangedIndices(es[..|es| - 1]);
      init + (if es[|es| - 1].changed then [|es| - 1] else [])
  }

  /** The updates queued pair off, in order, with the changed entities:
      the k-th update carries the index and current position of the k-th
      changed entity, so there is one update per changed entity and none
      for an unchanged one. */
  lemma {:induction false} ChangedUpdatesExact(es: seq<BevyEntity>)
    ensures var ix := ChangedIndices(es);
            && |ChangedUpdates(es)| == |ix|
            && forall k :: 0 <= k < |ix| ==>
                 ChangedUpdates(es)[k] == ExecuteClosure(UpdatePosition(es[ix[k]].index, es[ix[k]].position))
    decreases |es|
  {
    if |es| > 0 {
      var init := es[..|es| - 1];
      ChangedUpdatesExact(init);
      var ix0, ix := ChangedIndices(init), ChangedIndices(es);
      var cs0, cs := ChangedUpdates(init), ChangedUpdates(es);
      forall k | 0 <= k < |ix|
        ensures cs[k] == ExecuteClosure(UpdatePosition(es[ix[k]].index, es[ix[k]].position))
      {
        if k < |ix0| {
          assert ix[k] == ix0[k] && cs[k] == cs0[k] && es[ix0[k]] == init[ix0[k]];
        }
      }
    }
  }

  /** Every changed entity gets an update with its current position, and
      every update queued belongs to a changed entity. */
  lemma ChangedUpdatesMembership(es: seq<BevyEntity>)
    ensures forall i :: 0 <= i < |es| && es[i].changed ==>
              ExecuteClosure(UpdatePosition(es[i].index, es[i].position)) in ChangedUpdates(es)
    ensures forall c :: c in ChangedUpdates(es) ==>
              exists i :: 0 <= i < |es| && es[i].changed && c == ExecuteClosure(UpdatePosition(es[i].index, es[i].position))
  {
    ChangedUpdatesExact(es);
    var cs, ix := ChangedUpdates(es), ChangedIndices(es);
    forall i | 0 <= i < |es| && es[i].changed
      ensures ExecuteClosure(UpdatePosition(es[i].index, es[i].position)) in cs
    {
      var k :| 0 <= k < |ix| && ix[k] == i;
      assert cs[k] == ExecuteClosure(UpdatePosition(es[i].index, es[i].position));
    }
    forall c | c in cs
      ensures exists i :: 0 <= i < |es| && es[i].changed && c == ExecuteClosure(UpdatePosition(es[i].index, es[i].position))
    {
      var k :| 0 <= k < |cs| && cs[k] == c;
      assert es[ix[k]].changed;
    }
  }

  /** No entity changed means no update is queued. */
  lemma {:induction false} ChangedUpdatesNone(es: seq<BevyEntity>)
    requires forall i :: 0 <= i < |es| ==> !es[i].changed
    ensures ChangedUpdates(es) == []
    decreases |es|
  {
    if |es| > 0 {
      ChangedUpdatesNone(es[..|es| - 1]);
    }
  }

  /** The entities after `update_stdb_position_system` ran: nothing counts as
      changed until it is written again. */
  function ClearChanged(es: seq<BevyEntity>): (r: seq<BevyEntity>)
  {
    seq(|es|, i requires 0 <= i < |es| => es[i].(changed := false))
  }

  /** One `App::update()`: the three systems in their chained order; every
      event sent before it has been read afterwards. */
  function Update(s: GameState): GameState
  {
    var spawned := Spawn(s, InstantiateEvents(s.events));
    var moved := MoveAll(spawned.entities, InputEvents(s.events));
    GameState([], ClearChanged(moved), spawned.nextIndex, spawned.queue + ChangedUpdates(moved))
  }

  /** Everything one tick leaves behind. */
  datatype TickResult = TickResult(pending: seq<BevyWorldAction<ServerEvent>>, game: GameState, table: EntityTable)

  /** `process_tick` with an app: drain pending actions (unless the lock is
      held), run one update, then drain the command queue into the table. */
  function Tick(pending: seq<BevyWorldAction<ServerEvent>>, held: bool, s: GameState, t: EntityTable): TickResult
  {
    var events := if held then s.events else ExecuteAll(pending, s.events);
    var left := if held then pending else [];
    var updated := Update(s.(events := events));
    TickResult(left, updated.(queue := []), RunCommands(ExecEntityCommand, updated.queue, t).0)
  }

  /** A tick keeps the table's constraints. */
  lemma TickKeepsTableValid(pending: seq<BevyWorldAction<ServerEvent>>, held: bool, s: GameState, t: EntityTable)
    requires TableValid(t)
    ensures TableValid(Tick(pending, held, s, t).table)
  {
    var events := if held then s.events else ExecuteAll(pending, s.events);
    RunEntityCommandsKeepsTableValid(Update(s.(events := events)).queue, t);
  }

  /** A log holding one instantiate event is read as that event by the
      instantiate reader and as nothing by the input reader. */
  lemma OneInstantiateEvent(e: InstantiateEntityEvent)
    ensures InstantiateEvents([Instantiate(e)]) == [e]
    ensures InputEvents([Instantiate(e)]) == []
  {
    assert [Instantiate(e)][..0] == [];
  }

  /** Appending one changed entity to entities none of which changed
      queues exactly that entity's update. */
  lemma {:induction false} ChangedUpdatesOnlyLast(es: seq<BevyEntity>, x: BevyEntity)
    requires forall i :: 0 <= i < |es| ==> !es[i].changed
    requires x.changed
    ensures ChangedUpdates(es + [x]) == [ExecuteClosure(UpdatePosition(x.index, x.position))]
  {
    ChangedUpdatesNone(es);
    assert (es + [x])[..|es + [x]| - 1] == es;
  }

  /** An update that reads one instantiate event and no input queues the
      new entity's insert followed by its position update, and nothing
      else, when no entity had changed before. */
  lemma UpdateAfterInstantiate(s: GameState, e: InstantiateEntityEvent)
    requires s.events == [Instantiate(e)] && s.queue == []
    requires forall i :: 0 <= i < |s.entities| ==> !s.entities[i].changed
    ensures Update(s).queue == [InsertCommand(s.nextIndex, e), ExecuteClosure(UpdatePosition(s.nextIndex, e.position))]
    ensures Update(s).nextIndex == s.nextIndex + 1 && Update(s).events == []
  {
    OneInstantiateEvent(e);
    var n := s.nextIndex;
    var x := BevyEntity(n, e.position, true);
    var spawned := Spawn(s, [e]);
    assert [e][..0] == [] && Spawn(s, []) == s;
    assert spawned == s.(entities := s.entities + [x], nextIndex := n + 1, queue := [InsertCommand(n, e)]);
    var moved := MoveAll(spawned.entities, []);
    assert moved == s.entities + [x];
    ChangedUpdatesOnlyLast(s.entities, x);
    assert Update(s) == GameState([], ClearChanged(moved), n + 1, [InsertCommand(n, e)] + ChangedUpdates(moved));
  }

  /** Draining the insert of a fresh row and then a move of that row to
      where it already is leaves the table with the row added. */
  lemma InsertThenSyncStoresRow(t: EntityTable, row: EntityRow)
    requires TableValid(t) && !HasEntityId(t, row.entityId) && !OwnsEntity(t, row.ownerIdentity)
    ensures RunCommands(ExecEntityCommand,
                        [ExecuteClosure(InsertEntity(row)), ExecuteClosure(UpdatePosition(row.entityId, row.position))],
                        t).0 == t + [row]
  {
    RunTwoCommands(ExecEntityCommand, InsertEntity(row), UpdatePosition(row.entityId, row.position), t);
    TryInsertKeepsTableValid(t, row);
    var t1 := t + [row];
    assert ExecEntityCommand(InsertEntity(row), t).0 == t1;
    assert HasEntityId(t1, row.entityId) by { assert t1[|t|].entityId == row.entityId; }
    SetPositionOnlyThatRow(t1, row.entityId, row.position);
    assert SetPosition(t1, row.entityId, row.position) == t1;
  }

  /** The path a new player takes: `enter_game` schedules one instantiate
      event, and the next tick reads it, spawns entity `nextIndex`, queues its
      insert and then its position update, and drains both in that order, so
      the table ends up with the player's row at the origin. */
  lemma EnterGameThenTickStoresRow(owner: Identity, s: GameState, t: EntityTable)
    requires s.events == [] && s.queue == []
    requires forall i :: 0 <= i < |s.entities| ==> !s.entities[i].changed
    requires TableValid(t) && !OwnsEntity(t, owner) && !HasEntityId(t, s.nextIndex)
    ensures var after := Tick([CreateSendEventAction(Instantiate(InstantiateEntityEvent(owner, Origin)))], false, s, t);
            && after.table == t + [EntityRow(s.nextIndex, Origin, owner)]
            && after.pending == []
            && after.game.nextIndex == s.nextIndex + 1
            && after.game.queue == []
  {
    var e := InstantiateEntityEvent(owner, Origin);
    SendEventActionDeliversOnce(Instantiate(e), []);
    var s0 := s.(events := [Instantiate(e)]);
    UpdateAfterInstantiate(s0, e);
    InsertThenSyncStoresRow(t, EntityRow(s.nextIndex, Origin, owner));
  }

  // ---------------------------------------------------------------------
  // The Bevy app, its systems as methods, and the reducers
  // ---------------------------------------------------------------------

  /** The server's Bevy `App`: the world the bridge layer touches, plus the
      entities holding a `Position` and the entity index allocator. */
  class GameApp {
    const world: World<ServerEvent, EntityCommand>
    var entities: seq<BevyEntity>
    var nextIndex: nat

    ghost function State(): GameState
      reads this, world
    {
      GameState(world.events, entities, nextIndex, world.commandQueue)
    }

    /** The app as `init` sets it up, with the first entity index given. */
    constructor (firstIndex: nat)
      ensures fresh(world)
      ensures State() == GameState([], [], firstIndex, [])
    {
      world := new World();
      entities := [];
      nextIndex := firstIndex;
    }

    /** `instantiate_entity_system`. */
    method InstantiateEntitySystem()
      modifies this, world
      ensures State() == Spawn(old(State()), InstantiateEvents(old(world.events)))
    {
      var evs := InstantiateEvents(world.events);
      for i := 0 to |evs|
        invariant State() == Spawn(old(State()), evs[..i])
      {
        var e := evs[i];
        var index := nextIndex;
        entities := entities + [BevyEntity(index, e.position, true)];
        nextIndex := nextIndex + 1;
        world.PushCommand(InsertCommand(index, e));
        assert evs[..i + 1][..i] == evs[..i];
      }
      assert evs[..|evs|] == evs;
    }

    /** `apply_player_movement_system`. */
    method ApplyPlayerMovementSystem()
      modifies this
      ensures entities == MoveAll(old(entities), InputEvents(world.events))
      ensures nextIndex == old(nextIndex)
    {
      var evs := InputEvents(world.events);
      for i := 0 to |evs|
        invariant entities == MoveAll(old(entities), evs[..i])
        invariant nextIndex == old(nextIndex)
      {
        var ev := evs[i];
        ghost var before := entities;
        var j := 0;
        while j < |entities|
          invariant 0 <= j <= |entities| == |before|
          invariant entities == before
          invariant NoIndexBefore(before, ev.playerId, j)
        {
          if entities[j].index == ev.playerId {
            MoveFirstAt(before, ev, j);
            entities := entities[j := Moved(entities[j], ev.direction)];
            break;
          }
          j := j + 1;
        }
        if j == |before| {
          MoveFirstNoMatch(before, ev);
        }
        assert entities == MoveFirst(before, ev);
        assert evs[..i + 1][..i] == evs[..i];
      }
      assert evs[..|evs|] == evs;
    }

    /** `update_stdb_position_system`. */
    method UpdateStdbPositionSystem()
      modifies this, world
      ensures world.commandQueue == old(world.commandQueue) + ChangedUpdates(old(entities))
      ensures entities == ClearChanged(old(entities))
      ensures world.events == old(world.events) && nextIndex == old(nextIndex)
    {
      var i := 0;
      while i < |entities|
        invariant 0 <= i <= |entities| == |old(entities)|
        invariant forall k :: 0 <= k < i ==> entities[k] == old(entities)[k].(changed := false)
        invariant forall k :: i <= k < |entities| ==> entities[k] == old(entities)[k]
        invariant world.commandQueue == old(world.commandQueue) + ChangedUpdates(old(entities)[..i])
        invariant world.events == old(world.events) && nextIndex == old(nextIndex)
      {
        var e := entities[i];
        if e.changed {
          world.PushCommand(ExecuteClosure(UpdatePosition(e.index, e.position)));
        }
        entities := entities[i := e.(changed := false)];
        assert old(entities)[..i + 1][..i] == old(entities)[..i];
        i := i + 1;
      }
      assert old(entities)[..i] == old(entities);
    }

    /** `run_bevy_update`: one `App::update()`, reported as `Ok`. */
    method RunBevyUpdate() returns (r: Result<(), string>)
      modifies this, world
      ensures r == Ok(())
      ensures State() == Update(old(State()))
    {
      SpawnOnePerEvent(State(), InstantiateEvents(world.events));
      InstantiateEntitySystem();
      ApplyPlayerMovementSystem();
      UpdateStdbPositionSystem();
      // Every reader has now read every event sent before this update.
      world.events := [];
      r := Ok(());
    }
  }

  /** `BEVY_APP`: the process-wide slot for the app, empty until `init`
      stores it. */
  class BevyAppContainer {
    var app: GameApp?

    constructor ()
      ensures app == null
    {
      app := null;
    }

    /** `*app_ptr = Some(app)` in `init`. */
    method Store(a: GameApp)
      modifies this
      ensures app == a
    {
      app := a;
    }

    ghost function AppParts(): set<object>
      reads this
    {
      if app == null then {} else {app, app.world}
    }
  }

  /** The error `process_tick` reports before `init` stored an app. */
  const NotInitialized: string := "Bevy App is not initialized"

  /** `process_tick`. */
  method ProcessTick(container: BevyAppContainer, pending: PendingActions<ServerEvent>,
                     ctx: ReducerContext<EntityTable>)
    returns (r: Result<(), string>)
    modifies pending, ctx, container.AppParts()
    ensures pending.held == old(pending.held)
    ensures container.app == null ==>
              r == Err(NotInitialized) && pending.actions == old(pending.actions) && ctx.db == old(ctx.db)
    ensures container.app != null ==>
              && r == Ok(())
              && TickResult(pending.actions, container.app.State(), ctx.db)
                 == Tick(old(pending.actions), old(pending.held), old(container.app.State()), old(ctx.db))
  {
    var app := container.app;
    if app == null {
      return Err(NotInitialized);
    }
    ProcessBevyActions(pending, app.world);
    var updated := app.RunBevyUpdate();
    if updated.Err? {
      // Logged; the tick goes on.
    }
    var drained, reports := ProcessBevyCommands(app.world, ctx, ExecEntityCommand);
    if drained.Err? {
      // Logged; the tick goes on.
    }
    r := Ok(());
  }

  /** `enter_game`: a sender that already owns an entity is ignored;
      otherwise one instantiate event at the origin is scheduled. */
  method EnterGame(pending: PendingActions<ServerEvent>, ctx: ReducerContext<EntityTable>, name: string)
    returns (r: Result<(), string>)
    modifies pending
    ensures r == Ok(())
    ensures pending.held == old(pending.held)
    ensures OwnsEntity(ctx.db, ctx.sender) ==> pending.actions == old(pending.actions)
    ensures !OwnsEntity(ctx.db, ctx.sender) ==>
              pending.actions == old(pending.actions)
                                 + [SendBevyEvent(Instantiate(InstantiateEntityEvent(ctx.sender, Origin)))]
  {
    var owner := ctx.sender;
    if OwnsEntity(ctx.db, owner) {
      return Ok(());
    }
    var event := InstantiateEntityEvent(owner, Origin);
    ScheduleBevyAction(pending, CreateSendEventAction(Instantiate(event)));
    r := Ok(());
  }

  /** `receive_player_input`: input from a sender without an entity is
      ignored; otherwise one input event for that entity is scheduled. */
  method ReceivePlayerInput(pending: PendingActions<ServerEvent>, ctx: ReducerContext<EntityTable>, x: int, y: int)
    returns (r: Result<(), string>)
    modifies pending
    ensures r == Ok(())
    ensures pending.held == old(pending.held)
    ensures !OwnsEntity(ctx.db, ctx.sender) ==> pending.actions == old(pending.actions)
    ensures OwnsEntity(ctx.db, ctx.sender) ==>
              pending.actions == old(pending.actions)
                                 + [SendBevyEvent(PlayerInput(PlayerInputEvent(FindByOwner(ctx.db, ctx.sender).value.entityId, Vec2(x, y))))]
  {
    var entity := FindByOwner(ctx.db, ctx.sender);
    if entity.None? {
      return Ok(());
    }
    var event := PlayerInputEvent(entity.value.entityId, Vec2(x, y));
    ScheduleBevyAction(pending, CreateSendEventAction(PlayerInput(event)));
    r := Ok(());
  }
}
