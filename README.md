# Bevy ↔ SpacetimeDB bridge, modelled in Dafny

This project models the bridge between a tick-driven Bevy world and a
SpacetimeDB module, and the example game built on it.

- **Server integration layer** (`server_bridge.dfy`, module `ServerBridge`).
  - `PENDING_BEVY_ACTIONS` is the process-wide list of deferred world actions.
    Reducers append to it with `schedule_bevy_action`.
  - `process_bevy_actions` drains that list at the start of a tick. When the
    spin lock is busy it skips the tick.
  - `CommandQueue` holds the database closures queued by Bevy systems.
    `process_bevy_commands` drains it and runs each closure inside the tick
    reducer. It keeps going after a closure reports `Err`.
- **Example game module** (`server.dfy`, module `Server`).
  - The `entity` table has `entity_id` as primary key and a unique `owner_identity`.
  - The reducers `enter_game` and `receive_player_input` schedule events.
  - Three chained Bevy systems turn those events into queued table inserts and
    position updates.
  - `process_tick` runs action drain, update and command drain, in that order.
- **Client channel bridge** (`channel_receiver.dfy`, module `ChannelReceiver`).
  - `add_event_channel` registers one `mpsc` receiver per event type.
  - The `PreUpdate` system `channel_to_event` moves every buffered message into
    that type's Bevy event buffer.
- **Client plugin** (`plugin.dfy`, module `Plugin`, using the event types in
  `events.dfy`). This is the `StdbPlugin` builder.
  - The `on_insert`, `on_delete`, `on_update` and `on_insert_update` helpers
    each open a channel and install table callbacks that send exactly one
    event per row change.
  - `reducer_event` opens a channel, installs no callback, and returns the
    sending side for the caller's own reducer callback.
  - `Plugin::build` wires the three connection-lifecycle channels, the
    connection and the user's registrations.

How the source's constructs are represented:

- **Closures.** They are data. A queued database closure is the value it
  captured (`EntityCommand`). `ProcessBevyCommands` takes the function that
  runs a captured value against the database state. A table callback is the
  channel it captured, tagged with the event it builds.
- **Locks.** The spin mutex around the pending list is a `held` flag: true
  while another execution context holds it. The `std` mutex around a channel
  receiver is a `poisoned` flag.
- **Panics.** A call that may panic returns `Outcome`, either `Pass` or
  `Panic(message)`. State changed before the panic point is kept, as in Rust.
- **The Bevy world.**
  - On the server it is one event log holding both event types, plus the
    `CommandQueue`, the entities that carry a `Position`, and the next entity
    index.
  - On the client it is the set of event types, the ordered `PreUpdate`
    drain systems, the receivers and event buffers by type, and the
    connection resource.
- **The `entity` table.** It is a sequence of rows in iteration order.
  Lookups return the first match.

Two behaviours of the code worth stating:

- `channel_to_event` calls `lock().expect(...)` on a `std::sync::Mutex`. That
  call waits while the lock is held and fails only when the lock is poisoned.
  So the drain panics exactly when the receiver's lock is poisoned. It never
  skips a drain and never panics because of contention.
- `BevyWorldAction::execute` has no failure path, and `process_bevy_actions`
  catches nothing. The only action, sending an event, always succeeds.

## Model

| member | source | states |
|---|---|---|
| ServerBridge.World.constructor | bevy_spacetimedb_server/src/lib.rs:79-85 | after the plugin's setup the command queue is empty and no event is pending |
| ServerBridge.BevyWorldAction.Execute | bevy_spacetimedb_server/src/lib.rs:209-215 | sending the carried event appends exactly one copy of it to the world's events; the command queue is untouched |
| ServerBridge.SendEventActionDeliversOnce | bevy_spacetimedb_server/src/lib.rs:202-205 | the action made by `create_send_event_action(e)` delivers `e` once and nothing else |
| ServerBridge.ExecuteAllInOrder | bevy_spacetimedb_server/src/lib.rs:193-196 | executing a drained batch keeps the earlier events and appends each action's event exactly once, in enqueue order |
| ServerBridge.ExecuteAllAppend | bevy_spacetimedb_server/src/lib.rs:193-196 | executing two batches one after the other is executing their concatenation, so no action is lost or repeated across ticks |
| ServerBridge.PendingActions.constructor | bevy_spacetimedb_server/src/lib.rs:59-60 | the process-wide list starts empty with its lock free |
| ServerBridge.ScheduleBevyAction | bevy_spacetimedb_server/src/lib.rs:160-163 | the action is appended at the end; earlier entries are unchanged |
| ServerBridge.ProcessBevyActions | bevy_spacetimedb_server/src/lib.rs:171-198 | if the lock is held, nothing is removed or executed; otherwise the list becomes empty and the world's events are the old ones followed by every taken action's event, in enqueue order, each once |
| ServerBridge.RunCommands | bevy_spacetimedb_server/src/lib.rs:125-149 | draining a queue yields one report per queued command, whatever earlier commands reported |
| ServerBridge.RunCommandsAppend | bevy_spacetimedb_server/src/lib.rs:125-149 | running two batches one after the other is running their concatenation: the second starts from the state the first left, and the reports concatenate |
| ServerBridge.RunCommandsOutcomeAt | bevy_spacetimedb_server/src/lib.rs:125-145 | the k-th command runs once, on the state left by the k commands before it, whether or not any of them reported `Err`, and its report is the k-th report |
| ServerBridge.RunTwoCommands | bevy_spacetimedb_server/src/lib.rs:125-149 | with two commands, the second runs on what the first left, and both reports appear in order |
| ServerBridge.RunCommandsEmpty | bevy_spacetimedb_server/src/lib.rs:120-122 | an empty queue runs nothing, changes nothing and reports nothing |
| ServerBridge.ProcessBevyCommands | bevy_spacetimedb_server/src/lib.rs:112-152 | always returns `Ok`; the queue is empty afterwards; the database state and the per-command reports are those of running the taken commands in push order, each once; events are untouched |
| Server.FindByOwner | server/src/lib.rs:263-270 | the lookup by owner finds a row exactly when the owner has one, and the row found belongs to that owner and is in the table |
| Server.FindByOwnerIsTheOwnersRow | server/src/lib.rs:57-68 | with `owner_identity` unique, the lookup returns the one row of that owner |
| Server.TryInsertKeepsTableValid | server/src/lib.rs:57-68 | `try_insert` refuses exactly the rows whose `entity_id` or `owner_identity` is taken, and an accepted insert keeps both constraints |
| Server.SetPosition | server/src/lib.rs:396-406 | the position update keeps the number of rows |
| Server.SetPositionOnlyThatRow | server/src/lib.rs:396-406 | in a valid table the update replaces the position of the row with that `entity_id`, changes no other row, and keeps the constraints |
| Server.InsertCommandOutcome | server/src/lib.rs:321-335 | the insert closure reports `Err` and leaves the table as it was when the id or owner is taken; otherwise it adds the captured row and reports `Ok(None)` |
| Server.UpdateCommandOutcome | server/src/lib.rs:388-416 | the update closure always reports `Ok(None)`, changes only the position of the row with that id, and changes nothing when no such row exists |
| Server.ExecEntityCommandKeepsTableValid | server/src/lib.rs:321-416 | every queued closure keeps the table's key and unique constraints |
| Server.RunEntityCommandsKeepsTableValid | bevy_spacetimedb_server/src/lib.rs:125-149 | draining any queue of entity commands keeps the table's constraints |
| Server.FailedInsertDoesNotStopLaterCommands | bevy_spacetimedb_server/src/lib.rs:140-145 | a duplicate insert reports `Err`, and a position update queued after it still runs and moves the row |
| Server.SpawnOnePerEvent | server/src/lib.rs:301-337 | each instantiate event read spawns one entity at the event's position with the next index and queues exactly one insert of that entity's row, in event order; earlier entities and commands are kept |
| Server.MoveFirst | server/src/lib.rs:349-364 | applying one input keeps the number of entities |
| Server.MoveFirstAt | server/src/lib.rs:352-363 | the first entity whose index equals the event's `player_id` gets the direction added, and no other entity changes |
| Server.MoveFirstNoMatch | server/src/lib.rs:352-364 | an input for an index no entity has changes nothing |
| Server.ChangedIndices | server/src/lib.rs:371-376 | the query `Changed<Position>` yields the positions of exactly the changed entities, each once, in increasing query order |
| Server.ChangedUpdatesExact | server/src/lib.rs:376-419 | the queued updates pair off in order with the changed entities: as many updates as changed entities, the k-th carrying the index and current position of the k-th changed entity |
| Server.ChangedUpdatesMembership | server/src/lib.rs:376-419 | every changed entity gets an update command carrying its index and current position, and every queued update belongs to a changed entity |
| Server.ChangedUpdatesOnlyLast | server/src/lib.rs:371-419 | when only a newly spawned entity is changed, exactly its update is queued |
| Server.ChangedUpdatesNone | server/src/lib.rs:371-376 | when no position changed, no update is queued |
| Server.UpdateAfterInstantiate | server/src/lib.rs:123-135 | with the systems chained, one instantiate event yields the new entity's insert followed by its position update, and the event log is consumed |
| Server.InsertThenSyncStoresRow | server/src/lib.rs:327-406 | draining that insert and then that update stores exactly the new row |
| Server.TickKeepsTableValid | server/src/lib.rs:175-211 | a tick keeps the `entity` table's constraints |
| Server.EnterGameThenTickStoresRow | server/src/lib.rs:175-249 | after `enter_game` for a new player, the next tick empties the pending list and the queue, allocates one entity index, and leaves the table with the player's row at the origin |
| Server.GameApp.constructor | server/src/lib.rs:107-135 | a fresh app has no events, no entities and an empty queue, and the next entity index is the one given |
| Server.GameApp.InstantiateEntitySystem | server/src/lib.rs:296-339 | the app state becomes the one-spawn-and-one-insert-per-event state of `Spawn` |
| Server.GameApp.ApplyPlayerMovementSystem | server/src/lib.rs:344-366 | the entities become those of applying every input event in order, each to the first matching entity only; the index allocator is unchanged |
| Server.GameApp.UpdateStdbPositionSystem | server/src/lib.rs:371-420 | one update per changed entity is appended to the queue in query order, and the change marks are cleared |
| Server.GameApp.RunBevyUpdate | bevy_spacetimedb_server/src/lib.rs:101-104 | one update runs the three systems in their chained order, consumes the events, and reports `Ok` |
| Server.BevyAppContainer.constructor | server/src/lib.rs:34 | the global slot starts empty |
| Server.BevyAppContainer.Store | server/src/lib.rs:139-142 | `init` stores the app in the slot |
| Server.ProcessTick | server/src/lib.rs:175-211 | without an app it returns `Err("Bevy App is not initialized")` and changes nothing; with one it returns `Ok` and the pending list, app state and table are those of action drain, then update, then command drain |
| Server.EnterGame | server/src/lib.rs:215-249 | returns `Ok`; schedules nothing when the sender already owns an entity, otherwise exactly one instantiate event for the sender at (0, 0) |
| Server.ReceivePlayerInput | server/src/lib.rs:253-289 | returns `Ok`; schedules nothing when the sender owns no entity, otherwise exactly one input event carrying that entity's `entity_id` and `(x, y)` |
| ChannelReceiver.Channel.constructor | bevy_spacetimedb/src/plugin.rs:47 | a new channel buffers nothing and its lock is not poisoned, the lock being the `Mutex` that `add_event_channel` wraps the receiver in (bevy_spacetimedb/src/channel_receiver.rs:26) |
| ChannelReceiver.Channel.Send | bevy_spacetimedb/src/plugin.rs:52 | a send puts the message at the back of the buffer and never waits |
| ChannelReceiver.Channel.TryRecv | bevy_spacetimedb/src/channel_receiver.rs:39 | one step of `try_iter`: the oldest buffered message, or nothing when the buffer is empty, without waiting |
| ChannelReceiver.AddEventChannel | bevy_spacetimedb/src/channel_receiver.rs:18-28 | panics and changes nothing when the type already has a receiver; otherwise adds the event type, appends its drain system to `PreUpdate`, gives the type an empty event buffer if it had none, and installs the receiver; no channel's contents change |
| ChannelReceiver.App.InsertConnection | bevy_spacetimedb/src/plugin.rs:163 | storing the connection resource replaces the stored connection and changes nothing else |
| ChannelReceiver.ChannelToEvent | bevy_spacetimedb/src/channel_receiver.rs:31-40 | panics when the receiver's lock is poisoned; otherwise appends every buffered message, in arrival order, to the type's event buffer and leaves the channel empty, an empty channel giving an empty batch |
| ChannelReceiver.DrainTwice | bevy_spacetimedb/src/channel_receiver.rs:39 | a second drain with no send in between forwards nothing, so each message reaches the event buffer once |
| Plugin.InsertCallback.Invoke | bevy_spacetimedb/src/plugin.rs:50-53 | an insert callback sends exactly one event for the inserted row |
| Plugin.DeleteCallback.Invoke | bevy_spacetimedb/src/plugin.rs:66-69 | a delete callback sends exactly one `DeleteEvent` carrying the deleted row |
| Plugin.UpdateCallback.Invoke | bevy_spacetimedb/src/plugin.rs:83-89 | an update callback sends exactly one event for the old and the new row |
| Plugin.InsertUpdateEventShape | bevy_spacetimedb/src/plugin.rs:100-118 | on the insert-or-update channel an insert yields `old = None, new = row` and an update yields `old = Some(old), new = new`; the plain callbacks build `InsertEvent` and `UpdateEvent` |
| Plugin.DbConnection.constructor | bevy_spacetimedb/src/plugin.rs:157 | the connection is built from the configured builder and the three lifecycle senders |
| Plugin.AllNewMeansDistinctAndUnregistered | bevy_spacetimedb/src/channel_receiver.rs:19-22 | opening a list of event types one after the other never trips the duplicate check exactly when no type occurs twice in it and none is registered yet |
| Plugin.WithChannelExtends | bevy_spacetimedb/src/channel_receiver.rs:24-26 | a successful registration adds exactly that type's receiver, drain system and event type, keeping all others |
| Plugin.OpenChannel | bevy_spacetimedb/src/plugin.rs:47-48 | a fresh, empty channel is created and registered for the type; it panics, changing nothing, when the type is already registered |
| Plugin.StdbPlugin.OnInsert | bevy_spacetimedb/src/plugin.rs:43-56 | opens the row type's insert channel, then installs one insert callback sending to it; a duplicate panics before any callback is installed |
| Plugin.StdbPlugin.OnDelete | bevy_spacetimedb/src/plugin.rs:59-72 | opens the row type's delete channel, then installs one delete callback sending to it |
| Plugin.StdbPlugin.OnUpdate | bevy_spacetimedb/src/plugin.rs:75-92 | opens the row type's update channel, then installs one update callback sending to it |
| Plugin.StdbPlugin.OnInsertUpdate | bevy_spacetimedb/src/plugin.rs:95-121 | opens one channel and installs an update callback and an insert callback that both send to it |
| Plugin.StdbPlugin.ReducerEvent | bevy_spacetimedb/src/plugin.rs:124-132 | opens the reducer's result channel and returns the sending side of that same channel |
| Plugin.StdbPlugin.Register | bevy_spacetimedb/src/plugin.rs:43-132 | one registration call opens a new, empty channel for its event type and its table gains the helper's callbacks sending to that channel; when the type is taken it panics, and neither the app nor the table changes |
| Plugin.StdbPlugin.RunRegistrations | bevy_spacetimedb/src/plugin.rs:159-161 | the registrations all complete exactly when none reuses a type; then their channels are added in order, each new, empty and with an empty event buffer, existing receivers and buffers are kept, and every table holds the callbacks the registrations aimed at it installed, each sending to its registration's channel |
| Plugin.StdbPlugin.RegisterFrom | bevy_spacetimedb/src/plugin.rs:159-161 | the remaining registrations, from the i-th on, complete exactly when the whole list reuses no type, and then extend the app and the tables' callbacks as above |
| Plugin.StdbPlugin.RegisterNext | bevy_spacetimedb/src/plugin.rs:159-161 | the i-th registration either adds one new, empty receiver and its callbacks, keeping every earlier receiver, or panics, leaving the app and every table's callbacks as they were, when the list cannot complete |
| Plugin.StdbPlugin.RegisterTracked | bevy_spacetimedb/src/plugin.rs:43-132 | one registration call adds exactly its type's receiver, and of the given tables only its own gains callbacks; when it panics no table's callbacks change |
| Plugin.Connect | bevy_spacetimedb/src/plugin.rs:154-157 | the builder is called with the connected, disconnected and connection-error senders and yields a new connection holding them |
| Plugin.StdbPlugin.OpenConnectionChannels | bevy_spacetimedb/src/plugin.rs:146-152 | the connection-error, connected and disconnected channels are registered in that order, each new and empty, with empty event buffers, and this completes exactly when none was registered before |
| Plugin.StdbPlugin.RegisterAll | bevy_spacetimedb/src/plugin.rs:159-161 | after the lifecycle channels, the configured registrations complete exactly when no type of the whole build is opened twice or was open before |
| Plugin.StdbPlugin.ConnectAndRegister | bevy_spacetimedb/src/plugin.rs:154-163 | builds the connection from the lifecycle senders, runs the registrations, and stores the connection; a panic leaves the stored connection as it was |
| Plugin.ConnectionTypesNew | bevy_spacetimedb/src/plugin.rs:150-152 | the three lifecycle channels register without a clash exactly when none of their types is registered |
| Plugin.StdbPlugin.Build | bevy_spacetimedb/src/plugin.rs:145-164 | completes exactly when a builder is set and no channel type is opened twice or already open; then the lifecycle channels come first, the registrations follow in order, every new receiver is a new, empty channel, every table holds the callbacks the registrations installed, sending to those channels, and the connection holding the three senders is stored; without a builder it panics after opening the lifecycle channels |
| Plugin.SecondBuildPanics | bevy_spacetimedb/src/plugin.rs:150-152 | building the plugin a second time into the same app cannot complete |
| Plugin.ConfigurationSettersIndependent | bevy_spacetimedb/src/plugin.rs:31-40 | `with_connection` and `with_events` each set only their own field, they commute, a later call of the same setter wins, and on top of `Default` they give exactly the registrations passed |

## Left out

- Threads and blocking are not modelled. `schedule_bevy_action` spins until the lock is free; the model appends at once. The `held` flag is an input: no modelled operation takes the lock.
- Positions and inputs are `f32` in the source and exact integers here. Float rounding is not modelled.
- `entity_id` is a `u32` in the source. The model uses unbounded naturals, so index overflow is not modelled.
- Logging is not modelled.
- The `init` reducer's plugin list, event registration and 16 ms scheduled-tick insertion are not modelled. The `connect` and `disconnect` reducers do nothing and are not modelled.
- The placeholder entity that makes Bevy indices start at 1 is not modelled. The first index is a parameter of `Server.GameApp.constructor`.
- Bevy's event and query internals are not modelled.
  - An update's readers see every event sent since the previous update, after which the log is empty. Bevy keeps events for two updates; that only matters to readers that skip an update.
  - `Changed<Position>` is a flag. Spawning or moving an entity sets it, and `update_stdb_position_system` clears it.
  - Query and table iteration order is sequence order.
- The user's connection-builder and registration functions are assumed not to panic, and not to touch the app except through the registration calls listed. `Plugin.StdbPlugin.Build` completes exactly under its stated condition only under that assumption. The example client's builder does panic when the connection fails (client-bevy/src/main.rs:64).
- Plugin.StdbPlugin.Build: after a panic part-way through the registrations, only the stored connection is described. The channels and callbacks already added stay in place, as in Rust, but the model does not state which they are.
- A table is identified by its handle object (`Plugin.TableHandle`), not by the table's name. In the SDK two handles of one table share one callback registry; the model treats every handle as a distinct table.
- The SpacetimeDB SDK is not modelled: how it dispatches table callbacks, and what a connection does once built. The user's connection-builder function is represented by the module it connects to. The user's registration function is represented by the list of registration calls it makes.
- Rust trait bounds on row types (`TableWithPrimaryKey` and others) are not modelled.
- `send(...).unwrap()` panics only when the receiver was dropped. The model's receivers are never dropped.
- The `try_insert` error text is the placeholder "unique constraint violation".
- `SpacetimeId` is declared but unused in the source, and is not modelled.
- ServerBridge.ProcessBevyCommands: the per-command reports are a ghost result, because the source only logs them.
- ServerBridge.RunCommands: its own contract states only that there is one report per command. What each report is and which state each command sees is stated in `RunCommandsOutcomeAt` and `RunCommandsAppend`.
- Server.SetPosition: its own contract states only that the row count is kept. What changes is stated in `SetPositionOnlyThatRow`.
- Server.MoveFirst: its own contract states only that the entity count is kept. What changes is stated in `MoveFirstAt` and `MoveFirstNoMatch`.
