/** The server-side integration layer between a Bevy `App` and a SpacetimeDB
    module: the process-wide queue of pending world actions (SpacetimeDB to
    Bevy) and the `CommandQueue` of deferred database closures (Bevy to
    SpacetimeDB).

    A closure is represented by the data it captured (`C`); what running it
    does is the interpretation function handed to `ProcessBevyCommands`.
    Bevy's event buffers are one log of events of type `E`, in send order. */
module ServerBridge {
  import opened Wrappers

  /** A SpacetimeDB client identity. */
  type Identity = nat

  /** What a database closure reports: `Ok(Some(id))` for a newly created
      row id, `Ok(None)` for success without one, `Err(message)` on failure. */
  type CommandResult = Result<Option<nat>, string>

  /** A command queued by a Bevy system, to run inside a reducer. */
  datatype DbCommand<C> = ExecuteClosure(closure: C)

  /** The reducer context a command runs against: the caller's identity and
      the database state. */
  class ReducerContext<D> {
    const sender: Identity
    var db: D

    constructor (sender: Identity, db: D)
      ensures this.sender == sender && this.db == db
    {
      this.sender := sender;
      this.db := db;
    }
  }

  /** The part of a Bevy `World` this layer touches: the event buffers and
      the `CommandQueue` resource. */
  class World<E, C> {
    var events: seq<E>
    var commandQueue: seq<DbCommand<C>>

    /** A world right after the plugin's `init_resource::<CommandQueue>()`. */
    constructor ()
      ensures events == [] && commandQueue == []
    {
      events := [];
      commandQueue := [];
    }

    /** `World::send_event`. */
    method SendEvent(e: E)
      modifies this
      ensures events == old(events) + [e]
      ensures commandQueue == old(commandQueue)
    {
      events := events + [e];
    }

    /** `command_queue.0.push(cmd)`, as a Bevy system does it. */
    method PushCommand(cmd: DbCommand<C>)
      modifies this
      ensures commandQueue == old(commandQueue) + [cmd]
      ensures events == old(events)
    {
      commandQueue := commandQueue + [cmd];
    }
  }

  /** A deferred mutation of the world. Sending an event is the only kind. */
  datatype BevyWorldAction<E> = SendBevyEvent(event: E)
  {
    /** `SendBevyEvent::execute`: sends one copy of the carried event. */
    method Execute<C>(world: World<E, C>)
      modifies world
      ensures world.events == old(world.events) + [event]
      ensures world.commandQueue == old(world.commandQueue)
    {
      world.SendEvent(event);
    }
  }

  /** `create_send_event_action`. */
  function CreateSendEventAction<E>(event: E): BevyWorldAction<E>
  {
    SendBevyEvent(event)
  }

  /** The event log after executing `actions` one after the other. */
  function ExecuteAll<E>(actions: seq<BevyWorldAction<E>>, events: seq<E>): seq<E>
    decreases |actions|
  {
    if |actions| == 0 then events
    else ExecuteAll(actions[..|actions| - 1], events) + [actions[|actions| - 1].event]
  }

  /** Executing a drained batch appends each action's event exactly once, in
      enqueue order, after the events already there. */
  lemma {:induction false} ExecuteAllInOrder<E>(actions: seq<BevyWorldAction<E>>, events: seq<E>)
    ensures |ExecuteAll(actions, events)| == |events| + |actions|
    ensures ExecuteAll(actions, events)[..|events|] == events
    ensures forall i :: 0 <= i < |actions| ==> ExecuteAll(actions, events)[|events| + i] == actions[i].event
  {
    if |actions| > 0 {
      var init := actions[..|actions| - 1];
      ExecuteAllInOrder(init, events);
      var r := ExecuteAll(actions, events);
      assert r == ExecuteAll(init, events) + [actions[|actions| - 1].event];
      forall i | 0 <= i < |actions|
        ensures r[|events| + i] == actions[i].event
      {
        if i < |init| {
          assert init[i] == actions[i];
        }
      }
    }
  }

  /** Executing two batches one after the other is executing their
      concatenation. */
  lemma {:induction false} ExecuteAllAppend<E>(a: seq<BevyWorldAction<E>>, b: seq<BevyWorldAction<E>>, events: seq<E>)
    ensures ExecuteAll(a + b, events) == ExecuteAll(b, ExecuteAll(a, events))
    decreases |b|
  {
    if |b| == 0 {
      assert a + b == a;
    } else {
      var binit := b[..|b| - 1];
      assert (a + b)[..|a + b| - 1] == a + binit;
      ExecuteAllAppend(a, binit, events);
    }
  }

  /** A send-event action delivers exactly one copy of its event. */
  lemma SendEventActionDeliversOnce<E>(e: E, events: seq<E>)
    ensures ExecuteAll([CreateSendEventAction(e)], events) == events + [e]
  {
    assert [CreateSendEventAction(e)][..0] == [];
  }

  /** `PENDING_BEVY_ACTIONS`: the process-wide list guarded by a spin mutex.
      `held` is true while another execution context holds that mutex. */
  class PendingActions<E> {
    var actions: seq<BevyWorldAction<E>>
    var held: bool

    constructor ()
      ensures actions == [] && !held
    {
      actions := [];
      held := false;
    }
  }

  /** `schedule_bevy_action`: appends the action; earlier entries stay. */
  method ScheduleBevyAction<E>(pending: PendingActions<E>, action: BevyWorldAction<E>)
    modifies pending
    ensures pending.actions == old(pending.actions) + [action]
    ensures pending.held == old(pending.held)
  {
    pending.actions := pending.actions + [action];
  }

  /** `process_bevy_actions`: skips the tick if the lock is busy; otherwise
      empties the list and executes every taken action, in order, once. */
  method ProcessBevyActions<E, C>(pending: PendingActions<E>, world: World<E, C>)
    modifies pending, world
    ensures pending.held == old(pending.held)
    ensures world.commandQueue == old(world.commandQueue)
    ensures old(pending.held) ==>
              pending.actions == old(pending.actions) && world.events == old(world.events)
    ensures !old(pending.held) ==>
              pending.actions == [] && world.events == ExecuteAll(old(pending.actions), old(world.events))
  {
    if pending.held {
      // try_lock failed: nothing is taken, nothing runs.
      return;
    }
    var taken := pending.actions;
    pending.actions := [];
    if |taken| == 0 {
      return;
    }
    for i := 0 to |taken|
      invariant world.events == ExecuteAll(taken[..i], old(world.events))
      invariant world.commandQueue == old(world.commandQueue)
      invariant pending.actions == [] && pending.held == old(pending.held)
    {
      taken[i].Execute(world);
      assert taken[..i + 1][..i] == taken[..i];
    }
    assert taken[..|taken|] == taken;
  }

  /** The database state after running `cmds` in order, and what each
      reported. Every command runs, whatever the ones before it reported. */
  function RunCommands<C, D>(exec: (C, D) -> (D, CommandResult), cmds: seq<DbCommand<C>>, db: D)
    : (r: (D, seq<CommandResult>))
    ensures |r.1| == |cmds|
    decreases |cmds|
  {
    if |cmds| == 0 then (db, [])
    else
      var step := exec(cmds[0].closure, db);
      var rest := RunCommands(exec, cmds[1..], step.0);
      (rest.0, [step.1] + rest.1)
  }

  /** Running two batches one after the other is running their
      concatenation: the second starts from the state the first left. */
  lemma {:induction false} RunCommandsAppend<C, D>(exec: (C, D) -> (D, CommandResult),
                                                   a: seq<DbCommand<C>>, b: seq<DbCommand<C>>, db: D)
    ensures var first := RunCommands(exec, a, db);
            var second := RunCommands(exec, b, first.0);
            RunCommands(exec, a + b, db) == (second.0, first.1 + second.1)
    decreases |a|
  {
    if |a| == 0 {
      assert a + b == b;
      var second := RunCommands(exec, b, db);
      assert RunCommands(exec, a, db).1 + second.1 == second.1;
    } else {
      var step := exec(a[0].closure, db);
      assert (a + b)[0] == a[0];
      assert (a + b)[1..] == a[1..] + b;
      RunCommandsAppend(exec, a[1..], b, step.0);
      var first := RunCommands(exec, a[1..], step.0);
      var second := RunCommands(exec, b, first.0);
      assert RunCommands(exec, a, db) == (first.0, [step.1] + first.1);
      assert [step.1] + (first.1 + second.1) == ([step.1] + first.1) + second.1;
    }
  }

  /** The k-th command runs exactly once, on the state left by the commands
      before it, and its report is the k-th report, whether or not any
      earlier command failed. */
  lemma RunCommandsOutcomeAt<C, D>(exec: (C, D) -> (D, CommandResult),
                                   cmds: seq<DbCommand<C>>, db: D, k: nat)
    requires k < |cmds|
    ensures RunCommands(exec, cmds, db).1[k]
            == exec(cmds[k].closure, RunCommands(exec, cmds[..k], db).0).1
  {
    assert cmds == cmds[..k] + cmds[k..];
    RunCommandsAppend(exec, cmds[..k], cmds[k..], db);
  }

  /** Two commands: the second runs on what the first left. */
  lemma RunTwoCommands<C, D>(exec: (C, D) -> (D, CommandResult), c0: C, c1: C, db: D)
    ensures var first := exec(c0, db);
            var second := exec(c1, first.0);
            RunCommands(exec, [ExecuteClosure(c0), ExecuteClosure(c1)], db) == (second.0, [first.1, second.1])
  {
    var cmds := [ExecuteClosure(c0), ExecuteClosure(c1)];
    var first := exec(c0, db);
    var second := exec(c1, first.0);
    assert cmds[1..] == [ExecuteClosure(c1)] && cmds[1..][1..] == [];
    assert RunCommands(exec, cmds[1..], first.0) == (second.0, [second.1] + []);
    assert [first.1] + ([second.1] + []) == [first.1, second.1];
  }

  /** Running no commands changes nothing and reports nothing. */
  lemma RunCommandsEmpty<C, D>(exec: (C, D) -> (D, CommandResult), db: D)
    ensures RunCommands(exec, [], db) == (db, [])
  {
  }

  /** `process_bevy_commands`: takes every queued command out of the
      `CommandQueue`, then runs each against the reducer context in order.
      An `Err` report is only logged; the call always returns `Ok`.
      `reports` is the sequence of per-command reports the source logs. */
  method ProcessBevyCommands<E, C, D>(world: World<E, C>, ctx: ReducerContext<D>,
                                      exec: (C, D) -> (D, CommandResult))
    returns (r: Result<(), string>, ghost reports: seq<CommandResult>)
    modifies world, ctx
    ensures r == Ok(())
    ensures world.commandQueue == [] && world.events == old(world.events)
    ensures (ctx.db, reports) == RunCommands(exec, old(world.commandQueue), old(ctx.db))
  {
    var taken := world.commandQueue;
    world.commandQueue := [];
    reports := [];
    if |taken| == 0 {
      return Ok(()), reports;
    }
    for i := 0 to |taken|
      invariant world.commandQueue == [] && world.events == old(world.events)
      invariant (ctx.db, reports) == RunCommands(exec, taken[..i], old(ctx.db))
    {
      ghost var before := ctx.db;
      var step := exec(taken[i].closure, ctx.db);
      ctx.db := step.0;
      match step.1 {
        case Ok(Some(newId)) =>
        case Ok(None) =>
        case Err(e) =>
          // Logged; processing goes on with the next command.
      }
      RunCommandsAppend(exec, taken[..i], [taken[i]], old(ctx.db));
      assert taken[..i + 1] == taken[..i] + [taken[i]];
      assert [taken[i]][0] == taken[i] && [taken[i]][1..] == [];
      assert [step.1] + [] == [step.1];
      assert RunCommands(exec, [taken[i]], before) == (step.0, [step.1]);
      reports := reports + [step.1];
    }
    assert taken[..|taken|] == taken;
    r := Ok(());
  }
}
