/** The client-side `StdbPlugin`: its configuration, the registration helpers
    that give each table or reducer event its own channel, the callbacks
    they install, and `Plugin::build`.

    All events share one Dafny type `StdbEvent<Row, Res>`; which Rust event
    type a channel carries is its `EventType` key. A table is a
    `TableHandle` holding the callbacks registered on it. The user's
    connection-builder function is represented by what it connects to, and
    the user's callback-registering function by the list of registration
    calls it makes, in order. */
module Plugin {
  import opened Wrappers
  import opened Events
  import opened ChannelReceiver

  type EventChannel<Row, Res> = Channel<StdbEvent<Row, Res>>

  type ClientApp<Row, Res> = App<StdbEvent<Row, Res>, DbConnection<Row, Res>>

  /** A row-insert callback: the channel it captured and the event it builds. */
  datatype InsertCallback<Row, Res> =
    | SendInsert(insertSender: EventChannel<Row, Res>)
    | SendInsertUpdateOnInsert(insertSender: EventChannel<Row, Res>)
  {
    function EventFor(row: Row): StdbEvent<Row, Res>
    {
      match this
      case SendInsert(_) => InsertEvent(row)
      case SendInsertUpdateOnInsert(_) => InsertUpdateEvent(None, row)
    }

    /** The table reported an inserted row: exactly one event is sent. */
    method Invoke(row: Row)
      modifies insertSender
      ensures insertSender.buffer == old(insertSender.buffer) + [EventFor(row)]
      ensures insertSender.poisoned == old(insertSender.poisoned)
    {
      insertSender.Send(EventFor(row));
    }
  }

  /** A row-delete callback. */
  datatype DeleteCallback<Row, Res> = SendDelete(deleteSender: EventChannel<Row, Res>)
  {
    /** The table reported a deleted row: exactly one event is sent. */
    method Invoke(row: Row)
      modifies deleteSender
      ensures deleteSender.buffer == old(deleteSender.buffer) + [DeleteEvent(row)]
      ensures deleteSender.poisoned == old(deleteSender.poisoned)
    {
      deleteSender.Send(DeleteEvent(row));
    }
  }

  /** A row-update callback: the channel it captured and the event it builds. */
  datatype UpdateCallback<Row, Res> =
    | SendUpdate(updateSender: EventChannel<Row, Res>)
    | SendInsertUpdateOnUpdate(updateSender: EventChannel<Row, Res>)
  {
    function EventFor(oldRow: Row, newRow: Row): StdbEvent<Row, Res>
    {
      match this
      case SendUpdate(_) => UpdateEvent(oldRow, newRow)
      case SendInsertUpdateOnUpdate(_) => InsertUpdateEvent(Some(oldRow), newRow)
    }

    /** The table reported an updated row: exactly one event is sent. */
    method Invoke(oldRow: Row, newRow: Row)
      modifies updateSender
      ensures updateSender.buffer == old(updateSender.buffer) + [EventFor(oldRow, newRow)]
      ensures updateSender.poisoned == old(updateSender.poisoned)
    {
      updateSender.Send(EventFor(oldRow, newRow));
    }
  }

  /** An insert-or-update event carries the new row, and its previous row is
      present exactly when it came from an update, as that update's old row. */
  lemma InsertUpdateEventShape<Row, Res>(ch: EventChannel<Row, Res>, oldRow: Row, newRow: Row)
    ensures SendInsertUpdateOnInsert(ch).EventFor(newRow) == InsertUpdateEvent(None, newRow)
    ensures SendInsertUpdateOnUpdate(ch).EventFor(oldRow, newRow) == InsertUpdateEvent(Some(oldRow), newRow)
    ensures SendInsert(ch).EventFor(newRow).InsertEvent? && SendUpdate(ch).EventFor(oldRow, newRow).UpdateEvent?
  {
  }

  /** A client table of rows of the type named `rowType`, with the callbacks
      registered on it, in registration order. */
  class TableHandle<Row, Res> {
    const rowType: string
    var insertCallbacks: seq<InsertCallback<Row, Res>>
    var deleteCallbacks: seq<DeleteCallback<Row, Res>>
    var updateCallbacks: seq<UpdateCallback<Row, Res>>

    constructor (rowType: string)
      ensures this.rowType == rowType
      ensures insertCallbacks == [] && deleteCallbacks == [] && updateCallbacks == []
    {
      this.rowType := rowType;
      insertCallbacks := [];
      deleteCallbacks := [];
      updateCallbacks := [];
    }

    ghost function Callbacks(): CallbackLists<Row, Res>
      reads this
    {
      CallbackLists(insertCallbacks, deleteCallbacks, updateCallbacks)
    }
  }

  /** The callbacks a table holds, by kind, in registration order. */
  datatype CallbackLists<Row, Res> = CallbackLists(inserts: seq<InsertCallback<Row, Res>>,
                                                   deletes: seq<DeleteCallback<Row, Res>>,
                                                   updates: seq<UpdateCallback<Row, Res>>)

  /** The module a connection builder connects to. */
  datatype ConnectionBuilder = ConnectionBuilder(moduleName: string, uri: string)

  /** A built connection: the builder it came from and the senders of the
      three connection-lifecycle channels it was handed. */
  class DbConnection<Row, Res> {
    const builder: ConnectionBuilder
    const sendConnected: EventChannel<Row, Res>
    const sendDisconnected: EventChannel<Row, Res>
    const sendConnectError: EventChannel<Row, Res>

    constructor (builder: ConnectionBuilder, sendConnected: EventChannel<Row, Res>,
                 sendDisconnected: EventChannel<Row, Res>, sendConnectError: EventChannel<Row, Res>)
      ensures this.builder == builder && this.sendConnected == sendConnected
      ensures this.sendDisconnected == sendDisconnected && this.sendConnectError == sendConnectError
    {
      this.builder := builder;
      this.sendConnected := sendConnected;
      this.sendDisconnected := sendDisconnected;
      this.sendConnectError := sendConnectError;
    }
  }

  /** The connection builder called with the three lifecycle senders: a new
      connection, leaving the objects `others` as they were. */
  method Connect<Row, Res>(builder: ConnectionBuilder, sendConnected: EventChannel<Row, Res>,
                           sendDisconnected: EventChannel<Row, Res>, sendConnectError: EventChannel<Row, Res>,
                           ghost others: set<object>)
    returns (conn: DbConnection<Row, Res>)
    ensures fresh(conn) && conn.builder == builder && conn.sendConnected == sendConnected
    ensures conn.sendDisconnected == sendDisconnected && conn.sendConnectError == sendConnectError
    ensures unchanged(others)
  {
    conn := new DbConnection(builder, sendConnected, sendDisconnected, sendConnectError);
  }

  /** One registration call made by the user's callback-registering function. */
  datatype Registration<Row, Res> =
    | RegisterInsert(table: TableHandle<Row, Res>)
    | RegisterDelete(table: TableHandle<Row, Res>)
    | RegisterUpdate(table: TableHandle<Row, Res>)
    | RegisterInsertUpdate(table: TableHandle<Row, Res>)
    | RegisterReducerEvent(reducer: string)

  /** The event type whose channel a registration opens. */
  function RegistrationType<Row, Res>(reg: Registration<Row, Res>): EventType
  {
    match reg
    case RegisterInsert(table) => InsertType(table.rowType)
    case RegisterDelete(table) => DeleteType(table.rowType)
    case RegisterUpdate(table) => UpdateType(table.rowType)
    case RegisterInsertUpdate(table) => InsertUpdateType(table.rowType)
    case RegisterReducerEvent(reducer) => ReducerResultType(reducer)
  }

  function RegistrationTypes<Row, Res>(regs: seq<Registration<Row, Res>>): (ts: seq<EventType>)
  {
    seq(|regs|, i requires 0 <= i < |regs| => RegistrationType(regs[i]))
  }

  /** The tables a list of registrations installs callbacks on. */
  ghost function Tables<Row, Res>(regs: seq<Registration<Row, Res>>): set<TableHandle<Row, Res>>
  {
    set i | 0 <= i < |regs| && !regs[i].RegisterReducerEvent? :: regs[i].table
  }

  /** Whether `reg` installs callbacks on `table`. */
  predicate Targets<Row, Res>(reg: Registration<Row, Res>, table: TableHandle<Row, Res>)
  {
    !reg.RegisterReducerEvent? && reg.table == table
  }

  /** The callbacks of `reg`'s table after `reg` completed with channel `ch`:
      the helper's callback, or both for `on_insert_update`, appended. */
  function WithCallback<Row, Res>(reg: Registration<Row, Res>, cbs: CallbackLists<Row, Res>,
                                  ch: EventChannel<Row, Res>): CallbackLists<Row, Res>
  {
    match reg
    case RegisterInsert(_) => cbs.(inserts := cbs.inserts + [SendInsert(ch)])
    case RegisterDelete(_) => cbs.(deletes := cbs.deletes + [SendDelete(ch)])
    case RegisterUpdate(_) => cbs.(updates := cbs.updates + [SendUpdate(ch)])
    case RegisterInsertUpdate(_) =>
      cbs.(inserts := cbs.inserts + [SendInsertUpdateOnInsert(ch)],
           updates := cbs.updates + [SendInsertUpdateOnUpdate(ch)])
    case RegisterReducerEvent(_) => cbs
  }

  /** The callbacks `table` holds after all of `regs` completed, starting from
      `cbs`: each registration aimed at it adds its callback, sending to the
      receiver `receivers` holds for its event type. */
  function Installed<Row, Res>(table: TableHandle<Row, Res>, regs: seq<Registration<Row, Res>>,
                               receivers: map<EventType, EventChannel<Row, Res>>,
                               cbs: CallbackLists<Row, Res>): CallbackLists<Row, Res>
    decreases |regs|
  {
    if |regs| == 0 then cbs
    else
      var reg := regs[|regs| - 1];
      var acc := Installed(table, regs[..|regs| - 1], receivers, cbs);
      if Targets(reg, table) && RegistrationType(reg) in receivers
      then WithCallback(reg, acc, receivers[RegistrationType(reg)])
      else acc
  }

  /** `Installed` only looks at the receivers of the registrations' types. */
  lemma {:induction false} InstalledFrame<Row, Res>(table: TableHandle<Row, Res>, regs: seq<Registration<Row, Res>>,
                                                    r1: map<EventType, EventChannel<Row, Res>>,
                                                    r2: map<EventType, EventChannel<Row, Res>>,
                                                    cbs: CallbackLists<Row, Res>)
    requires forall j :: 0 <= j < |regs| ==> RegistrationType(regs[j]) in r1
    requires forall k :: k in r1 ==> k in r2 && r2[k] == r1[k]
    ensures Installed(table, regs, r1, cbs) == Installed(table, regs, r2, cbs)
    decreases |regs|
  {
    if |regs| > 0 {
      var init := regs[..|regs| - 1];
      assert forall j :: 0 <= j < |init| ==> init[j] == regs[j];
      InstalledFrame(table, init, r1, r2, cbs);
    }
  }

  /** One more registration completed: how the callbacks of `table` grow
      when the receivers went from `r1` to `r2`. */
  lemma InstalledStep<Row, Res>(table: TableHandle<Row, Res>, regs: seq<Registration<Row, Res>>, i: nat,
                                r1: map<EventType, EventChannel<Row, Res>>,
                                r2: map<EventType, EventChannel<Row, Res>>,
                                cbs: CallbackLists<Row, Res>)
    requires i < |regs|
    requires forall j :: 0 <= j < i ==> RegistrationType(regs[j]) in r1
    requires forall k :: k in r1 ==> k in r2 && r2[k] == r1[k]
    requires RegistrationType(regs[i]) in r2
    ensures Installed(table, regs[..i + 1], r2, cbs)
            == if Targets(regs[i], table)
               then WithCallback(regs[i], Installed(table, regs[..i], r1, cbs), r2[RegistrationType(regs[i])])
               else Installed(table, regs[..i], r1, cbs)
  {
    assert regs[..i + 1][..i] == regs[..i];
    InstalledFrame(table, regs[..i], r1, r2, cbs);
  }

  /** Every table of `regs` holds, over its callbacks `cbs0` from before,
      those the first `i` registrations install. */
  ghost predicate CallbacksSoFar<Row, Res>(regs: seq<Registration<Row, Res>>, i: nat,
                                           receivers: map<EventType, EventChannel<Row, Res>>,
                                           cbs0: map<TableHandle<Row, Res>, CallbackLists<Row, Res>>)
    requires i <= |regs|
    reads Tables(regs)
  {
    forall tab :: tab in Tables(regs) ==>
      tab in cbs0 && tab.Callbacks() == Installed(tab, regs[..i], receivers, cbs0[tab])
  }

  /** The channels `build` opens itself, in the order it registers them. */
  const ConnectionTypes: seq<EventType> := [ConnectionErrorType, ConnectedType, DisconnectedType]

  const NoConnectionBuilder: string := "Connection builder is not set, use with_connection() method"

  function Elems(ts: seq<EventType>): set<EventType>
  {
    set t | t in ts
  }

  /** Opening the types `ts` one after the other on top of `registered`
      never meets a type that is already open. */
  ghost predicate AllNew(ts: seq<EventType>, registered: set<EventType>)
    decreases |ts|
  {
    |ts| == 0 ||
    (AllNew(ts[..|ts| - 1], registered) && ts[|ts| - 1] !in registered + Elems(ts[..|ts| - 1]))
  }

  lemma AllNewSnoc(ts: seq<EventType>, t: EventType, registered: set<EventType>)
    ensures AllNew(ts + [t], registered) <==> AllNew(ts, registered) && t !in registered + Elems(ts)
  {
    assert (ts + [t])[..|ts|] == ts;
  }

  lemma {:induction false} AllNewPrefix(ts: seq<EventType>, n: nat, registered: set<EventType>)
    requires n <= |ts|
    ensures AllNew(ts, registered) ==> AllNew(ts[..n], registered)
    decreases |ts| - n
  {
    if n == |ts| {
      assert ts[..n] == ts;
    } else if AllNew(ts, registered) {
      var init := ts[..|ts| - 1];
      AllNewPrefix(init, n, registered);
      assert init[..n] == ts[..n];
    }
  }

  /** Opening `ts` in order meets no open type exactly when no type occurs
      twice in `ts` and none was open before. */
  lemma {:induction false} AllNewMeansDistinctAndUnregistered(ts: seq<EventType>, registered: set<EventType>)
    ensures AllNew(ts, registered) <==>
              && (forall i, j :: 0 <= i < j < |ts| ==> ts[i] != ts[j])
              && (forall i :: 0 <= i < |ts| ==> ts[i] !in registered)
    decreases |ts|
  {
    if |ts| > 0 {
      var init := ts[..|ts| - 1];
      var last := ts[|ts| - 1];
      AllNewMeansDistinctAndUnregistered(init, registered);
      assert forall i :: 0 <= i < |init| ==> init[i] == ts[i];
      if last in Elems(init) {
        var k :| 0 <= k < |init| && init[k] == last;
        assert ts[k] == ts[|ts| - 1];
      }
      if !AllNew(ts, registered) && AllNew(init, registered) {
        assert last in registered || last in Elems(init);
        if last in Elems(init) {
          var k :| 0 <= k < |init| && init[k] == last;
          assert ts[k] == ts[|ts| - 1];
        }
      }
    }
  }

  /** One more registration: how the opened types grow, and that a clash
      at this step rules out the whole list. */
  lemma RegistrationStep<Row, Res>(regs: seq<Registration<Row, Res>>, i: nat,
                                   done: seq<EventType>, registered: set<EventType>)
    requires i < |regs|
    ensures var prefix := done + RegistrationTypes(regs[..i]);
            var t := RegistrationType(regs[i]);
            && RegistrationTypes(regs[..i + 1]) == RegistrationTypes(regs[..i]) + [t]
            && done + RegistrationTypes(regs[..i + 1]) == prefix + [t]
            && (AllNew(prefix + [t], registered) <==> AllNew(prefix, registered) && t !in registered + Elems(prefix))
            && (AllNew(done + RegistrationTypes(regs), registered) ==> AllNew(prefix + [t], registered))
  {
    var prefix := done + RegistrationTypes(regs[..i]);
    var t := RegistrationType(regs[i]);
    assert RegistrationTypes(regs[..i + 1]) == RegistrationTypes(regs[..i]) + [t];
    AllNewSnoc(prefix, t, registered);
    var all := done + RegistrationTypes(regs);
    AllNewPrefix(all, |prefix| + 1, registered);
    assert all[..|prefix| + 1] == prefix + [t];
  }

  type ClientView<Row, Res> = AppView<StdbEvent<Row, Res>, DbConnection<Row, Res>>

  /** `now` is `start` with channels of the types `types` added, in that
      order: their drain systems follow the existing ones, every receiver
      and event buffer already present is kept, and a type that had no
      event buffer gets an empty one. */
  ghost predicate Extended<Row, Res>(start: ClientView<Row, Res>, now: ClientView<Row, Res>, types: seq<EventType>)
  {
    && now.preUpdate == start.preUpdate + types
    && now.receivers.Keys == start.receivers.Keys + Elems(types)
    && now.eventTypes == start.eventTypes + Elems(types)
    && (forall k :: k in start.receivers ==> k in now.receivers && now.receivers[k] == start.receivers[k])
    && now.events.Keys == start.events.Keys + Elems(types)
    && (forall k :: k in now.events ==> now.events[k] == if k in start.events then start.events[k] else [])
  }

  /** The types that have a receiver in `now` and had none in `before`. */
  function Added<Row, Res>(before: map<EventType, EventChannel<Row, Res>>, now: map<EventType, EventChannel<Row, Res>>): set<EventType>
  {
    now.Keys - before.Keys
  }

  /** Every receiver `now` has and `start` had not is an empty channel whose
      lock is not poisoned. */
  ghost predicate NewChannelsEmpty<Row, Res>(start: ClientView<Row, Res>, receivers: map<EventType, EventChannel<Row, Res>>)
    reads receivers.Values
  {
    forall k :: k in receivers && k !in start.receivers ==>
      receivers[k].buffer == [] && !receivers[k].poisoned
  }

  lemma ExtendedNothing<Row, Res>(v: ClientView<Row, Res>)
    ensures Extended(v, v, [])
  {
    assert v.preUpdate + [] == v.preUpdate;
    assert Elems([]) == {};
  }

  lemma GrowsTrans(a: set<EventType>, b: set<EventType>, c: set<EventType>, first: seq<EventType>, second: seq<EventType>)
    requires b == a + Elems(first) && c == b + Elems(second)
    ensures c == a + Elems(first + second)
  {
    ElemsAppend(first, second);
  }

  lemma ExtendedTrans<Row, Res>(a: ClientView<Row, Res>, b: ClientView<Row, Res>, c: ClientView<Row, Res>,
                                first: seq<EventType>, second: seq<EventType>)
    requires Extended(a, b, first) && Extended(b, c, second)
    ensures Extended(a, c, first + second)
  {
    assert a.preUpdate + (first + second) == (a.preUpdate + first) + second;
    GrowsTrans(a.receivers.Keys, b.receivers.Keys, c.receivers.Keys, first, second);
    GrowsTrans(a.eventTypes, b.eventTypes, c.eventTypes, first, second);
    GrowsTrans(a.events.Keys, b.events.Keys, c.events.Keys, first, second);
    forall k | k in c.events
      ensures c.events[k] == if k in a.events then a.events[k] else []
    {
      if k in b.events {
        assert b.events[k] == if k in a.events then a.events[k] else [];
      } else {
        assert k !in a.events;
      }
    }
  }

  /** A successful `add_event_channel` of a type not yet open extends the app by it. */
  lemma WithChannelExtends<Row, Res>(v: ClientView<Row, Res>, t: EventType, receiver: EventChannel<Row, Res>)
    requires t !in v.receivers
    ensures Extended(v, WithChannel(v, t, receiver), [t]) && WithChannel(v, t, receiver).connection == v.connection
  {
    assert Elems([t]) == {t};
  }

  /** The three connection-lifecycle channels, added in order to an app
      that has none of them, extend it by `ConnectionTypes`. */
  lemma ConnectionChannelsExtend<Row, Res>(v: ClientView<Row, Res>, v1: ClientView<Row, Res>,
                                           v2: ClientView<Row, Res>, v3: ClientView<Row, Res>)
    requires ConnectionErrorType !in v.receivers && ConnectedType !in v.receivers && DisconnectedType !in v.receivers
    requires ConnectionErrorType in v1.receivers && v1 == WithChannel(v, ConnectionErrorType, v1.receivers[ConnectionErrorType])
    requires ConnectedType in v2.receivers && v2 == WithChannel(v1, ConnectedType, v2.receivers[ConnectedType])
    requires DisconnectedType in v3.receivers && v3 == WithChannel(v2, DisconnectedType, v3.receivers[DisconnectedType])
    ensures Extended(v, v3, ConnectionTypes) && v3.connection == v.connection
  {
    assert [ConnectionErrorType] + [ConnectedType] + [DisconnectedType] == ConnectionTypes;
    WithChannelExtends(v, ConnectionErrorType, v1.receivers[ConnectionErrorType]);
    WithChannelExtends(v1, ConnectedType, v2.receivers[ConnectedType]);
    WithChannelExtends(v2, DisconnectedType, v3.receivers[DisconnectedType]);
    ExtendedTrans(v, v1, v2, [ConnectionErrorType], [ConnectedType]);
    ExtendedTrans(v, v2, v3, [ConnectionErrorType] + [ConnectedType], [DisconnectedType]);
  }

  /** The app `now`, after the first `i` of `regs` completed on top of the
      app `start`, whose open types are `registered` plus `done`. */
  ghost predicate RegisteredSoFar<Row, Res>(start: ClientView<Row, Res>, now: ClientView<Row, Res>,
                                            regs: seq<Registration<Row, Res>>, i: nat,
                                            done: seq<EventType>, registered: set<EventType>)
  {
    && i <= |regs|
    && start.receivers.Keys == registered + Elems(done)
    && AllNew(done + RegistrationTypes(regs[..i]), registered)
    && Extended(start, now, RegistrationTypes(regs[..i]))
    && now.connection == start.connection
  }

  /** Every registration already completed has its receiver open. */
  lemma RegisteredTypesOpen<Row, Res>(start: ClientView<Row, Res>, now: ClientView<Row, Res>,
                                      regs: seq<Registration<Row, Res>>, i: nat,
                                      done: seq<EventType>, registered: set<EventType>)
    requires RegisteredSoFar(start, now, regs, i, done, registered)
    ensures forall j :: 0 <= j < i ==> RegistrationType(regs[j]) in now.receivers
  {
    forall j | 0 <= j < i
      ensures RegistrationType(regs[j]) in now.receivers
    {
      assert RegistrationTypes(regs[..i])[j] == RegistrationType(regs[j]);
    }
  }

  lemma RegisteredNothingYet<Row, Res>(start: ClientView<Row, Res>, regs: seq<Registration<Row, Res>>,
                                       done: seq<EventType>, registered: set<EventType>)
    requires AllNew(done, registered) && start.receivers.Keys == registered + Elems(done)
    ensures RegisteredSoFar(start, start, regs, 0, done, registered)
  {
    assert RegistrationTypes(regs[..0]) == [];
    assert done + [] == done;
    ExtendedNothing(start);
  }

  /** One registration call, from `before` to `after`: when it completes the
      invariant covers one more registration; when it panics the app is
      unchanged and the whole list could not have completed. */
  lemma {:induction false} RegistrationAdvances<Row, Res>(start: ClientView<Row, Res>, before: ClientView<Row, Res>,
                                                          after: ClientView<Row, Res>, o: Outcome,
                                                          regs: seq<Registration<Row, Res>>, i: nat,
                                                          done: seq<EventType>, registered: set<EventType>)
    requires RegisteredSoFar(start, before, regs, i, done, registered) && i < |regs|
    requires Opened(o, RegistrationType(regs[i]), before, after)
    ensures o.Pass? ==> RegisteredSoFar(start, after, regs, i + 1, done, registered)
    ensures o.Panic? ==> after == before && !AllNew(done + RegistrationTypes(regs), registered)
  {
    var t := RegistrationType(regs[i]);
    RegistrationStep(regs, i, done, registered);
    ElemsAppend(done, RegistrationTypes(regs[..i]));
    if o.Pass? {
      WithChannelExtends(before, t, after.receivers[t]);
      ExtendedTrans(start, before, after, RegistrationTypes(regs[..i]), [t]);
    }
  }

  /** The three connection-lifecycle types open without a clash exactly
      when none of them is open yet. */
  lemma ConnectionTypesNew(registered: set<EventType>)
    ensures AllNew(ConnectionTypes, registered) <==>
              ConnectionErrorType !in registered && ConnectedType !in registered && DisconnectedType !in registered
    ensures Elems(ConnectionTypes) == {ConnectionErrorType, ConnectedType, DisconnectedType}
  {
    AllNewSnoc([], ConnectionErrorType, registered);
    AllNewSnoc([ConnectionErrorType], ConnectedType, registered);
    AllNewSnoc([ConnectionErrorType, ConnectedType], DisconnectedType, registered);
    assert [] + [ConnectionErrorType] == [ConnectionErrorType];
    assert [ConnectionErrorType] + [ConnectedType] == [ConnectionErrorType, ConnectedType];
    assert [ConnectionErrorType, ConnectedType] + [DisconnectedType] == ConnectionTypes;
  }

  /** The app after an attempt to open a channel of type `t`: it panics,
      changing nothing, exactly when `t` already had one; otherwise the
      channel is registered. */
  ghost predicate Opened<Row, Res>(o: Outcome, t: EventType,
                                   before: AppView<StdbEvent<Row, Res>, DbConnection<Row, Res>>,
                                   after: AppView<StdbEvent<Row, Res>, DbConnection<Row, Res>>)
  {
    && (o.Panic? <==> t in before.receivers)
    && (o.Panic? ==> o == Panic(AlreadyInitialized) && after == before)
    && (o.Pass? ==> t in after.receivers && after == WithChannel(before, t, after.receivers[t]))
  }

  lemma ElemsAppend(a: seq<EventType>, b: seq<EventType>)
    ensures Elems(a + b) == Elems(a) + Elems(b)
  {
  }

  /** A fresh channel, registered for type `t`. */
  method OpenChannel<Row, Res>(app: ClientApp<Row, Res>, t: EventType)
    returns (o: Outcome, ch: EventChannel<Row, Res>)
    modifies app
    ensures fresh(ch) && ch.buffer == [] && !ch.poisoned
    ensures Opened(o, t, old(app.View()), app.View())
    ensures o.Pass? ==> app.receivers[t] == ch
  {
    ch := new Channel();
    o := AddEventChannel(app, t, ch, {});
  }

  /** The plugin's configuration. */
  datatype StdbPlugin<Row, Res> = StdbPlugin(connectionBuilder: Option<ConnectionBuilder>,
                                             registerEvents: Option<seq<Registration<Row, Res>>>)
  {
    /** `with_connection`. */
    function WithConnection(builder: ConnectionBuilder): StdbPlugin<Row, Res>
    {
      this.(connectionBuilder := Some(builder))
    }

    /** `with_events`. */
    function WithEvents(regs: seq<Registration<Row, Res>>): StdbPlugin<Row, Res>
    {
      this.(registerEvents := Some(regs))
    }

    /** The registrations `build` performs: none without `with_events`. */
    function Registrations(): seq<Registration<Row, Res>>
    {
      if registerEvents.Some? then registerEvents.value else []
    }

    /** Every channel type `build` opens, in order. */
    function BuildTypes(): seq<EventType>
    {
      ConnectionTypes + RegistrationTypes(Registrations())
    }

    /** `on_insert`: opens the row type's insert channel, then installs an
      insert callback sending to it. */
    method OnInsert(app: ClientApp<Row, Res>, table: TableHandle<Row, Res>) returns (o: Outcome)
      modifies app, table
      ensures Opened(o, InsertType(table.rowType), old(app.View()), app.View())
      ensures unchanged(old(app.receivers).Values)
      ensures o.Pass? ==> var ch := app.receivers[InsertType(table.rowType)]; fresh(ch) && ch.buffer == [] && !ch.poisoned
      ensures o.Pass? ==> table.insertCallbacks == old(table.insertCallbacks) + [SendInsert(app.receivers[InsertType(table.rowType)])]
      ensures o.Panic? ==> table.insertCallbacks == old(table.insertCallbacks)
      ensures table.deleteCallbacks == old(table.deleteCallbacks) && table.updateCallbacks == old(table.updateCallbacks)
    {
      var ch;
      o, ch := OpenChannel(app, InsertType(table.rowType));
      if o.Panic? {
        return;
      }
      table.insertCallbacks := table.insertCallbacks + [SendInsert(ch)];
    }

    /** `on_delete`: opens the row type's delete channel, then installs a
      delete callback sending to it. */
    method OnDelete(app: ClientApp<Row, Res>, table: TableHandle<Row, Res>) returns (o: Outcome)
      modifies app, table
      ensures Opened(o, DeleteType(table.rowType), old(app.View()), app.View())
      ensures unchanged(old(app.receivers).Values)
      ensures o.Pass? ==> var ch := app.receivers[DeleteType(table.rowType)]; fresh(ch) && ch.buffer == [] && !ch.poisoned
      ensures o.Pass? ==> table.deleteCallbacks == old(table.deleteCallbacks) + [SendDelete(app.receivers[DeleteType(table.rowType)])]
      ensures o.Panic? ==> table.deleteCallbacks == old(table.deleteCallbacks)
      ensures table.insertCallbacks == old(table.insertCallbacks) && table.updateCallbacks == old(table.updateCallbacks)
    {
      var ch;
      o, ch := OpenChannel(app, DeleteType(table.rowType));
      if o.Panic? {
        return;
      }
      table.deleteCallbacks := table.deleteCallbacks + [SendDelete(ch)];
    }

    /** `on_update`: opens the row type's update channel, then installs an
      update callback sending to it. */
    method OnUpdate(app: ClientApp<Row, Res>, table: TableHandle<Row, Res>) returns (o: Outcome)
      modifies app, table
      ensures Opened(o, UpdateType(table.rowType), old(app.View()), app.View())
      ensures unchanged(old(app.receivers).Values)
      ensures o.Pass? ==> var ch := app.receivers[UpdateType(table.rowType)]; fresh(ch) && ch.buffer == [] && !ch.poisoned
      ensures o.Pass? ==> table.updateCallbacks == old(table.updateCallbacks) + [SendUpdate(app.receivers[UpdateType(table.rowType)])]
      ensures o.Panic? ==> table.updateCallbacks == old(table.updateCallbacks)
      ensures table.insertCallbacks == old(table.insertCallbacks) && table.deleteCallbacks == old(table.deleteCallbacks)
    {
      var ch;
      o, ch := OpenChannel(app, UpdateType(table.rowType));
      if o.Panic? {
        return;
      }
      table.updateCallbacks := table.updateCallbacks + [SendUpdate(ch)];
    }

    /** `on_insert_update`: opens one channel and installs both an update and
      an insert callback sending to it, so inserts and updates of the table
      arrive interleaved in the order they happened. */
    method OnInsertUpdate(app: ClientApp<Row, Res>, table: TableHandle<Row, Res>) returns (o: Outcome)
      modifies app, table
      ensures Opened(o, InsertUpdateType(table.rowType), old(app.View()), app.View())
      ensures unchanged(old(app.receivers).Values)
      ensures o.Pass? ==> var ch := app.receivers[InsertUpdateType(table.rowType)]; fresh(ch) && ch.buffer == [] && !ch.poisoned
      ensures o.Pass? ==>
                var ch := app.receivers[InsertUpdateType(table.rowType)];
                && table.updateCallbacks == old(table.updateCallbacks) + [SendInsertUpdateOnUpdate(ch)]
                && table.insertCallbacks == old(table.insertCallbacks) + [SendInsertUpdateOnInsert(ch)]
      ensures o.Panic? ==>
                table.updateCallbacks == old(table.updateCallbacks) && table.insertCallbacks == old(table.insertCallbacks)
      ensures table.deleteCallbacks == old(table.deleteCallbacks)
    {
      var ch;
      o, ch := OpenChannel(app, InsertUpdateType(table.rowType));
      if o.Panic? {
        return;
      }
      table.updateCallbacks := table.updateCallbacks + [SendInsertUpdateOnUpdate(ch)];
      table.insertCallbacks := table.insertCallbacks + [SendInsertUpdateOnInsert(ch)];
    }

    /** `reducer_event`: opens the reducer's result channel and hands back its
      sending side, for the caller to use in a reducer callback. */
    method ReducerEvent(app: ClientApp<Row, Res>, reducer: string) returns (o: Outcome, sender: Channel?<StdbEvent<Row, Res>>)
      modifies app
      ensures Opened(o, ReducerResultType(reducer), old(app.View()), app.View())
      ensures unchanged(old(app.receivers).Values)
      ensures o.Pass? ==> sender == app.receivers[ReducerResultType(reducer)] && fresh(sender) && sender.buffer == [] && !sender.poisoned
    {
      var ch;
      o, ch := OpenChannel(app, ReducerResultType(reducer));
      sender := if o.Pass? then ch else null;
    }

    /** One registration call, dispatched to the helper it names: the
      channel it opens is new and empty, and its table gains that helper's
      callbacks, sending to that channel, or is unchanged on a panic. */
    method Register(app: ClientApp<Row, Res>, reg: Registration<Row, Res>) returns (o: Outcome)
      modifies app, Tables([reg])
      ensures Opened(o, RegistrationType(reg), old(app.View()), app.View())
      ensures unchanged(old(app.receivers).Values)
      ensures o.Pass? ==> var ch := app.receivers[RegistrationType(reg)]; fresh(ch) && ch.buffer == [] && !ch.poisoned
      ensures !reg.RegisterReducerEvent? ==>
                reg.table.Callbacks() == if o.Pass?
                                         then WithCallback(reg, old(reg.table.Callbacks()), app.receivers[RegistrationType(reg)])
                                         else old(reg.table.Callbacks())
    {
      assert !reg.RegisterReducerEvent? ==> [reg][0] == reg;
      match reg
      case RegisterInsert(table) => o := OnInsert(app, table);
      case RegisterDelete(table) => o := OnDelete(app, table);
      case RegisterUpdate(table) => o := OnUpdate(app, table);
      case RegisterInsertUpdate(table) => o := OnInsertUpdate(app, table);
      case RegisterReducerEvent(reducer) =>
        var sender;
        o, sender := ReducerEvent(app, reducer);
    }

    /** The registration calls `regs`, in order, stopping at the first that
      panics. `done` are the types opened before them, on top of
      `registered`. They all complete exactly when no type is opened twice
      or was open before. */
    method RunRegistrations(app: ClientApp<Row, Res>, regs: seq<Registration<Row, Res>>,
                            ghost registered: set<EventType>, ghost done: seq<EventType>,
                            ghost start: ClientView<Row, Res>)
      returns (o: Outcome)
      requires AllNew(done, registered) && app.receivers.Keys == registered + Elems(done)
      requires NewChannelsEmpty(start, app.receivers)
      modifies app, Tables(regs)
      ensures o.Pass? <==> AllNew(done + RegistrationTypes(regs), registered)
      ensures o.Pass? ==> Extended(old(app.View()), app.View(), RegistrationTypes(regs))
      ensures o.Pass? ==>
                && NewChannelsEmpty(start, app.receivers)
                && (forall k :: k in Added(old(app.receivers), app.receivers) ==> fresh(app.receivers[k]))
      ensures o.Pass? ==>
                forall tab :: tab in Tables(regs) ==>
                  tab.Callbacks() == Installed(tab, regs, app.receivers, old(tab.Callbacks()))
      ensures app.connection == old(app.connection)
    {
      ghost var cbs0 := map tab | tab in Tables(regs) :: tab.Callbacks();
      RegisteredNothingYet(app.View(), regs, done, registered);
      assert regs[..0] == [];
      o := RegisterFrom(app, regs, 0, done, registered, old(app.View()), start, cbs0);
      if o.Pass? {
        assert regs[..|regs|] == regs;
      }
    }

    /** The registrations of `regs` from the `i`-th on, once the first `i`
      completed on top of the app `start`, keeping the channels opened
      since the app `base` empty. */
    method RegisterFrom(app: ClientApp<Row, Res>, regs: seq<Registration<Row, Res>>, i: nat,
                        ghost done: seq<EventType>, ghost registered: set<EventType>,
                        ghost start: ClientView<Row, Res>, ghost base: ClientView<Row, Res>,
                        ghost cbs0: map<TableHandle<Row, Res>, CallbackLists<Row, Res>>)
      returns (o: Outcome)
      requires i <= |regs|
      requires RegisteredSoFar(start, app.View(), regs, i, done, registered)
      requires NewChannelsEmpty(base, app.receivers)
      requires CallbacksSoFar(regs, i, app.receivers, cbs0)
      modifies app, Tables(regs)
      ensures o.Pass? <==> AllNew(done + RegistrationTypes(regs), registered)
      ensures o.Pass? ==>
                && RegisteredSoFar(start, app.View(), regs, |regs|, done, registered)
                && NewChannelsEmpty(base, app.receivers)
                && CallbacksSoFar(regs, |regs|, app.receivers, cbs0)
                && (forall k :: k in old(app.receivers) ==> k in app.receivers && app.receivers[k] == old(app.receivers)[k])
                && (forall k :: k in Added(old(app.receivers), app.receivers) ==> fresh(app.receivers[k]))
      ensures app.connection == old(app.connection)
      decreases |regs| - i
    {
      if i == |regs| {
        assert regs[..|regs|] == regs;
        return Pass;
      }
      o := RegisterNext(app, regs, i, done, registered, start, base, cbs0);
      if o.Panic? {
        return;
      }
      ghost var mid := app.receivers;
      o := RegisterFrom(app, regs, i + 1, done, registered, start, base, cbs0);
      if o.Pass? {
        forall k | k in Added(old(app.receivers), app.receivers)
          ensures fresh(app.receivers[k])
        {
          if k in mid {
            assert app.receivers[k] == mid[k];
          } else {
            assert k in Added(mid, app.receivers);
          }
        }
      }
    }

    /** Registration `i` of `regs`, made once the first `i` completed on
      top of the app `start`, keeping the channels opened since the app
      `base` empty. */
    method RegisterNext(app: ClientApp<Row, Res>, regs: seq<Registration<Row, Res>>, i: nat,
                        ghost done: seq<EventType>, ghost registered: set<EventType>,
                        ghost start: ClientView<Row, Res>, ghost base: ClientView<Row, Res>,
                        ghost cbs0: map<TableHandle<Row, Res>, CallbackLists<Row, Res>>)
      returns (o: Outcome)
      requires i < |regs|
      requires RegisteredSoFar(start, app.View(), regs, i, done, registered)
      requires NewChannelsEmpty(base, app.receivers)
      requires CallbacksSoFar(regs, i, app.receivers, cbs0)
      modifies app, Tables(regs)
      ensures o.Pass? ==>
                && RegisteredSoFar(start, app.View(), regs, i + 1, done, registered)
                && NewChannelsEmpty(base, app.receivers)
                && CallbacksSoFar(regs, i + 1, app.receivers, cbs0)
                && RegistrationType(regs[i]) !in old(app.receivers) && RegistrationType(regs[i]) in app.receivers
                && app.receivers == old(app.receivers)[RegistrationType(regs[i]) := app.receivers[RegistrationType(regs[i])]]
                && (forall k :: k in old(app.receivers) ==> k in app.receivers && app.receivers[k] == old(app.receivers)[k])
                && fresh(app.receivers[RegistrationType(regs[i])])
      ensures o.Panic? ==> !AllNew(done + RegistrationTypes(regs), registered) && app.View() == old(app.View())
      ensures o.Panic? ==> forall tab :: tab in Tables(regs) ==> tab.Callbacks() == old(tab.Callbacks())
    {
      assert !regs[i].RegisterReducerEvent? ==> regs[i].table in Tables(regs);
      ghost var before := app.View();
      RegisteredTypesOpen(start, before, regs, i, done, registered);
      o := RegisterTracked(app, regs[i], base, Tables(regs));
      RegistrationAdvances(start, before, app.View(), o, regs, i, done, registered);
      if o.Panic? {
        return;
      }
      forall tab | tab in Tables(regs)
        ensures tab in cbs0 && tab.Callbacks() == Installed(tab, regs[..i + 1], app.receivers, cbs0[tab])
      {
        InstalledStep(tab, regs, i, before.receivers, app.receivers, cbs0[tab]);
      }
    }

    /** `Register`, keeping every channel opened since the app was `start`
      empty, and what it leaves in each of the tables `tables`: a panic
      leaves all of them as they were. */
    method RegisterTracked(app: ClientApp<Row, Res>, reg: Registration<Row, Res>, ghost start: ClientView<Row, Res>,
                           ghost tables: set<TableHandle<Row, Res>>)
      returns (o: Outcome)
      requires NewChannelsEmpty(start, app.receivers)
      modifies app, Tables([reg])
      ensures Opened(o, RegistrationType(reg), old(app.View()), app.View())
      ensures o.Pass? ==> fresh(app.receivers[RegistrationType(reg)]) && NewChannelsEmpty(start, app.receivers)
      ensures o.Pass? ==>
                && RegistrationType(reg) !in old(app.receivers) && RegistrationType(reg) in app.receivers
                && app.receivers == old(app.receivers)[RegistrationType(reg) := app.receivers[RegistrationType(reg)]]
                && (forall k :: k in old(app.receivers) ==> k in app.receivers && app.receivers[k] == old(app.receivers)[k])
      ensures forall tab :: tab in tables ==>
                tab.Callbacks() == if o.Pass? && Targets(reg, tab)
                                   then WithCallback(reg, old(tab.Callbacks()), app.receivers[RegistrationType(reg)])
                                   else old(tab.Callbacks())
    {
      ghost var before := app.View();
      o := Register(app, reg);
      forall tab | tab in tables && !Targets(reg, tab)
        ensures tab.Callbacks() == old(tab.Callbacks())
      {
        assert tab !in Tables([reg]);
      }
      if o.Panic? {
        return;
      }
      forall k | k in app.receivers && k !in start.receivers
        ensures app.receivers[k].buffer == [] && !app.receivers[k].poisoned
      {
        if k != RegistrationType(reg) {
          assert app.receivers[k] == before.receivers[k] && before.receivers[k] in before.receivers.Values;
        }
      }
    }

    /** The connection-error, connected and disconnected channels, opened in
      that order; all three open exactly when none was open before. The
      objects `others` are left as they were. */
    static method OpenConnectionChannels(app: ClientApp<Row, Res>, ghost others: set<object>)
      returns (o: Outcome, sendConnectError: EventChannel<Row, Res>,
               sendConnected: EventChannel<Row, Res>, sendDisconnected: EventChannel<Row, Res>)
      requires app !in others
      modifies app
      ensures o.Pass? <==> AllNew(ConnectionTypes, old(app.receivers.Keys))
      ensures o.Pass? ==>
                && Extended(old(app.View()), app.View(), ConnectionTypes)
                && app.receivers[ConnectionErrorType] == sendConnectError
                && app.receivers[ConnectedType] == sendConnected
                && app.receivers[DisconnectedType] == sendDisconnected
      ensures o.Pass? ==>
                && NewChannelsEmpty(old(app.View()), app.receivers)
                && (forall k :: k in Added(old(app.receivers), app.receivers) ==> fresh(app.receivers[k]))
      ensures app.connection == old(app.connection)
      ensures unchanged(others)
    {
      ConnectionTypesNew(app.receivers.Keys);
      sendConnected := new Channel();
      sendDisconnected := new Channel();
      sendConnectError := new Channel();
      ghost var v0 := app.View();
      o := AddEventChannel(app, ConnectionErrorType, sendConnectError, others);
      if o.Panic? {
        return;
      }
      ghost var v1 := app.View();
      o := AddEventChannel(app, ConnectedType, sendConnected, others);
      if o.Panic? {
        return;
      }
      ghost var v2 := app.View();
      o := AddEventChannel(app, DisconnectedType, sendDisconnected, others);
      if o.Panic? {
        return;
      }
      ConnectionChannelsExtend(v0, v1, v2, app.View());
      forall k | k in Added(v0.receivers, app.receivers)
        ensures fresh(app.receivers[k]) && app.receivers[k].buffer == [] && !app.receivers[k].poisoned
      {
        if k in v1.receivers {
          assert k == ConnectionErrorType && app.receivers[k] == sendConnectError;
        } else if k in v2.receivers {
          assert k == ConnectedType && app.receivers[k] == sendConnected;
        }
      }
    }

    /** `Plugin::build`: opens the connection-error, connected and
      disconnected channels, in that order; panics when no connection
      builder was set; builds the connection with the three senders; runs
      the registrations, if any; stores the connection in the app.
      It completes exactly when a builder is set and no channel type it
      opens is opened twice or was already open. */
    method Build(app: ClientApp<Row, Res>) returns (o: Outcome, conn: DbConnection?<Row, Res>)
      modifies app, Tables(Registrations())
      ensures o.Pass? <==> connectionBuilder.Some? && AllNew(BuildTypes(), old(app.receivers.Keys))
      ensures o.Pass? ==>
                && conn != null && fresh(conn) && conn.builder == connectionBuilder.value
                && app.connection == Some(conn)
                && Extended(old(app.View()), app.View(), BuildTypes())
                && app.receivers[ConnectionErrorType] == conn.sendConnectError
                && app.receivers[ConnectedType] == conn.sendConnected
                && app.receivers[DisconnectedType] == conn.sendDisconnected
      ensures o.Pass? ==>
                && NewChannelsEmpty(old(app.View()), app.receivers)
                && (forall k :: k in Added(old(app.receivers), app.receivers) ==> fresh(app.receivers[k]))
      ensures o.Pass? ==>
                forall tab :: tab in Tables(Registrations()) ==>
                  tab.Callbacks() == Installed(tab, Registrations(), app.receivers, old(tab.Callbacks()))
      ensures o.Panic? ==> app.connection == old(app.connection)
      ensures connectionBuilder.None? && AllNew(ConnectionTypes, old(app.receivers.Keys)) ==>
                o == Panic(NoConnectionBuilder) && Extended(old(app.View()), app.View(), ConnectionTypes)
    {
      conn := null;
      ghost var v0 := app.View();
      AllNewPrefix(BuildTypes(), 3, v0.receivers.Keys);
      assert BuildTypes()[..3] == ConnectionTypes;
      var sendConnectError, sendConnected, sendDisconnected;
      o, sendConnectError, sendConnected, sendDisconnected := OpenConnectionChannels(app, Tables(Registrations()));
      if o.Panic? {
        return;
      }
      if connectionBuilder.None? {
        return Panic(NoConnectionBuilder), null;
      }
      ghost var v1 := app.View();
      label Opened:
      o, conn := ConnectAndRegister(app, sendConnectError, sendConnected, sendDisconnected, v0);
      if o.Pass? {
        forall tab | tab in Tables(Registrations())
          ensures tab.Callbacks() == Installed(tab, Registrations(), app.receivers, old(tab.Callbacks()))
        {
          assert old@Opened(tab.Callbacks()) == old(tab.Callbacks());
        }
        forall k | k in Added(v0.receivers, app.receivers)
          ensures fresh(app.receivers[k])
        {
          if k in v1.receivers {
            assert app.receivers[k] == v1.receivers[k];
          } else {
            assert k in Added(v1.receivers, app.receivers);
          }
        }
      }
    }

    /** The part of `build` after the lifecycle channels opened from the app
      `start`: builds the connection with their senders, runs the
      registrations, and stores the connection. */
    method ConnectAndRegister(app: ClientApp<Row, Res>, sendConnectError: EventChannel<Row, Res>,
                              sendConnected: EventChannel<Row, Res>, sendDisconnected: EventChannel<Row, Res>,
                              ghost start: ClientView<Row, Res>)
      returns (o: Outcome, conn: DbConnection?<Row, Res>)
      requires connectionBuilder.Some?
      requires AllNew(ConnectionTypes, start.receivers.Keys)
      requires Extended(start, app.View(), ConnectionTypes) && NewChannelsEmpty(start, app.receivers)
      requires app.receivers[ConnectionErrorType] == sendConnectError
      requires app.receivers[ConnectedType] == sendConnected
      requires app.receivers[DisconnectedType] == sendDisconnected
      modifies app, Tables(Registrations())
      ensures o.Pass? <==> AllNew(BuildTypes(), start.receivers.Keys)
      ensures o.Pass? ==>
                && conn != null && fresh(conn) && conn.builder == connectionBuilder.value
                && app.connection == Some(conn)
                && Extended(start, app.View(), BuildTypes())
                && NewChannelsEmpty(start, app.receivers)
                && app.receivers[ConnectionErrorType] == conn.sendConnectError
                && app.receivers[ConnectedType] == conn.sendConnected
                && app.receivers[DisconnectedType] == conn.sendDisconnected
                && (forall k :: k in old(app.receivers) ==> k in app.receivers && app.receivers[k] == old(app.receivers)[k])
                && (forall k :: k in Added(old(app.receivers), app.receivers) ==> fresh(app.receivers[k]))
      ensures o.Pass? ==>
                forall tab :: tab in Tables(Registrations()) ==>
                  tab.Callbacks() == Installed(tab, Registrations(), app.receivers, old(tab.Callbacks()))
      ensures o.Panic? ==> app.connection == old(app.connection)
    {
      ghost var r0 := app.receivers;
      conn := Connect(connectionBuilder.value, sendConnected, sendDisconnected, sendConnectError, Tables(Registrations()));
      label Built:
      o := RegisterAll(app, start);
      if o.Panic? {
        return;
      }
      assert forall t :: t in ConnectionTypes ==> t in r0 && app.receivers[t] == r0[t];
      label Registered:
      app.InsertConnection(conn, Tables(Registrations()));
      forall tab | tab in Tables(Registrations())
        ensures tab.Callbacks() == Installed(tab, Registrations(), app.receivers, old(tab.Callbacks()))
      {
        assert tab.Callbacks() == old@Registered(tab.Callbacks());
        assert old@Built(tab.Callbacks()) == old(tab.Callbacks());
      }
    }

    /** The registrations of `build`, run once the lifecycle channels opened
      from the app `start`. */
    method RegisterAll(app: ClientApp<Row, Res>, ghost start: ClientView<Row, Res>)
      returns (o: Outcome)
      requires AllNew(ConnectionTypes, start.receivers.Keys)
      requires Extended(start, app.View(), ConnectionTypes) && NewChannelsEmpty(start, app.receivers)
      modifies app, Tables(Registrations())
      ensures o.Pass? <==> AllNew(BuildTypes(), start.receivers.Keys)
      ensures o.Pass? ==>
                && Extended(start, app.View(), BuildTypes())
                && NewChannelsEmpty(start, app.receivers)
                && (forall k :: k in old(app.receivers) ==> k in app.receivers && app.receivers[k] == old(app.receivers)[k])
                && (forall k :: k in Added(old(app.receivers), app.receivers) ==> fresh(app.receivers[k]))
                && (forall tab :: tab in Tables(Registrations()) ==>
                      tab.Callbacks() == Installed(tab, Registrations(), app.receivers, old(tab.Callbacks())))
      ensures app.connection == old(app.connection)
    {
      ghost var v1 := app.View();
      o := RunRegistrations(app, Registrations(), start.receivers.Keys, ConnectionTypes, start);
      if o.Panic? {
        return;
      }
      ExtendedTrans(start, v1, app.View(), ConnectionTypes, RegistrationTypes(Registrations()));
    }
  }

  /** `StdbPlugin::default`: no builder, no registrations. */
  function DefaultPlugin<Row, Res>(): StdbPlugin<Row, Res>
  {
    StdbPlugin(None, None)
  }

  /** The two configuration setters touch separate fields, commute, and the
      later call of the same setter wins. */
  lemma ConfigurationSettersIndependent<Row, Res>(p: StdbPlugin<Row, Res>, b1: ConnectionBuilder, b2: ConnectionBuilder,
                                                  regs: seq<Registration<Row, Res>>)
    ensures p.WithConnection(b1).registerEvents == p.registerEvents
    ensures p.WithEvents(regs).connectionBuilder == p.connectionBuilder
    ensures p.WithConnection(b1).WithEvents(regs) == p.WithEvents(regs).WithConnection(b1)
    ensures p.WithConnection(b1).WithConnection(b2) == p.WithConnection(b2)
    ensures DefaultPlugin<Row, Res>().WithConnection(b1).WithEvents(regs).Registrations() == regs
  {
  }

  /** Building twice into one app never completes the second time: the
      connection-lifecycle channels are already open. */
  lemma SecondBuildPanics<Row, Res>(p: StdbPlugin<Row, Res>, registered: set<EventType>)
    requires ConnectedType in registered
    ensures !AllNew(p.BuildTypes(), registered)
  {
    AllNewMeansDistinctAndUnregistered(p.BuildTypes(), registered);
    assert p.BuildTypes()[1] == ConnectedType;
  }
}
