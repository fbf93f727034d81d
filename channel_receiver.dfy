/** The bridge from `mpsc` channels to Bevy events: registering a channel for
    an event type, and the `PreUpdate` system that moves every buffered
    message into that type's event buffer. */
module ChannelReceiver {
  import opened Wrappers
  import opened Events

  /** An `mpsc` channel together with the `Mutex` its receiver sits behind.
      Senders and the receiver share this one object. */
  class Channel<T> {
    /** Messages sent and not yet received, in arrival order. */
    var buffer: seq<T>
    /** The mutex was poisoned; locking it then fails. */
    var poisoned: bool

    constructor ()
      ensures buffer == [] && !poisoned
    {
      buffer := [];
      poisoned := false;
    }

    /** `Sender::send`: never waits; the message goes to the back. */
    method Send(msg: T)
      modifies this
      ensures buffer == old(buffer) + [msg]
      ensures poisoned == old(poisoned)
    {
      buffer := buffer + [msg];
    }

    /** One step of `Receiver::try_iter`: the oldest message, or nothing
      when none is buffered, without waiting. */
    method TryRecv() returns (msg: Option<T>)
      modifies this
      ensures |old(buffer)| == 0 ==> msg == None && buffer == old(buffer)
      ensures |old(buffer)| > 0 ==> msg == Some(old(buffer)[0]) && buffer == old(buffer)[1..]
      ensures poisoned == old(poisoned)
    {
      if |buffer| == 0 {
        return None;
      }
      msg := Some(buffer[0]);
      buffer := buffer[1..];
    }
  }

  /** What an `App` holds that the bridge touches, as one value. */
  datatype AppView<T, R> = AppView(eventTypes: set<EventType>, preUpdate: seq<EventType>,
                                   receivers: map<EventType, Channel<T>>,
                                   events: map<EventType, seq<T>>, connection: Option<R>)

  /** The part of a Bevy `App` the client plugin touches. */
  class App<T, R> {
    /** Event types added with `add_event`. */
    var eventTypes: set<EventType>
    /** The `channel_to_event` systems in the `PreUpdate` schedule, by type, in the order added. */
    var preUpdate: seq<EventType>
    /** The `ChannelReceiver` resources, by type. */
    var receivers: map<EventType, Channel<T>>
    /** The `Events` buffers, by type. */
    var events: map<EventType, seq<T>>
    /** The `StdbConnection` resource. */
    var connection: Option<R>

    ghost function View(): AppView<T, R>
      reads this
    {
      AppView(eventTypes, preUpdate, receivers, events, connection)
    }

    constructor ()
      ensures View() == AppView({}, [], map[], map[], None)
    {
      eventTypes := {};
      preUpdate := [];
      receivers := map[];
      events := map[];
      connection := None;
    }

    /** `insert_resource` of the connection: replaces the stored connection
        and leaves everything else as it was, the channels it holds and the
        objects `others` included. */
    method InsertConnection(conn: R, ghost others: set<object>)
      requires this !in others
      modifies this
      ensures View() == old(View()).(connection := Some(conn))
      ensures receivers == old(receivers) && unchanged(receivers.Values) && unchanged(others)
    {
      connection := Some(conn);
    }
  }

  /** An app view after a successful `add_event_channel` of type `t`. */
  function WithChannel<T, R>(v: AppView<T, R>, t: EventType, receiver: Channel<T>): AppView<T, R>
  {
    v.(eventTypes := v.eventTypes + {t},
       preUpdate := v.preUpdate + [t],
       receivers := v.receivers[t := receiver],
       events := if t in v.events then v.events else v.events[t := []])
  }

  const AlreadyInitialized: string := "this SpacetimeDB event channel is already initialized"

  const LockFailed: string := "unable to acquire mutex lock"

  /** `add_event_channel`: panics, changing nothing, when type `t` already
      has a receiver; otherwise adds the event type, the drain system and
      the receiver. The receiver, the channels already held and the objects
      `others` are left as they were. */
  method AddEventChannel<T, R>(app: App<T, R>, t: EventType, receiver: Channel<T>, ghost others: set<object>)
    returns (o: Outcome)
    requires app !in others
    modifies app
    ensures t in old(app.receivers) ==> o == Panic(AlreadyInitialized) && app.View() == old(app.View())
    ensures t !in old(app.receivers) ==> o == Pass && app.View() == WithChannel(old(app.View()), t, receiver)
    ensures unchanged(receiver) && unchanged(old(app.receivers).Values) && unchanged(others)
  {
    if t in app.receivers {
      return Panic(AlreadyInitialized);
    }
    app.eventTypes := app.eventTypes + {t};
    if t !in app.events {
      app.events := app.events[t := []];
    }
    app.preUpdate := app.preUpdate + [t];
    app.receivers := app.receivers[t := receiver];
    o := Pass;
  }

  /** `channel_to_event` for type `t`: panics when the receiver's lock is
      poisoned; otherwise moves every buffered message, in arrival order,
      to the end of the type's event buffer, leaving the channel empty. */
  method ChannelToEvent<T, R>(app: App<T, R>, t: EventType) returns (o: Outcome)
    requires t in app.receivers && t in app.events
    modifies app, app.receivers[t]
    ensures app.eventTypes == old(app.eventTypes) && app.preUpdate == old(app.preUpdate)
    ensures app.receivers == old(app.receivers) && app.connection == old(app.connection)
    ensures app.receivers[t].poisoned == old(app.receivers[t].poisoned)
    ensures old(app.receivers[t].poisoned) ==>
              && o == Panic(LockFailed)
              && app.events == old(app.events)
              && app.receivers[t].buffer == old(app.receivers[t].buffer)
    ensures !old(app.receivers[t].poisoned) ==>
              && o == Pass
              && app.events == old(app.events)[t := old(app.events[t]) + old(app.receivers[t].buffer)]
              && app.receivers[t].buffer == []
  {
    var channel := app.receivers[t];
    if channel.poisoned {
      return Panic(LockFailed);
    }
    var batch := [];
    while true
      invariant batch + channel.buffer == old(channel.buffer)
      invariant channel.poisoned == old(channel.poisoned)
      invariant app.View() == old(app.View())
      decreases |channel.buffer|
    {
      var msg := channel.TryRecv();
      if msg.None? {
        break;
      }
      batch := batch + [msg.value];
    }
    assert batch == old(channel.buffer);
    app.events := app.events[t := app.events[t] + batch];
    o := Pass;
  }

  /** Two drains with no send between them: the second finds the channel
      empty and forwards nothing, so the buffer holds each message once. */
  method DrainTwice<T, R>(app: App<T, R>, t: EventType) returns (first: Outcome, second: Outcome)
    requires t in app.receivers && t in app.events && !app.receivers[t].poisoned
    modifies app, app.receivers[t]
    ensures first == Pass && second == Pass
    ensures app.receivers == old(app.receivers)
    ensures app.events == old(app.events)[t := old(app.events[t]) + old(app.receivers[t].buffer)]
    ensures app.receivers[t].buffer == []
  {
    first := ChannelToEvent(app, t);
    ghost var afterFirst := app.events;
    second := ChannelToEvent(app, t);
    assert afterFirst[t] + [] == afterFirst[t];
    assert app.events == afterFirst;
  }
}
