/** The Bevy events the client plugin delivers, and the Rust event type each
    one has. Rows are of type `Row`; reducer results of type `Res`. */
module Events {
  import opened Wrappers

  /** An error reported by the SpacetimeDB client library. */
  datatype StdbError = StdbError(message: string)

  /** One event value. `ReducerResultEvent::new(result)` is the constructor
      `ReducerResultEvent(result)`. */
  datatype StdbEvent<Row, Res> =
    | StdbConnectedEvent
    | StdbDisconnectedEvent(disconnectError: Option<StdbError>)
    | StdbConnectionErrorEvent(connectionError: StdbError)
    | InsertEvent(row: Row)
    | DeleteEvent(row: Row)
    | UpdateEvent(oldRow: Row, newRow: Row)
    | InsertUpdateEvent(previousRow: Option<Row>, currentRow: Row)
    | ReducerResultEvent(result: Res)

  /** The Rust type of an event, which is what channels are registered by:
      one type per row type for the row events, one per reducer type for
      reducer results. */
  datatype EventType =
    | ConnectedType
    | DisconnectedType
    | ConnectionErrorType
    | InsertType(insertedRow: string)
    | DeleteType(deletedRow: string)
    | UpdateType(updatedRow: string)
    | InsertUpdateType(upsertedRow: string)
    | ReducerResultType(reducer: string)
}
