/**
 * services/connect.js: `mongoClientHandler`, which creates a client,
 * connects it, selects the database named at configuration time and hands
 * back three closures over that client. The client and the store are
 * external; what the model keeps is the client's lifecycle.
 */
module Connect {
  import opened Wrappers
  import opened Errors

  /** The handler's `client`: never created, connected, or closed by `killSwitch`. */
  datatype ClientState = Absent | Open | Closed

  /** `db.collection(name)`: a handle on one named collection of one database. */
  datatype CollectionRef = CollectionRef(database: string, name: string)

  const CloseError: ExpressError :=
    ExpressError("Error occured while attempting to close database client", Some(500))

  /** The object `mongoClientHandler` returns, with the `client` and `db` it closes over. */
  class ClientHandler {
    var client: ClientState
    /** The database selected by `client.db(DB_NAME)` once connected. */
    const dbName: string

    /** A client exists; true of every handler `mongoClientHandler` returns, open or closed. */
    ghost predicate Valid()
      reads this
    {
      client != Absent
    }

    constructor (dbName: string)
      ensures Valid() && client == Open && this.dbName == dbName
    {
      this.dbName := dbName;
      client := Open;
    }

    /** `getCollectionInstance(name)`: always a collection of the database chosen at connect time. */
    function GetCollectionInstance(collectionName: string): (c: CollectionRef)
      ensures c.database == dbName && c.name == collectionName
    {
      CollectionRef(dbName, collectionName)
    }

    /** `checkClientConnection()`: `!!client`, whether a client object exists, not whether it is live. */
    predicate CheckClientConnection(): (b: bool)
      reads this
      ensures b <==> client in {Open, Closed}
    {
      client != Absent
    }

    /**
     * `killSwitch()`: closes the client when one exists. `closeFails` stands
     * for `client.close()` rejecting; that failure is reported as `CloseError`
     * whatever it was, and the client is then taken to be as it was.
     */
    method KillSwitch(closeFails: bool) returns (err: Option<ExpressError>)
      modifies this
      ensures old(client) == Absent ==> err == None && client == Absent
      ensures old(client) != Absent && !closeFails ==> err == None && client == Closed
      ensures old(client) != Absent && closeFails ==> err == Some(CloseError) && client == old(client)
      ensures CheckClientConnection() == old(CheckClientConnection())
    {
      err := None;
      if client != Absent {
        if closeFails {
          err := Some(CloseError);
          return;
        }
        client := Closed;
        return;
      }
    }
  }

  /**
   * `mongoClientHandler()`. `connectFails` stands for the client's
   * construction or `connect()` throwing; the error is swallowed and the
   * function yields `undefined` (here `null`). A handler is returned only
   * after a successful connect.
   */
  method MongoClientHandler(dbName: string, connectFails: bool) returns (h: ClientHandler?)
    ensures connectFails <==> h == null
    ensures h != null ==> fresh(h) && h.Valid() && h.client == Open && h.dbName == dbName
  {
    if connectFails {
      h := null;
    } else {
      h := new ClientHandler(dbName);
    }
  }
}
