/** The main window's state, with widgets and network libraries abstracted
    away: the account table (a list of rows changed in place), the client
    connection handle, the running listener, and the enabled state of the
    buttons that guard them. Calls into the FTP client library, the FTP
    server engine and the file dialogs are parameters whose outcome the
    caller chooses. */
module Window {
  import opened Wrappers
  import opened Accounts

  /** The client connection handle: the server it was opened to and the
      user it logged in as. */
  datatype Connection = Connection(host: string, port: int, user: string)

  /** Whether one call into the FTP client library returned or raised. */
  datatype Call = Returns | Raises

  /** A listening FTP server, by the address it bound. */
  datatype Listener = Listener(ip: string, port: int)

  /** What the account file turned out to hold once chosen: it could not be
      opened or parsed; it parsed to a JSON array of objects; or it parsed
      to some other JSON value. Of the other values, an empty object or an
      empty string iterates to nothing (`empty`). Anything else raises at
      the loop or at its first element: a number, `true` or `null` is not
      iterable, and a non-empty object or string yields a string, which
      cannot be indexed by a member name. */
  datatype Document = Unreadable | Parsed(records: seq<Record>) | NotArray(empty: bool)

  /** How a click on Connect/Disconnect ended. */
  datatype ConnectOutcome = Disconnected | QuitRaised | Connected | ConnectFailed

  /** How a load of the account file ended. */
  datatype LoadOutcome =
    | NoFileChosen
    | ReadRaised
    | ElementRaised
    | Loaded(count: nat)
    | KeyMissing(index: nat, key: string)

  /** How a click on Start Server ended. */
  datatype StartOutcome = NotInstalled | RegisterRaised | BindRaised | Started

  class OpenZilla {
    /** The account table, in display order. */
    var users: seq<Account>
    /** The client connection handle, if any. */
    var ftp: Option<Connection>
    /** The server started by the last successful start, if not stopped. */
    var server: Option<Listener>
    /** The account table the FTP handler class authorizes against. It is a
        class-level attribute of the handler, so it is shared by every
        listener this window has started. */
    var handlerAuthorizer: seq<Account>
    /** Enabled state of the Download and Upload buttons. */
    var transfersEnabled: bool
    /** Enabled state of the Start Server and Stop Server buttons. */
    var startEnabled: bool
    var stopEnabled: bool
    /** The listeners whose serving thread is still accepting connections. */
    ghost var serving: set<Listener>

    /** The buttons reflect the state they guard: transfers are offered
        exactly when connected, Start exactly when no server is held, Stop
        exactly when one is, and the held server is still serving. */
    ghost predicate Valid()
      reads this
    {
      transfersEnabled == ftp.Some? &&
      startEnabled == server.None? &&
      stopEnabled == server.Some? &&
      (server.Some? ==> server.value in serving)
    }

    constructor ()
      ensures Valid()
      ensures users == [] && ftp.None? && server.None? && handlerAuthorizer == []
      ensures startEnabled && !stopEnabled && !transfersEnabled && serving == {}
    {
      users := [];
      ftp := None;
      server := None;
      handlerAuthorizer := [];
      transfersEnabled := false;
      startEnabled := true;
      stopEnabled := false;
      serving := {};
    }

    /** Connect/Disconnect. Connected: quit, then drop the handle; a quit
        that raises leaves the handle in place. Disconnected: open a
        connection to `conn` and log in; the handle is kept only if both
        steps return. `connect` also stands for reading the port field as
        an integer, which raises in the same guarded block. */
    method ToggleConnect(conn: Connection, connect: Call, login: Call, quit: Call)
      returns (outcome: ConnectOutcome)
      requires Valid()
      modifies this`ftp, this`transfersEnabled
      ensures Valid()
      ensures old(ftp).Some? && quit.Returns? ==> outcome == Disconnected && ftp.None?
      ensures old(ftp).Some? && quit.Raises? ==> outcome == QuitRaised && ftp == old(ftp)
      ensures old(ftp).None? && connect.Returns? && login.Returns? ==>
                outcome == Connected && ftp == Some(conn)
      ensures old(ftp).None? && (connect.Raises? || login.Raises?) ==>
                outcome == ConnectFailed && ftp.None?
    {
      if ftp.Some? {
        if quit.Raises? {
          return QuitRaised;
        }
        ftp := None;
        transfersEnabled := false;
        outcome := Disconnected;
      } else {
        ftp := Some(conn);
        if connect.Raises? || login.Raises? {
          ftp := None;
          return ConnectFailed;
        }
        transfersEnabled := true;
        outcome := Connected;
      }
    }

    /** Add User: an accepted dialog (`entry` holds what was typed) appends
        one row at the end; no check is made for an existing username. A
        cancelled dialog changes nothing. */
    method AddUser(entry: Option<Account>)
      modifies this`users
      ensures entry.Some? ==> users == old(users) + [entry.value]
      ensures entry.None? ==> users == old(users)
    {
      if entry.Some? {
        users := users + [entry.value];
      }
    }

    /** Remove User: deletes the selected row, keeping the others in order.
        With no selection, or a selection that is not a row of the table,
        nothing changes. */
    method RemoveUser(selected: Option<nat>)
      modifies this`users
      ensures selected.Some? && selected.value < |old(users)| ==>
                |users| == |old(users)| - 1 &&
                users == old(users)[..selected.value] + old(users)[selected.value + 1..]
      ensures selected.None? || selected.value >= |old(users)| ==> users == old(users)
    {
      if selected.Some? && selected.value < |users| {
        var k := selected.value;
        users := users[..k] + users[k + 1..];
      }
    }

    /** Save JSON: with a file name chosen, the array written holds one
        record per row in table order; an empty file name (the dialog was
        cancelled) writes nothing. The table is not changed. */
    method SaveUsers(fname: string) returns (written: Option<seq<Record>>)
      ensures fname == "" ==> written.None?
      ensures fname != "" ==> written == Some(Records(users))
    {
      if fname == "" {
        return None;
      }
      var data: seq<Record> := [];
      var i := 0;
      while i < |users|
        invariant 0 <= i <= |users|
        invariant |data| == i
        invariant forall j :: 0 <= j < i ==> data[j] == RecordOf(users[j])
      {
        data := data + [RecordOf(users[i])];
        i := i + 1;
      }
      assert data == Records(users);
      written := Some(data);
    }

    /** Load JSON: with a file name chosen and the file parsed, the table is
        cleared and refilled record by record; the first record lacking a
        member stops the load, leaving the rows loaded so far. An empty file
        name, or a file that cannot be read or parsed, leaves the table
        untouched, since parsing happens before the clear. A file that
        parses to a JSON value other than an array still clears the table,
        and then loads nothing. */
    method LoadUsers(fname: string, doc: Document) returns (outcome: LoadOutcome)
      modifies this`users
      ensures fname == "" ==> outcome == NoFileChosen && users == old(users)
      ensures fname != "" && doc.Unreadable? ==> outcome == ReadRaised && users == old(users)
      ensures fname != "" && doc.NotArray? ==>
                users == [] && outcome == (if doc.empty then Loaded(0) else ElementRaised)
      ensures fname != "" && doc.Parsed? ==> users == LoadedRows(doc.records)
      ensures fname != "" && doc.Parsed? && |users| == |doc.records| ==>
                outcome == Loaded(|users|)
      ensures fname != "" && doc.Parsed? && |users| < |doc.records| ==>
                outcome == KeyMissing(|users|, RowOf(doc.records[|users|]).error)
    {
      if fname == "" {
        return NoFileChosen;
      }
      if doc.Unreadable? {
        return ReadRaised;
      }
      users := [];
      if doc.NotArray? {
        return if doc.empty then Loaded(0) else ElementRaised;
      }
      var recs := doc.records;
      var i := 0;
      while i < |recs|
        invariant 0 <= i <= |recs|
        invariant |users| == i
        invariant forall j :: 0 <= j < i ==> RowOf(recs[j]) == Ok(users[j])
      {
        match RowOf(recs[i]) {
          case Err(key) =>
            LoadedRowsUnique(recs, users);
            return KeyMissing(i, key);
          case Ok(a) =>
            users := users + [a];
        }
        i := i + 1;
      }
      LoadedRowsUnique(recs, users);
      outcome := Loaded(|recs|);
    }

    /** The account table handed to the server engine: every row, in table
        order, as (username, password, home directory, permissions). */
    method SnapshotAccounts() returns (authorizer: seq<Account>)
      ensures authorizer == users
    {
      authorizer := [];
      var i := 0;
      while i < |users|
        invariant 0 <= i <= |users|
        invariant authorizer == users[..i]
      {
        authorizer := authorizer + [users[i]];
        i := i + 1;
      }
    }

    /** Start Server. Without the server engine installed nothing happens.
        Otherwise the rows are registered with a fresh authorizer; if the
        authorizer rejects one (`register` raises, for instance on a
        duplicate username) nothing changes. Then the handler's account table
        becomes that snapshot, and the listener is created: if creating it
        fails (`bound` is None, which also stands for the port field not
        reading as an integer) the server held is unchanged, but the new
        account table stays in effect. No check is made that a server is
        already held; the Start button, disabled while one is, is the only
        guard, and a replaced server keeps serving. */
    method StartServer(engineInstalled: bool, register: Call, bound: Option<Listener>)
      returns (outcome: StartOutcome)
      requires Valid()
      modifies this`handlerAuthorizer, this`server, this`serving, this`startEnabled, this`stopEnabled
      ensures Valid()
      ensures !engineInstalled ==>
                outcome == NotInstalled && handlerAuthorizer == old(handlerAuthorizer) &&
                server == old(server) && serving == old(serving)
      ensures engineInstalled && register.Raises? ==>
                outcome == RegisterRaised && handlerAuthorizer == old(handlerAuthorizer) &&
                server == old(server) && serving == old(serving)
      ensures engineInstalled && register.Returns? ==> handlerAuthorizer == users
      ensures engineInstalled && register.Returns? && bound.None? ==>
                outcome == BindRaised && server == old(server) && serving == old(serving)
      ensures engineInstalled && register.Returns? && bound.Some? ==>
                outcome == Started && server == bound && serving == old(serving) + {bound.value}
    {
      if !engineInstalled {
        return NotInstalled;
      }
      var authorizer := SnapshotAccounts();
      if register.Raises? {
        return RegisterRaised;
      }
      handlerAuthorizer := authorizer;
      if bound.None? {
        return BindRaised;
      }
      server := bound;
      serving := serving + {bound.value};
      startEnabled, stopEnabled := false, true;
      outcome := Started;
    }

    /** Stop Server: with no server held, nothing happens; otherwise all its
        connections are closed, it stops serving and no server is held. */
    method StopServer()
      requires Valid()
      modifies this`server, this`serving, this`startEnabled, this`stopEnabled
      ensures Valid()
      ensures old(server).None? ==> server.None? && serving == old(serving)
      ensures old(server).Some? ==> server.None? && serving == old(serving) - {old(server).value}
    {
      if server.Some? {
        serving := serving - {server.value};
        server := None;
        startEnabled, stopEnabled := true, false;
      }
    }
  }
}
