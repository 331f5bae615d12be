# OpenBaseWriter core: account table, client connection and listener state

OpenBaseWriter is a desktop FTP client and FTP server in one window
(`main.py`). Most of that file is widget code. This project models the three
pieces of logic inside it, with the widgets and network libraries abstracted
away:

- **The server's account table.** The user tree widget is really an ordered
  list of accounts. Each row holds a username, a home directory and a
  permission string, and the row carries the account's password as hidden
  data. The model has *Add User*, *Remove User*, *Save JSON* and *Load JSON*.
  It also has the copy of every row into the server engine's authorizer when
  the server starts. The persisted file is a JSON array of
  `{username, password, homedir, perm}` objects. It is modelled as a list of
  string-to-string records, not as JSON text.
- **The client connection** (`self.ftp`). *Connect/Disconnect* is a
  two-state toggle between no handle and a handle.
- **The listener** (`self.server`). *Start Server* and *Stop Server* form a
  small state machine. The enabled state of the Start and Stop buttons is
  part of that machine, because it is the only guard against a second start.

Layout:

- `wrappers.dfy` (module `Wrappers`): `Option` and `Result`.
- `accounts.dfy` (module `Accounts`): `Account` and `Record`, the projection
  of a row to a record (`RecordOf`, `Records`) and back (`RowOf`,
  `LoadedRows`), and the save/load round-trip lemmas.
- `openzilla.dfy` (module `Window`): class `OpenZilla`. It holds the table as
  a `seq<Account>` field, the `ftp` and `server` handles, the handler's
  authorizer table and the button states. Each method of the class models
  one handler of the window.

Calls that leave the program are parameters chosen by the caller:

- a file dialog gives a file name, and `""` means cancelled;
- the contents of the chosen account file are a `Document`;
- an FTP `connect`, `login` or `quit` is a `Call` that returns or raises;
- whether the server engine is installed is a `bool`;
- registering the rows with the server's authorizer is a `Call` that returns or raises;
- binding the listener either gives a `Listener` or fails (`None`).

An exception that escapes a handler is modelled as a distinct outcome
(`ReadRaised`, `ElementRaised`, `QuitRaised`, `RegisterRaised`, `BindRaised`). The state left behind is the
state at the point where the exception was raised.

Behaviour of the code that the model keeps as it is:

- Adding an account makes no duplicate-username check.
- Starting the server makes no already-running check. Only the Start button,
  which is disabled while a server is held, prevents a second start.
- Loading clears the table before reading any record, so a record that lacks
  a member leaves a partly loaded table. The load is all-or-nothing only
  for a file that cannot be read or parsed.
- Disconnecting does not always drop the handle. If `quit` raises, the
  handle stays.
- The handler's account table is a class-level attribute. Starting the
  server replaces it after the rows are registered but before the bind, so a start whose bind fails still
  changes the table in effect for a server that is already running.

## Model

| member | source | states |
|---|---|---|
| `Accounts.RowOf` | main.py:261-263 | A record loads as a row exactly when it has all four members. The loaded row agrees with the record on each of the four members, and other members are ignored. Otherwise the error names a missing member, and it is the first missing one in lookup order: username, homedir, perm, then password. |
| `Accounts.RecordRoundTrip` | main.py:247-252 | The record saved for a row loads back as that same row, password included. |
| `Accounts.RowRoundTrip` | main.py:262-263 | A record with exactly the four members loads, and saving the loaded row gives that record back. |
| `Accounts.Records` | main.py:244-252 | The saved array has one record per row, in table order, and each record is the projection of its row. |
| `Accounts.LoadedRows` | main.py:260-264 | The rows a load leaves come from the longest prefix of well-formed records. There is one row per record, in file order. If the load stops early, the record at the stopping index is malformed. |
| `Accounts.LoadedRowsUnique` | main.py:261-264 | Any row list that matches the records one by one and stops only at the end or at a malformed record equals `LoadedRows`. |
| `Accounts.SaveThenLoad` | main.py:244-264 | Saving a table and loading the saved records reproduces the table exactly: same length, same order, all four fields. |
| `Accounts.LoadThenSave` | main.py:244-264 | A file whose records each have exactly the four members loads completely, and saving the loaded table writes the same records back. |
| `Window.OpenZilla.constructor` | main.py:78-165 | The window starts with an empty table, no client handle, no server and an empty handler authorizer. Start is enabled, and Stop, Download and Upload are disabled. |
| `Window.OpenZilla.ToggleConnect` | main.py:177-197 | When connected and `quit` returns, the handle is dropped. When `quit` raises, the handle is kept. When disconnected, the handle is set exactly when `connect` and `login` both return, and any failure leaves no handle. The transfer buttons stay in step with the handle. |
| `Window.OpenZilla.AddUser` | main.py:230-235 | An accepted dialog appends exactly one row at the end, with the entered fields and password, and keeps every earlier row. There is no duplicate check. A cancelled dialog changes nothing. Only the table can change. |
| `Window.OpenZilla.RemoveUser` | main.py:237-239 | Exactly the selected row is deleted, and the other rows keep their relative order. With no selection the table is unchanged. Only the table can change. |
| `Window.OpenZilla.SaveUsers` | main.py:241-254 | With a file chosen, the array written is `Records` of the table: one record per row, in order, with each field copied. A cancelled choice writes nothing. |
| `Window.OpenZilla.LoadUsers` | main.py:256-265 | A cancelled choice, or a file that cannot be read or parsed, leaves the table untouched. A file that parses to a JSON value other than an array empties the table. It reports 0 loaded for an empty object or string, and raises for any other such value. Otherwise the table becomes `LoadedRows` of the file's array. The outcome is the count when every record loaded, or else the index and name of the first missing member. |
| `Window.OpenZilla.SnapshotAccounts` | main.py:271-274 | The authorizer built for the server holds every row in table order, with username, password, home directory and permissions. |
| `Window.OpenZilla.StartServer` | main.py:267-280 | Without the engine nothing changes. If the authorizer rejects a row while the rows are registered, nothing changes: not the handler's table, the held server, the serving set or the buttons. Otherwise the handler's table becomes the current rows. A failed bind, or a port field that is not an integer, leaves the held server and the serving set unchanged. A successful bind holds the new listener and adds it to the serving set, and an earlier listener is not closed. Later table edits cannot reach the handler's table, because `AddUser`, `RemoveUser` and `LoadUsers` modify only `users`. |
| `Window.OpenZilla.StopServer` | main.py:282-287 | With no server held this is a no-op. Otherwise the held server stops serving and no server is held. The Start and Stop buttons flip back. |

## Left out

- The widget layout, the add-user dialog, the log panes and the progress bar are presentation only. The dialog's default permission string `elradfmw` is presentation too.
- The `Worker` class is a thread-and-signal wrapper and is never used in this file.
- `refresh_local`, `refresh_remote`, `upload` and `download` are filesystem and FTP transfer I/O.
- The FTP client library is not modelled. Its `connect`, `login` and `quit` appear only as outcomes that return or raise. Reading the port field as an integer raises in the same guarded block as `connect`, so it is folded into `connect`.
- The FTP server engine is not modelled: serving connections on a daemon thread, enforcing permissions, and what `close_all` does beyond ending the serving. The engine's authorizer is not modelled either.
- `Window.OpenZilla.StartServer`: whether the authorizer accepts the rows is a parameter (`register`) and is not derived from them. The authorizer rejects a duplicate username, a home directory that does not exist and an unknown permission letter, but the model does not tie `RegisterRaised` to any of these.
- `Window.OpenZilla.SaveUsers`: returns the array that would be written. A failure to open or write the file is not modelled.
- `Window.OpenZilla.LoadUsers`: records are maps from strings to strings, so member values that are not strings are not modelled, and neither are array elements that are not objects. An element that is not an object raises after the clear, like a missing member. The model does not cover a `username`, `homedir` or `perm` that is not a string. Such a value is handed to the tree item's string list, and whether the conversion rejects it or turns it into text (a `null` may become an empty string) depends on the GUI binding. A `password` of any JSON type is stored as the row's data unchanged, so in the code it loads and saves back as it was; the model cannot represent such a password. JSON text encoding and decoding are not modelled.
- What the GUI framework does with an exception that escapes a handler is not modelled.
- The window uses no background-task runner (the `Worker` class is never instantiated), no generation counter for stale results, no guard against overlapping transfers and no duplicate-username check, so the model has none of them either.
