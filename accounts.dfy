/** The server's account table as data: one account per row, and its
    projection to and from the records of the persisted JSON array
    (a list of `{username, password, homedir, perm}` objects). */
module Accounts {
  import opened Wrappers

  /** One row of the account table: the three visible columns
      (username, home directory, permission letters) and the password
      attached to the row as its hidden data. */
  datatype Account = Account(username: string, password: string, homedir: string, perm: string)

  /** One element of the persisted JSON array: an object whose members
      are strings, keyed by member name. */
  type Record = map<string, string>

  const UsernameKey: string := "username"
  const PasswordKey: string := "password"
  const HomedirKey: string := "homedir"
  const PermKey: string := "perm"

  /** The four member names every saved record carries. */
  const Keys: set<string> := {UsernameKey, PasswordKey, HomedirKey, PermKey}

  /** The order in which loading looks the members up: the three columns
      first, then the password. */
  const LookupOrder: seq<string> := [UsernameKey, HomedirKey, PermKey, PasswordKey]

  /** The record saved for one row. */
  function RecordOf(a: Account): Record
  {
    map[UsernameKey := a.username, PasswordKey := a.password,
        HomedirKey := a.homedir, PermKey := a.perm]
  }

  /** The row loaded from one record, or the first member name (in lookup
      order) that the record lacks. Members other than the four are
      ignored. */
  function RowOf(rec: Record): (r: Result<Account, string>)
    ensures r.Ok? <==> Keys <= rec.Keys
    ensures r.Ok? ==> forall k :: k in Keys ==> RecordOf(r.value)[k] == rec[k]
    ensures r.Err? ==> r.error in Keys && r.error !in rec
    ensures r.Err? ==> exists j :: 0 <= j < |LookupOrder| && LookupOrder[j] == r.error &&
                                   forall i :: 0 <= i < j ==> LookupOrder[i] in rec
  {
    if UsernameKey !in rec then
      assert LookupOrder[0] == UsernameKey;
      Err(UsernameKey)
    else if HomedirKey !in rec then
      assert LookupOrder[1] == HomedirKey;
      Err(HomedirKey)
    else if PermKey !in rec then
      assert LookupOrder[2] == PermKey;
      Err(PermKey)
    else if PasswordKey !in rec then
      assert LookupOrder[3] == PasswordKey;
      Err(PasswordKey)
    else Ok(Account(rec[UsernameKey], rec[PasswordKey], rec[HomedirKey], rec[PermKey]))
  }

  /** A saved row loads back as the same row, password included. */
  lemma RecordRoundTrip(a: Account)
    ensures RowOf(RecordOf(a)) == Ok(a)
  {
  }

  /** A record that carries exactly the four members is what saving its
      loaded row produces. */
  lemma RowRoundTrip(rec: Record)
    requires rec.Keys == Keys
    ensures RowOf(rec).Ok? && RecordOf(RowOf(rec).value) == rec
  {
  }

  /** The JSON array written for a table: one record per row, in table order. */
  function Records(rows: seq<Account>): (recs: seq<Record>)
    ensures |recs| == |rows|
    ensures forall i :: 0 <= i < |rows| ==> recs[i] == RecordOf(rows[i])
  {
    if rows == [] then [] else [RecordOf(rows[0])] + Records(rows[1..])
  }

  /** The rows a load leaves in the table: one per record for the longest
      prefix of well-formed records, stopping at the first record that
      lacks a member. */
  function LoadedRows(recs: seq<Record>): (rows: seq<Account>)
    ensures |rows| <= |recs|
    ensures forall i :: 0 <= i < |rows| ==> RowOf(recs[i]) == Ok(rows[i])
    ensures |rows| < |recs| ==> RowOf(recs[|rows|]).Err?
  {
    if recs == [] then []
    else match RowOf(recs[0])
      case Err(_) => []
      case Ok(a) => [a] + LoadedRows(recs[1..])
  }

  /** The longest well-formed prefix is unique: any row list that loads
      record by record and stops only at the end or at a malformed record
      is LoadedRows. */
  lemma LoadedRowsUnique(recs: seq<Record>, rows: seq<Account>)
    requires |rows| <= |recs|
    requires forall i :: 0 <= i < |rows| ==> RowOf(recs[i]) == Ok(rows[i])
    requires |rows| < |recs| ==> RowOf(recs[|rows|]).Err?
    ensures rows == LoadedRows(recs)
  {
  }

  /** Saving a table and loading the result reproduces the table exactly:
      same length, same order, all four fields. */
  lemma SaveThenLoad(rows: seq<Account>)
    ensures LoadedRows(Records(rows)) == rows
  {
  }

  /** Loading a file whose records each carry exactly the four members
      loads every record, and saving the table writes the same records
      back. */
  lemma {:induction false} LoadThenSave(recs: seq<Record>)
    requires forall i :: 0 <= i < |recs| ==> recs[i].Keys == Keys
    ensures |LoadedRows(recs)| == |recs|
    ensures Records(LoadedRows(recs)) == recs
  {
    var rows := LoadedRows(recs);
    assert forall i :: 0 <= i < |recs| ==> RowOf(recs[i]).Ok?;
    forall i | 0 <= i < |recs| ensures Records(rows)[i] == recs[i] {
      RowRoundTrip(recs[i]);
    }
  }
}
