/** The Postgres-backed store: looking a user up by phone number and inserting a
    relation. The SQL text and the database are abstracted: a select yields the
    rows its cursor produces (or fails), an insert executes (or fails). */
module Storage {
  import opened Entities

  /** The three columns of a `users` row, in the order they are scanned. */
  datatype UserRaw = UserRaw(userID: int, name: string, phoneNumber: string)

  /** One step of the cursor: the columns of the next row, or the error of its scan. */
  datatype ScannedRow = Scanned(raw: UserRaw) | ScanFailed(error: Error)

  /** What a select on `users` gives: the statement could not be built, the query
      failed, or the rows the cursor goes through until `Next` reports no more. */
  datatype SelectOutcome =
    | SelectBuildFailed
    | SelectFailed(error: Error)
    | SelectRows(rows: seq<ScannedRow>)

  /** What an insert gives: the statement could not be built, its execution
      failed, or it ran and reported the number of rows affected. */
  datatype ExecOutcome =
    | InsertBuildFailed
    | ExecFailed(error: Error)
    | Executed(rowsAffected: int)

  /** A Go call either returns a value or panics. */
  datatype Call<+T> = Returned(value: T) | Panicked(reason: string)

  /** Column name to value, as handed to the insert builder. */
  type Record = map<string, int>

  const ErrBuildUserQuery: Error := Error("failed to build a query user")
  const ErrExecUserQuery: Error := Error("failed to execute a query user")
  const ErrReadUser: Error := Error("failed to read user from database")
  /** Returned both when the insert cannot be built and when it fails to execute. */
  const ErrInsertRelation: Error := Error("failed to build a query insert relation")
  /** The runtime panic of indexing an empty slice at 0. */
  const EmptyIndexPanic: string := "runtime error: index out of range [0] with length 0"

  /** Copies a scanned row into a user, field by field. */
  function BuildUser(raw: UserRaw): (u: User)
    ensures u.userID == raw.userID && u.name == raw.name && u.phoneNumber == raw.phoneNumber
  {
    User(raw.userID, raw.name, raw.phoneNumber)
  }

  function RawOf(u: User): (raw: UserRaw) {
    UserRaw(u.userID, u.name, u.phoneNumber)
  }

  /** `BuildUser` loses nothing: it is a bijection between rows and users. */
  lemma BuildUserBijective(raw: UserRaw, u: User)
    ensures RawOf(BuildUser(raw)) == raw
    ensures BuildUser(RawOf(u)) == u
  {
  }

  /** The record `SaveRelation` inserts. It names the owner and the target and
      leaves `relation_id` to the database. */
  function InsertRecord(relation: Relation): (r: Record)
    ensures r.Keys == {"user_id", "relation_user_id"}
    ensures "relation_id" !in r
    ensures r["user_id"] == relation.userID && r["relation_user_id"] == relation.relationUserID
  {
    map["user_id" := relation.userID, "relation_user_id" := relation.relationUserID]
  }

  /** Reads a relation back from an insert record. */
  function RelationOf(r: Record): (relation: Option<Relation>) {
    if "user_id" in r && "relation_user_id" in r then
      Some(Relation(r["user_id"], r["relation_user_id"]))
    else
      None
  }

  lemma InsertRecordRoundTrip(relation: Relation)
    ensures RelationOf(InsertRecord(relation)) == Some(relation)
  {
  }

  /** Inserts one relation. The outcome of the insert is a function of the record
      it is given; any failure is replaced by one fixed message. */
  function SaveRelation(relation: Relation, insert: Record -> ExecOutcome): (err: Option<Error>)
    ensures err.None? <==> insert(InsertRecord(relation)).Executed?
    ensures err.Some? ==> err.value == ErrInsertRelation
  {
    match insert(InsertRecord(relation))
    case InsertBuildFailed => Some(ErrInsertRelation)
    case ExecFailed(_) => Some(ErrInsertRelation)
    case Executed(_) => None
  }

  /** The `rows.Next()` loop: scans every row in order, stopping at the first
      scan that fails. */
  method CollectRows(rows: seq<ScannedRow>) returns (r: Result<seq<UserRaw>>)
    ensures r.Failure? <==> exists i :: 0 <= i < |rows| && rows[i].ScanFailed?
    ensures r.Failure? ==> r.error == ErrReadUser
    ensures r.Success? ==>
      |r.value| == |rows| && forall i :: 0 <= i < |rows| ==> rows[i] == Scanned(r.value[i])
  {
    var userRaws: seq<UserRaw> := [];
    var i := 0;
    while i < |rows|
      invariant 0 <= i <= |rows|
      invariant |userRaws| == i
      invariant forall j :: 0 <= j < i ==> rows[j] == Scanned(userRaws[j])
    {
      match rows[i]
      case ScanFailed(_) =>
        return Failure(ErrReadUser);
      case Scanned(raw) =>
        userRaws := userRaws + [raw];
      i := i + 1;
    }
    return Success(userRaws);
  }

  /** Looks a user up by phone number, as the store does: the first scanned row
      becomes the user. With no rows at all, indexing the empty slice panics, so
      a nil user with a nil error is never returned. */
  method FindUserByPhone(number: string, query: string -> SelectOutcome) returns (r: Call<UserLookup>)
    ensures query(number).SelectBuildFailed? ==> r == Returned(LookupError(ErrBuildUserQuery))
    ensures query(number).SelectFailed? ==> r == Returned(LookupError(ErrExecUserQuery))
    ensures query(number).SelectRows? ==>
      var rows := query(number).rows;
      && ((exists i :: 0 <= i < |rows| && rows[i].ScanFailed?) ==> r == Returned(LookupError(ErrReadUser)))
      && (rows == [] ==> r == Panicked(EmptyIndexPanic))
      && (rows != [] && (forall i :: 0 <= i < |rows| ==> rows[i].Scanned?) ==>
            r == Returned(Found(BuildUser(rows[0].raw))))
    ensures r != Returned(NoUser)
  {
    match query(number)
    case SelectBuildFailed =>
      return Returned(LookupError(ErrBuildUserQuery));
    case SelectFailed(_) =>
      return Returned(LookupError(ErrExecUserQuery));
    case SelectRows(rows) =>
      var collected := CollectRows(rows);
      if collected.Failure? {
        return Returned(LookupError(collected.error));
      }
      var userRaws := collected.value;
      if |userRaws| == 0 {
        return Panicked(EmptyIndexPanic);
      }
      return Returned(Found(BuildUser(userRaws[0])));
  }

  /** The lookup as its caller expects it: no rows means no user (a nil user and
      a nil error), which the contact service skips. Otherwise the same as
      `FindUserByPhone`, and it never panics. */
  method FindUserByPhoneIntended(number: string, query: string -> SelectOutcome) returns (r: UserLookup)
    ensures query(number).SelectBuildFailed? ==> r == LookupError(ErrBuildUserQuery)
    ensures query(number).SelectFailed? ==> r == LookupError(ErrExecUserQuery)
    ensures query(number).SelectRows? ==>
      var rows := query(number).rows;
      && ((exists i :: 0 <= i < |rows| && rows[i].ScanFailed?) ==> r == LookupError(ErrReadUser))
      && (r == NoUser <==> rows == [])
      && (rows != [] && (forall i :: 0 <= i < |rows| ==> rows[i].Scanned?) ==>
            r == Found(BuildUser(rows[0].raw)))
  {
    match query(number)
    case SelectBuildFailed =>
      return LookupError(ErrBuildUserQuery);
    case SelectFailed(_) =>
      return LookupError(ErrExecUserQuery);
    case SelectRows(rows) =>
      var collected := CollectRows(rows);
      if collected.Failure? {
        return LookupError(collected.error);
      }
      var userRaws := collected.value;
      if |userRaws| == 0 {
        return NoUser;
      }
      return Found(BuildUser(userRaws[0]));
  }

  /** A phone number that no user owns: the query succeeds with no rows, and the
      store's lookup panics instead of reporting that nobody matched. */
  method UnknownPhonePanics() returns (r: Call<UserLookup>, intended: UserLookup)
    ensures r == Panicked(EmptyIndexPanic)
    ensures intended == NoUser
  {
    var noRows := (number: string) => SelectRows([]);
    r := FindUserByPhone("+9999", noRows);
    intended := FindUserByPhoneIntended("+9999", noRows);
  }
}
