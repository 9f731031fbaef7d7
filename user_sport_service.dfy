/**
 * `UserSportService`: add, update, delete and list the sports of one user. The
 * two database tables it touches are the state of the model: `user_sports`,
 * one row per (user, sport), and `sports`, whose `name` the reads join in. What
 * a database call can report besides the table's own answer (a connection
 * failure, a refused statement) is a parameter of each operation.
 */
module UserSportService {
  import opened Wrappers
  import opened Text
  import opened JsValue
  import opened Dtos
  import opened UserSportCommands
  import Choice

  // ---------------------------------------------------------------------------
  // Tables
  // ---------------------------------------------------------------------------

  /** A `user_sports` row, without its key. */
  datatype Row = Row(parameters: Value, customRangeKm: Option<int>)

  /** (user_id, sport_id) */
  type Key = (string, int)

  datatype Tables = Tables(userSports: map<Key, Row>, sports: map<int, string>)

  /** Every row names a sport that exists, so the join with `sports` always finds a name. */
  predicate Joined(t: Tables) {
    forall k :: k in t.userSports ==> k.1 in t.sports
  }

  /** A joined row as the service returns it. */
  function ToDto(t: Tables, k: Key): UserSportDto
    requires Joined(t) && k in t.userSports
  {
    UserSportDto(k.1, t.sports[k.1], t.userSports[k].parameters, t.userSports[k].customRangeKm)
  }

  /** The sport ids one user has rows for. */
  function SportIdsOf(t: Tables, userId: string): set<int> {
    set k | k in t.userSports && k.0 == userId :: k.1
  }

  // ---------------------------------------------------------------------------
  // Errors
  // ---------------------------------------------------------------------------

  const UserIdRequired := "User ID is required"
  const ValidSportIdRequired := "Valid sport ID is required"
  const InvalidResponseFormat := "Invalid response format from database"

  function SportNotFoundError(sportId: int): Value {
    NamedError("SportNotFoundError", "Sport with id " + IntToString(sportId) + " not found")
  }

  function DuplicateSportError(sportId: int): Value {
    NamedError("DuplicateSportError", "User already has sport with id " + IntToString(sportId))
  }

  function UserSportNotFoundError(sportId: int): Value {
    NamedError("UserSportNotFoundError", "Sport with id " + IntToString(sportId) + " not found in user's profile")
  }

  /** The error a single-row select reports when no row matched. */
  predicate IsNoRowsError(e: Value) {
    Truthy(e) && GetOptional(e, "code") == Str("PGRST116")
  }

  // ---------------------------------------------------------------------------
  // Update
  // ---------------------------------------------------------------------------

  /** The columns an update writes; an absent field leaves its column alone. */
  datatype UpdateData = UpdateData(parameters: Option<Value>, customRangeKm: Option<Option<int>>)

  /**
   * The update payload of a command: `parameters` when the command's value is
   * truthy, and `custom_range_km` whenever it is given, `null` included.
   */
  function UpdateDataFor(c: UpdateCommand): (d: UpdateData)
    ensures d.parameters.Some? <==> (c.parameters.Some? && Truthy(Obj(c.parameters.value)))
    ensures d.parameters.Some? ==> d.parameters == Some(Obj(c.parameters.value))
    ensures d.customRangeKm.Some? <==> c.customRangeKm.Some?
    ensures c.customRangeKm.Some? ==> d.customRangeKm == c.customRangeKm
  {
    UpdateData(if c.parameters.Some? then Some(Obj(c.parameters.value)) else None, c.customRangeKm)
  }

  /** A row after an update: written columns take the new value, the others keep theirs. */
  function Apply(row: Row, d: UpdateData): (r: Row)
    ensures d.parameters.None? ==> r.parameters == row.parameters
    ensures d.parameters.Some? ==> r.parameters == d.parameters.value
    ensures d.customRangeKm.None? ==> r.customRangeKm == row.customRangeKm
    ensures d.customRangeKm.Some? ==> r.customRangeKm == d.customRangeKm.value
  {
    Row(d.parameters.GetOr(row.parameters), d.customRangeKm.GetOr(row.customRangeKm))
  }

  /**
   * `updateUserSport`: the user id is checked, then the user's row for the sport
   * is updated and read back joined; a reported failure is rethrown and no row
   * means `UserSportNotFoundError`.
   */
  function UpdateSpec(t: Tables, userId: string, sportId: int, c: UpdateCommand, failure: Value): (r: (Tables, Result<UserSportDto, Value>))
    requires Joined(t)
    ensures Joined(r.0)
  {
    var key := (userId, sportId);
    if userId == "" then (t, Err(PlainError(UserIdRequired)))
    else if Truthy(failure) then (t, Err(failure))
    else if key !in t.userSports then (t, Err(UserSportNotFoundError(sportId)))
    else
      var t' := t.(userSports := t.userSports[key := Apply(t.userSports[key], UpdateDataFor(c))]);
      (t', Ok(ToDto(t', key)))
  }

  // ---------------------------------------------------------------------------
  // Add
  // ---------------------------------------------------------------------------

  /** What each of the three calls of `addUserSport` reports besides the table's answer; `Null` for nothing. */
  datatype AddFailures = AddFailures(sportLookup: Value, existingLookup: Value, insert: Value)

  const NoAddFailures := AddFailures(Null, Null, Null)

  /**
   * A reported "no rows" error on the duplicate lookup is the table's own answer
   * for an absent row; it is not reported while the row exists.
   */
  predicate ConsistentLookup(t: Tables, userId: string, sportId: int, existingLookup: Value) {
    IsNoRowsError(existingLookup) ==> (userId, sportId) !in t.userSports
  }

  /**
   * `addUserSport`: the user id; then the sport must exist; then a failure of the
   * duplicate lookup other than "no rows" is rethrown; then an existing row is a
   * duplicate; then the row is inserted (an absent range is stored as `null`)
   * and read back joined.
   */
  function AddSpec(t: Tables, userId: string, c: AddCommand, f: AddFailures): (r: (Tables, Result<UserSportDto, Value>))
    requires Joined(t) && ConsistentLookup(t, userId, c.sportId, f.existingLookup)
    ensures Joined(r.0)
  {
    var key := (userId, c.sportId);
    if userId == "" then (t, Err(PlainError(UserIdRequired)))
    else if Truthy(f.sportLookup) || c.sportId !in t.sports then (t, Err(SportNotFoundError(c.sportId)))
    else if Truthy(f.existingLookup) && !IsNoRowsError(f.existingLookup) then (t, Err(f.existingLookup))
    else if key in t.userSports then (t, Err(DuplicateSportError(c.sportId)))
    else if Truthy(f.insert) then (t, Err(f.insert))
    else
      var t' := t.(userSports := t.userSports[key := Row(Obj(c.parameters), c.customRangeKm.GetOr(None))]);
      (t', Ok(ToDto(t', key)))
  }

  // ---------------------------------------------------------------------------
  // Delete
  // ---------------------------------------------------------------------------

  /**
   * `deleteUserSport`: the user id and a non-zero sport id are checked; the
   * user's row for the sport is deleted; a reported failure is rethrown; and a
   * count that is absent or 0 raises `UserSportNotFoundError`. `countReported`
   * says whether the database client reports the number of deleted rows at all.
   */
  function DeleteSpec(t: Tables, userId: string, sportId: int, failure: Value, countReported: bool): (r: (Tables, Result<(), Value>))
    requires Joined(t)
    ensures Joined(r.0)
  {
    var key := (userId, sportId);
    if userId == "" then (t, Err(PlainError(UserIdRequired)))
    else if sportId == 0 then (t, Err(PlainError(ValidSportIdRequired)))
    else if Truthy(failure) then (t, Err(failure))
    else
      var count: Option<int> := if countReported then Some(if key in t.userSports then 1 else 0) else None;
      var t' := t.(userSports := t.userSports - {key});
      if count.None? || count.value == 0 then (t', Err(UserSportNotFoundError(sportId))) else (t', Ok(()))
  }

  // ---------------------------------------------------------------------------
  // List
  // ---------------------------------------------------------------------------

  /** The `{ data, error }` of the list query: the table's rows, a failure, or data that is not an array. */
  datatype ListReply = Rows | Failed(error: Value) | NotAList

  /** `ds` lists the user's rows, each joined, each sport once, in some order. */
  predicate ListedAs(t: Tables, userId: string, ds: seq<UserSportDto>)
    requires Joined(t)
  {
    RowsOf(t, userId, ds) && DistinctIds(ds) && Covers(ds, SportIdsOf(t, userId))
  }

  /** Each element of `ds` is one of the user's rows, joined. */
  predicate RowsOf(t: Tables, userId: string, ds: seq<UserSportDto>)
    requires Joined(t)
  {
    forall i :: 0 <= i < |ds| ==> (userId, ds[i].sportId) in t.userSports && ds[i] == ToDto(t, (userId, ds[i].sportId))
  }

  predicate DistinctIds(ds: seq<UserSportDto>) {
    forall i, j :: 0 <= i < j < |ds| ==> ds[i].sportId != ds[j].sportId
  }

  predicate NoneIn(ds: seq<UserSportDto>, ids: set<int>) {
    forall i :: 0 <= i < |ds| ==> ds[i].sportId !in ids
  }

  /** One more row, taken from the ids not listed yet, keeps the listing invariants. */
  lemma {:induction false} ExtendListing(t: Tables, userId: string, ds: seq<UserSportDto>, done: set<int>, left: set<int>, id: int)
    requires Joined(t) && (userId, id) in t.userSports && id in left
    requires RowsOf(t, userId, ds) && DistinctIds(ds) && NoneIn(ds, left) && Covers(ds, done)
    ensures var ds' := ds + [ToDto(t, (userId, id))];
      RowsOf(t, userId, ds') && DistinctIds(ds') && NoneIn(ds', left - {id}) && Covers(ds', done + {id})
  {
    var ds' := ds + [ToDto(t, (userId, id))];
    assert ds'[|ds|].sportId == id;
    CoversExtended(ds, done, ds'[|ds|]);
  }

  /** Every id of `ids` is the sport id of some element of `ds`. */
  predicate Covers(ds: seq<UserSportDto>, ids: set<int>) {
    forall s :: s in ids ==> exists i :: 0 <= i < |ds| && ds[i].sportId == s
  }

  lemma {:induction false} CoversExtended(ds: seq<UserSportDto>, ids: set<int>, d: UserSportDto)
    requires Covers(ds, ids)
    ensures Covers(ds + [d], ids + {d.sportId})
  {
    var ds' := ds + [d];
    forall s | s in ids + {d.sportId}
      ensures exists i :: 0 <= i < |ds'| && ds'[i].sportId == s
    {
      if s == d.sportId {
        assert ds'[|ds|].sportId == s;
      } else {
        var i :| 0 <= i < |ds| && ds[i].sportId == s;
        assert ds'[i].sportId == s;
      }
    }
  }

  // ---------------------------------------------------------------------------
  // The service over the two tables
  // ---------------------------------------------------------------------------

  class UserSportService {
    var userSports: map<Key, Row>
    var sports: map<int, string>

    function State(): Tables
      reads this
    {
      Tables(userSports, sports)
    }

    /** A service over the given sports and no user sports yet. */
    constructor(sports: map<int, string>)
      ensures State() == Tables(map[], sports)
    {
      this.userSports := map[];
      this.sports := sports;
    }

    method UpdateUserSport(userId: string, sportId: int, command: UpdateCommand, failure: Value) returns (r: Result<UserSportDto, Value>)
      requires Joined(State())
      modifies this
      ensures (State(), r) == UpdateSpec(old(State()), userId, sportId, command, failure)
    {
      if userId == "" {
        return Err(PlainError(UserIdRequired));
      }
      // the payload, one field at a time
      var data := UpdateData(None, None);
      if command.parameters.Some? && Truthy(Obj(command.parameters.value)) {
        data := data.(parameters := Some(Obj(command.parameters.value)));
      }
      if command.customRangeKm.Some? {
        data := data.(customRangeKm := command.customRangeKm);
      }
      if Truthy(failure) {
        return Err(failure);
      }
      var key := (userId, sportId);
      if key !in userSports {
        return Err(UserSportNotFoundError(sportId));
      }
      userSports := userSports[key := Apply(userSports[key], data)];
      r := Ok(ToDto(State(), key));
    }

    method AddUserSport(userId: string, command: AddCommand, f: AddFailures) returns (r: Result<UserSportDto, Value>)
      requires Joined(State()) && ConsistentLookup(State(), userId, command.sportId, f.existingLookup)
      modifies this
      ensures (State(), r) == AddSpec(old(State()), userId, command, f)
    {
      if userId == "" {
        return Err(PlainError(UserIdRequired));
      }
      if Truthy(f.sportLookup) || command.sportId !in sports {
        return Err(SportNotFoundError(command.sportId));
      }
      if Truthy(f.existingLookup) && !IsNoRowsError(f.existingLookup) {
        return Err(f.existingLookup);
      }
      var key := (userId, command.sportId);
      if key in userSports {
        return Err(DuplicateSportError(command.sportId));
      }
      if Truthy(f.insert) {
        return Err(f.insert);
      }
      userSports := userSports[key := Row(Obj(command.parameters), command.customRangeKm.GetOr(None))];
      r := Ok(ToDto(State(), key));
    }

    method DeleteUserSport(userId: string, sportId: int, failure: Value, countReported: bool) returns (r: Result<(), Value>)
      requires Joined(State())
      modifies this
      ensures (State(), r) == DeleteSpec(old(State()), userId, sportId, failure, countReported)
    {
      if userId == "" {
        return Err(PlainError(UserIdRequired));
      }
      if sportId == 0 {
        return Err(PlainError(ValidSportIdRequired));
      }
      if Truthy(failure) {
        return Err(failure);
      }
      var key := (userId, sportId);
      var count: Option<int> := None;
      if countReported {
        count := Some(if key in userSports then 1 else 0);
      }
      userSports := userSports - {key};
      if count.None? || count.value == 0 {
        return Err(UserSportNotFoundError(sportId));
      }
      r := Ok(());
    }

    /** The user's rows, joined, one per sport, taken in no particular order. */
    method JoinedRows(userId: string) returns (out: seq<UserSportDto>)
      requires Joined(State())
      ensures ListedAs(State(), userId, out)
    {
      var all := SportIdsOf(State(), userId);
      var left := all;
      out := [];
      while left != {}
        invariant left <= all
        invariant RowsOf(State(), userId, out) && DistinctIds(out) && NoneIn(out, left) && Covers(out, all - left)
        decreases |left|
      {
        var id := Choice.Pick(left);
        assert (userId, id) in userSports;
        ExtendListing(State(), userId, out, all - left, left, id);
        assert all - (left - {id}) == (all - left) + {id};
        out := out + [ToDto(State(), (userId, id))];
        left := left - {id};
      }
      assert all - left == all;
    }

    /** `getUserSports`: the user's rows, joined with the sport names, in the order the database returns them. */
    method GetUserSports(userId: string, reply: ListReply) returns (r: Result<seq<UserSportDto>, Value>)
      requires Joined(State())
      ensures userId == "" ==> r == Err(PlainError(UserIdRequired))
      ensures userId != "" && reply.Failed? && Truthy(reply.error) ==> r == Err(reply.error)
      ensures userId != "" && (reply.NotAList? || (reply.Failed? && !Truthy(reply.error))) ==> r == Err(PlainError(InvalidResponseFormat))
      ensures r.Ok? <==> (userId != "" && reply.Rows?)
      ensures r.Ok? ==> ListedAs(State(), userId, r.value)
    {
      if userId == "" {
        return Err(PlainError(UserIdRequired));
      }
      if reply.Failed? && Truthy(reply.error) {
        return Err(reply.error);
      }
      if !reply.Rows? {
        return Err(PlainError(InvalidResponseFormat));
      }
      var rows := JoinedRows(userId);
      r := Ok(rows);
    }
  }

  // ---------------------------------------------------------------------------
  // Properties
  // ---------------------------------------------------------------------------

  /** Without a user id every operation fails the same way and touches no table. */
  lemma {:induction false} NoUserTouchesNothing(t: Tables, sportId: int, u: UpdateCommand, a: AddCommand, f: AddFailures, failure: Value, countReported: bool)
    requires Joined(t) && ConsistentLookup(t, "", a.sportId, f.existingLookup)
    ensures UpdateSpec(t, "", sportId, u, failure) == (t, Err(PlainError(UserIdRequired)))
    ensures AddSpec(t, "", a, f) == (t, Err(PlainError(UserIdRequired)))
    ensures DeleteSpec(t, "", sportId, failure, countReported) == (t, Err(PlainError(UserIdRequired)))
  {
  }

  /** Parameters of a parsed command are always written, a `null` range is written as `null`, and an absent range leaves the column alone. */
  lemma {:induction false} UpdatePayload(row: Row, c: UpdateCommand)
    ensures c.parameters.Some? ==> Apply(row, UpdateDataFor(c)).parameters == Obj(c.parameters.value)
    ensures c.customRangeKm == Some(None) ==> Apply(row, UpdateDataFor(c)).customRangeKm.None?
    ensures c.customRangeKm.None? ==> Apply(row, UpdateDataFor(c)).customRangeKm == row.customRangeKm
    ensures c.parameters.None? && c.customRangeKm.None? ==> Apply(row, UpdateDataFor(c)) == row
  {
  }

  /** An update writes only the one row, and fails with `UserSportNotFoundError` when that row is absent. */
  lemma {:induction false} UpdateTouchesOneRow(t: Tables, userId: string, sportId: int, c: UpdateCommand)
    requires Joined(t) && userId != ""
    ensures var r := UpdateSpec(t, userId, sportId, c, Null);
      r.0.sports == t.sports
      && (forall k :: k in t.userSports && k != (userId, sportId) ==> k in r.0.userSports && r.0.userSports[k] == t.userSports[k])
      && r.0.userSports.Keys == t.userSports.Keys
      && ((userId, sportId) !in t.userSports <==> r.1 == Err(UserSportNotFoundError(sportId)))
  {
  }

  /** The sport check comes first: an unknown sport is reported whatever the later calls would have said. */
  lemma {:induction false} AddChecksSportFirst(t: Tables, userId: string, c: AddCommand, f: AddFailures)
    requires Joined(t) && ConsistentLookup(t, userId, c.sportId, f.existingLookup)
    requires userId != "" && (c.sportId !in t.sports || Truthy(f.sportLookup))
    ensures AddSpec(t, userId, c, f) == (t, Err(SportNotFoundError(c.sportId)))
  {
  }

  /** A failure of the duplicate lookup is rethrown unless it is the "no rows" answer. */
  lemma {:induction false} AddRethrowsLookupFailure(t: Tables, userId: string, c: AddCommand, f: AddFailures)
    requires Joined(t) && ConsistentLookup(t, userId, c.sportId, f.existingLookup)
    requires userId != "" && c.sportId in t.sports && !Truthy(f.sportLookup)
    ensures Truthy(f.existingLookup) && !IsNoRowsError(f.existingLookup) ==> AddSpec(t, userId, c, f) == (t, Err(f.existingLookup))
    ensures IsNoRowsError(f.existingLookup) ==> AddSpec(t, userId, c, f) == AddSpec(t, userId, c, f.(existingLookup := Null))
  {
  }

  /** Adding a sport the user already has is a duplicate and changes nothing. */
  lemma {:induction false} AddExistingIsDuplicate(t: Tables, userId: string, c: AddCommand, f: AddFailures)
    requires Joined(t) && userId != "" && (userId, c.sportId) in t.userSports
    requires !Truthy(f.sportLookup) && !Truthy(f.existingLookup)
    ensures AddSpec(t, userId, c, f) == (t, Err(DuplicateSportError(c.sportId)))
  {
  }

  /** A second add of the same sport is a duplicate. */
  lemma {:induction false} AddTwiceIsDuplicate(t: Tables, userId: string, c: AddCommand, c2: AddCommand)
    requires Joined(t) && ConsistentLookup(t, userId, c.sportId, Null)
    requires AddSpec(t, userId, c, NoAddFailures).1.Ok? && c2.sportId == c.sportId
    ensures AddSpec(AddSpec(t, userId, c, NoAddFailures).0, userId, c2, NoAddFailures).1 == Err(DuplicateSportError(c.sportId))
  {
  }

  /** A successful add shows up in the user's list. */
  lemma {:induction false} AddedIsListed(t: Tables, userId: string, c: AddCommand)
    requires Joined(t) && ConsistentLookup(t, userId, c.sportId, Null)
    requires AddSpec(t, userId, c, NoAddFailures).1.Ok?
    ensures SportIdsOf(AddSpec(t, userId, c, NoAddFailures).0, userId) == SportIdsOf(t, userId) + {c.sportId}
  {
    var t' := AddSpec(t, userId, c, NoAddFailures).0;
    assert (userId, c.sportId) in t'.userSports;
  }

  /** When the deleted rows are counted, a delete succeeds exactly when the row was there, and removes it. */
  lemma {:induction false} DeleteWithCount(t: Tables, userId: string, sportId: int)
    requires Joined(t) && userId != "" && sportId != 0
    ensures var r := DeleteSpec(t, userId, sportId, Null, true);
      r.0.userSports == t.userSports - {(userId, sportId)}
      && (r.1.Ok? <==> (userId, sportId) in t.userSports)
      && (r.1.Err? ==> r.1 == Err(UserSportNotFoundError(sportId)) && r.0 == t)
  {
  }

  /**
   * When the client reports no count, every delete raises
   * `UserSportNotFoundError`, although the row is gone.
   */
  lemma {:induction false} DeleteWithoutCountAlwaysFails(t: Tables, userId: string, sportId: int)
    requires Joined(t) && userId != "" && sportId != 0
    ensures var r := DeleteSpec(t, userId, sportId, Null, false);
      r.1 == Err(UserSportNotFoundError(sportId)) && r.0.userSports == t.userSports - {(userId, sportId)}
  {
  }

  /** Adding a sport and deleting it again, with the count reported, restores both tables. */
  lemma {:induction false} AddThenDelete(t: Tables, userId: string, c: AddCommand)
    requires Joined(t) && ConsistentLookup(t, userId, c.sportId, Null) && c.sportId >= 1
    requires AddSpec(t, userId, c, NoAddFailures).1.Ok?
    ensures DeleteSpec(AddSpec(t, userId, c, NoAddFailures).0, userId, c.sportId, Null, true) == (t, Ok(()))
  {
    var t' := AddSpec(t, userId, c, NoAddFailures).0;
    assert t'.userSports - {(userId, c.sportId)} == t.userSports;
  }

  /** A sport id of 0 is refused before the table is touched. */
  lemma {:induction false} DeleteRefusesZero(t: Tables, userId: string, failure: Value, countReported: bool)
    requires Joined(t) && userId != ""
    ensures DeleteSpec(t, userId, 0, failure, countReported) == (t, Err(PlainError(ValidSportIdRequired)))
  {
  }
}
