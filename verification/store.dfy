/** The SQLite persistence layer of `db.py`, as abstract tables.

    `users` is a map from primary key to row with insert-if-absent
    semantics; `incident` is an append-only sequence of rows in rowid order
    together with the AUTOINCREMENT counter. Connections, cursors and SQL
    text are not modelled. */
module Store {
  import opened Basics

  type UserId = int

  /** The registration date; `date.today()` becomes a parameter. */
  type Date = string

  /** A row of `users`: (id, firstname, username, register). */
  datatype UserRow = UserRow(id: UserId, firstname: string, username: Option<string>, register: Date)

  /** The `users` table, keyed by its primary key. */
  type UsersTable = map<UserId, UserRow>

  /** A row of `incident`; `theme` and `description` are NOT NULL columns. */
  datatype IncidentRow = IncidentRow(
    id: int,
    user: UserId,
    theme: string,
    description: string,
    contact: Option<string>,
    file: Option<string>)

  /** The values bound to the placeholders of the incident INSERT; any of
      them may be `None`. */
  datatype IncidentInfo = IncidentInfo(
    user: UserId,
    theme: Option<string>,
    description: Option<string>,
    contact: Option<string>,
    file: Option<string>)

  /** The `incident` table in rowid order, with the largest id ever handed
      out by AUTOINCREMENT (0 before the first insert). */
  datatype IncidentTable = IncidentTable(rows: seq<IncidentRow>, lastId: nat)

  datatype Db = Db(users: UsersTable, incidents: IncidentTable)

  /** The `sqlite3.IntegrityError`s an insert can raise. */
  datatype DbError = NotNull(column: string) | PrimaryKey(id: UserId)

  /** A freshly created database: both tables empty. */
  const EmptyDb: Db := Db(map[], IncidentTable([], 0))

  /** Every row is stored under its own primary key. */
  predicate UsersValid(u: UsersTable)
  {
    forall k :: k in u ==> u[k].id == k
  }

  /** Ids are positive, never above the AUTOINCREMENT counter, and strictly
      increasing in rowid order. */
  predicate IncidentsValid(t: IncidentTable)
  {
    && (forall i :: 0 <= i < |t.rows| ==> 0 < t.rows[i].id <= t.lastId)
    && (forall i, j :: 0 <= i < j < |t.rows| ==> t.rows[i].id < t.rows[j].id)
  }

  predicate Valid(db: Db)
  {
    UsersValid(db.users) && IncidentsValid(db.incidents)
  }

  // ---------------------------------------------------------------- users

  /** `Users.__getitem__`: the stored row when the id is present, else `None`. */
  function GetUser(u: UsersTable, id: UserId): (r: Option<UserRow>)
    ensures r.Some? <==> id in u
    ensures r.Some? ==> r.value == u[id]
    ensures UsersValid(u) && r.Some? ==> r.value.id == id
  {
    if id in u then Some(u[id]) else None
  }

  /** `Users.__setitem__`: inserts the row only when `key` is not present
      yet. The row carries its own id; inserting it over an existing primary
      key is an integrity error. */
  function SetUser(u: UsersTable, key: UserId, row: UserRow): (r: Result<UsersTable, DbError>)
    ensures key in u ==> r == Ok(u)
    ensures key !in u && row.id in u ==> r == Err(PrimaryKey(row.id))
    ensures key !in u && row.id !in u ==>
              && r.Ok?
              && r.value.Keys == u.Keys + {row.id}
              && r.value[row.id] == row
              && (forall k :: k in u ==> r.value[k] == u[k])
    ensures UsersValid(u) && r.Ok? ==> UsersValid(r.value)
  {
    if key in u then Ok(u)
    else if row.id in u then Err(PrimaryKey(row.id))
    else Ok(u[row.id := row])
  }

  /** A non-empty set has a member to pick. */
  lemma NonEmptyHasMember(s: set<UserId>)
    requires s != {}
    ensures exists k :: k in s
  {
    if forall k :: k !in s {
      assert false;
    }
  }

  /** `Users.keys`: every stored id, in rowid (= id) order. */
  method UserKeys(u: UsersTable) returns (ks: seq<UserId>)
    ensures forall k :: k in ks <==> k in u
    ensures forall i, j :: 0 <= i < j < |ks| ==> ks[i] < ks[j]
  {
    ks := [];
    var rest := u.Keys;
    while rest != {}
      invariant rest <= u.Keys
      invariant forall k :: k in ks <==> k in u && k !in rest
      invariant forall i, j :: 0 <= i < j < |ks| ==> ks[i] < ks[j]
      invariant forall i, k :: 0 <= i < |ks| && k in rest ==> ks[i] < k
      decreases rest
    {
      NonEmptyHasMember(rest);
      var m :| m in rest;
      var scan := rest - {m};
      while scan != {}
        invariant scan <= rest && m in rest
        invariant forall k :: k in rest && k !in scan ==> m <= k
        decreases scan
      {
        NonEmptyHasMember(scan);
        var k :| k in scan;
        if k < m {
          m := k;
        }
        scan := scan - {k};
      }
      ks := ks + [m];
      rest := rest - {m};
    }
  }

  /** `register_user`: inserts (id, firstname, username, today) unless the
      id is already registered, in which case nothing changes. */
  function RegisterUser(db: Db, id: UserId, firstname: string, username: Option<string>, today: Date): (r: Db)
    ensures id in r.users
    ensures id in db.users ==> r == db
    ensures id !in db.users ==> r.users[id] == UserRow(id, firstname, username, today)
    ensures r.incidents == db.incidents
    ensures forall k :: k != id ==> (k in r.users <==> k in db.users)
    ensures forall k :: k != id && k in db.users ==> r.users[k] == db.users[k]
    ensures Valid(db) ==> Valid(r)
  {
    if id in db.users then db
    else db.(users := db.users[id := UserRow(id, firstname, username, today)])
  }

  /** `register_user` goes through `Users.__setitem__`, which never fails
      for it because the key is the row's own id. */
  lemma RegisterUserIsSetUser(db: Db, id: UserId, firstname: string, username: Option<string>, today: Date)
    ensures SetUser(db.users, id, UserRow(id, firstname, username, today))
            == Ok(RegisterUser(db, id, firstname, username, today).users)
  {
  }

  /** Registering twice is registering once: the first data wins. */
  lemma RegisterUserIdempotent(db: Db, id: UserId, f1: string, n1: Option<string>, d1: Date,
                               f2: string, n2: Option<string>, d2: Date)
    ensures var once := RegisterUser(db, id, f1, n1, d1);
            && RegisterUser(once, id, f2, n2, d2) == once
            && GetUser(once.users, id).Some?
            && (id !in db.users ==> GetUser(RegisterUser(once, id, f2, n2, d2).users, id)
                                    == Some(UserRow(id, f1, n1, d1)))
  {
  }

  // ------------------------------------------------------------ incidents

  /** Index of the first row (in rowid order) whose `user` column is `user`. */
  function FirstOfUser(rows: seq<IncidentRow>, user: UserId): (r: Option<nat>)
    ensures r.Some? ==> r.value < |rows| && rows[r.value].user == user
    ensures r.Some? ==> forall j :: 0 <= j < r.value ==> rows[j].user != user
    ensures r.None? ==> forall j :: 0 <= j < |rows| ==> rows[j].user != user
    decreases |rows|
  {
    if |rows| == 0 then None
    else if rows[0].user == user then Some(0)
    else
      match FirstOfUser(rows[1..], user)
      case None => None
      case Some(i) => Some(i + 1)
  }

  /** `Incident.is_user` / `Incident.__contains__`: keyed by user, not by
      incident id. */
  function HasIncidentOf(t: IncidentTable, user: UserId): (r: bool)
    ensures r <==> exists i :: 0 <= i < |t.rows| && t.rows[i].user == user
  {
    FirstOfUser(t.rows, user).Some?
  }

  /** `Incident.__getitem__`: the first row of that user, or `None`. */
  function GetIncidentOf(t: IncidentTable, user: UserId): (r: Option<IncidentRow>)
    ensures r.Some? <==> HasIncidentOf(t, user)
    ensures r.Some? ==> r.value.user == user
    ensures r.Some? ==>
              exists i :: 0 <= i < |t.rows| && t.rows[i] == r.value
                          && forall j :: 0 <= j < i ==> t.rows[j].user != user
  {
    match FirstOfUser(t.rows, user)
    case None => None
    case Some(i) => Some(t.rows[i])
  }

  /** `Incident.__setitem__`: appends one row built from `info` under a
      fresh AUTOINCREMENT id. The key argument plays no part. A `None`
      theme or description violates its NOT NULL constraint. */
  function SetIncident(t: IncidentTable, key: UserId, info: IncidentInfo): (r: Result<IncidentTable, DbError>)
    ensures r.Err? <==> info.theme.None? || info.description.None?
    ensures info.theme.None? ==> r == Err(NotNull("theme"))
    ensures info.theme.Some? && info.description.None? ==> r == Err(NotNull("description"))
    ensures r.Ok? ==>
              && |r.value.rows| == |t.rows| + 1
              && r.value.rows[..|t.rows|] == t.rows
              && r.value.rows[|t.rows|].user == info.user
              && Some(r.value.rows[|t.rows|].theme) == info.theme
              && Some(r.value.rows[|t.rows|].description) == info.description
              && r.value.rows[|t.rows|].contact == info.contact
              && r.value.rows[|t.rows|].file == info.file
    ensures r.Ok? && IncidentsValid(t) ==>
              && IncidentsValid(r.value)
              && forall i :: 0 <= i < |t.rows| ==> t.rows[i].id < r.value.rows[|t.rows|].id
  {
    if info.theme.None? then Err(NotNull("theme"))
    else if info.description.None? then Err(NotNull("description"))
    else
      var id := t.lastId + 1;
      var row := IncidentRow(id, info.user, info.theme.value, info.description.value, info.contact, info.file);
      Ok(IncidentTable(t.rows + [row], id))
  }

  /** `Incident.keys`: the ids in rowid order. */
  function IncidentKeys(t: IncidentTable): (r: seq<int>)
    ensures |r| == |t.rows|
    ensures forall i :: 0 <= i < |r| ==> r[i] == t.rows[i].id
    ensures IncidentsValid(t) ==> forall i, j :: 0 <= i < j < |r| ==> r[i] < r[j]
  {
    seq(|t.rows|, i requires 0 <= i < |t.rows| => t.rows[i].id)
  }

  /** An insert adds exactly one key, fresh and above every existing one. */
  lemma IncidentKeysGrowByOne(t: IncidentTable, key: UserId, info: IncidentInfo)
    requires IncidentsValid(t)
    requires SetIncident(t, key, info).Ok?
    ensures var t' := SetIncident(t, key, info).value;
            && |IncidentKeys(t')| == |IncidentKeys(t)| + 1
            && IncidentKeys(t') == IncidentKeys(t) + [IncidentKeys(t')[|t.rows|]]
            && IncidentKeys(t')[|t.rows|] !in IncidentKeys(t)
            && forall k :: k in IncidentKeys(t) ==> k < IncidentKeys(t')[|t.rows|]
  {
    var t' := SetIncident(t, key, info).value;
    var ks, ks' := IncidentKeys(t), IncidentKeys(t');
    var newId := ks'[|t.rows|];
    forall i | 0 <= i < |ks|
      ensures ks'[i] == ks[i] && ks[i] < newId
    {
      assert t'.rows[i] == t'.rows[..|t.rows|][i];
    }
    assert ks' == ks + [newId];
  }

  /** Appending keeps `Incident.__getitem__` stable: a user who already has
      an incident keeps getting the same (first) row; a user without one
      gets the new row exactly when it is theirs. */
  lemma {:induction false} FirstOfUserAppend(rows: seq<IncidentRow>, row: IncidentRow, user: UserId)
    ensures FirstOfUser(rows + [row], user)
            == (if FirstOfUser(rows, user).Some? then FirstOfUser(rows, user)
                else if row.user == user then Some(|rows|)
                else None)
    decreases |rows|
  {
    if |rows| == 0 {
      assert rows + [row] == [row];
    } else {
      assert (rows + [row])[1..] == rows[1..] + [row];
      FirstOfUserAppend(rows[1..], row, user);
    }
  }

  /** `register_incident`: builds (user, theme, description, contact, file)
      and appends it to `incident`; `users` is left alone. */
  function RegisterIncident(db: Db, user: UserId, theme: Option<string>, description: Option<string>,
                            contact: Option<string>, file: Option<string>): (r: Result<Db, DbError>)
    ensures r.Ok? <==> theme.Some? && description.Some?
    ensures r.Ok? ==>
              && r.value.users == db.users
              && |r.value.incidents.rows| == |db.incidents.rows| + 1
              && r.value.incidents.rows[..|db.incidents.rows|] == db.incidents.rows
              && var row := r.value.incidents.rows[|db.incidents.rows|];
                 row.user == user && Some(row.theme) == theme && Some(row.description) == description
                 && row.contact == contact && row.file == file
    ensures r.Ok? && Valid(db) ==> Valid(r.value)
  {
    match SetIncident(db.incidents, user, IncidentInfo(user, theme, description, contact, file))
    case Err(e) => Err(e)
    case Ok(t) => Ok(db.(incidents := t))
  }

  /** After a successful `register_incident`, `user in Incident()` holds, and
      it holds for another user exactly when it held before. */
  lemma RegisterIncidentMembership(db: Db, user: UserId, theme: Option<string>, description: Option<string>,
                                   contact: Option<string>, file: Option<string>, other: UserId)
    requires RegisterIncident(db, user, theme, description, contact, file).Ok?
    ensures var db' := RegisterIncident(db, user, theme, description, contact, file).value;
            && HasIncidentOf(db'.incidents, user)
            && (other != user ==> (HasIncidentOf(db'.incidents, other) <==> HasIncidentOf(db.incidents, other)))
            && (HasIncidentOf(db.incidents, other) ==>
                  GetIncidentOf(db'.incidents, other) == GetIncidentOf(db.incidents, other))
  {
    var db' := RegisterIncident(db, user, theme, description, contact, file).value;
    var rows := db.incidents.rows;
    var row := db'.incidents.rows[|rows|];
    assert db'.incidents.rows == rows + [row] by {
      assert db'.incidents.rows == db'.incidents.rows[..|rows|] + [row];
    }
    FirstOfUserAppend(rows, row, user);
    FirstOfUserAppend(rows, row, other);
  }
}
