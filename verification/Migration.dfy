/**
 The two migrations that shape the session table. A statement is a method whose
 precondition is what the database demands of it, so that verifying a migration
 shows that no statement of it can fail, whatever rows the tables hold.
 */
module Migration {
  import opened Options
  import SessionInvariant
  import SessionProtocol
  import SessionSafety
  import SessionSerial

  datatype Column =
    | ID | USER_ID | REFRESH_TOKEN_HASH | REFRESH_TOKEN_EXPIRES_AT | CREATED_AT | UPDATED_AT
    | REVOKED_AT | REPLACED_BY_SESSION_ID
    | OTHER(name: string)

  datatype Constraint =
    | PrimaryKey(column: Column)
    | Unique(column: Column)
    | References(column: Column, table: string, onDelete: Action)

  datatype Action = Cascade | SetNull

  datatype ConstraintName =
    | PK_SESSION_ID | UQ_SESSION_USER_ID | UQ_SESSION_REFRESH_TOKEN_HASH | FK_SESSION_USER_ID
    | FK_SESSION_REPLACED_BY_SESSION_ID | UQ_USER_REFRESH_TOKEN_HASH
    | OTHER_CONSTRAINT(name: string)

  datatype IndexName = IDX_SESSION_USER_ID | OTHER_INDEX(name: string)

  datatype Type = Uuid | Varchar | Timestamp | OtherType(name: string)

  datatype ColumnType = ColumnType(base: Type, nullable: bool)

  datatype Schema = Schema(
    columns: map<Column, ColumnType>, constraints: map<ConstraintName, Constraint>, indexes: map<IndexName, Column>)

  /** A row's non-null values, each named by a number. */
  type Row = map<Column, nat>

  /** Null is distinct from everything, itself included. */
  predicate Distinct(rows: seq<Row>, c: Column) {
    forall i, j :: 0 <= i < j < |rows| && c in rows[i] && c in rows[j] ==> rows[i][c] != rows[j][c]
  }

  /** Every non-null value of c is the id of a row. */
  predicate Refers(rows: seq<Row>, c: Column) {
    forall i :: 0 <= i < |rows| && c in rows[i] ==>
                  exists j :: 0 <= j < |rows| && ID in rows[j] && rows[j][ID] == rows[i][c]
  }

  function WithoutColumn(s: Schema, c: Column): Schema {
    Schema(s.columns - {c},
           map k | k in s.constraints && s.constraints[k].column != c :: s.constraints[k],
           map k | k in s.indexes && s.indexes[k] != c :: s.indexes[k])
  }

  /** A column that no constraint and no index is about is dropped alone. */
  lemma UnmentionedColumn(s: Schema, c: Column)
    requires forall k :: k in s.constraints ==> s.constraints[k].column != c
    requires forall k :: k in s.indexes ==> s.indexes[k] != c
    ensures WithoutColumn(s, c) == s.(columns := s.columns - {c})
  {
    assert WithoutColumn(s, c).constraints == s.constraints;
    assert WithoutColumn(s, c).indexes == s.indexes;
  }

  class Table {
    var schema: Schema
    var rows: seq<Row>

    constructor (schema: Schema, rows: seq<Row>)
      ensures this.schema == schema && this.rows == rows
    {
      this.schema, this.rows := schema, rows;
    }

    method DeleteAll()
      modifies this`rows
      ensures rows == []
    {
      rows := [];
    }

    method AddNullableColumn(c: Column, base: Type)
      requires c !in schema.columns
      modifies this
      ensures schema == old(schema).(columns := old(schema).columns[c := ColumnType(base, true)])
      ensures |rows| == |old(rows)| && forall i :: 0 <= i < |rows| ==> rows[i] == old(rows)[i] - {c}
    {
      schema := schema.(columns := schema.columns[c := ColumnType(base, true)]);
      rows := seq(|rows|, i requires 0 <= i < |rows| reads this => rows[i] - {c});
    }

    /** DROP COLUMN takes the constraints and indexes of the column along. */
    method DropColumn(c: Column)
      requires c in schema.columns
      modifies this
      ensures schema == WithoutColumn(old(schema), c) && c !in schema.columns && schema.columns == old(schema).columns - {c}
      ensures forall k :: k in schema.constraints <==> k in old(schema).constraints && old(schema).constraints[k].column != c
      ensures forall k :: k in schema.indexes <==> k in old(schema).indexes && old(schema).indexes[k] != c
      ensures |rows| == |old(rows)| && forall i :: 0 <= i < |rows| ==> rows[i] == old(rows)[i] - {c}
    {
      schema := WithoutColumn(schema, c);
      rows := seq(|rows|, i requires 0 <= i < |rows| reads this => rows[i] - {c});
    }

    method DropConstraint(name: ConstraintName)
      requires name in schema.constraints
      modifies this`schema
      ensures schema == old(schema).(constraints := old(schema).constraints - {name})
    {
      schema := schema.(constraints := schema.constraints - {name});
    }

    method AddUnique(name: ConstraintName, c: Column)
      requires name !in schema.constraints && c in schema.columns
      requires Distinct(rows, c)
      modifies this`schema
      ensures schema == old(schema).(constraints := old(schema).constraints[name := Unique(c)])
    {
      schema := schema.(constraints := schema.constraints[name := Unique(c)]);
    }

    /** A foreign key to the table's own ids: the columns must be of one type, and the
        ids unique. */
    method AddSelfReference(name: ConstraintName, c: Column, table: string, onDelete: Action)
      requires name !in schema.constraints && c in schema.columns
      requires ID in schema.columns && schema.columns[ID].base == schema.columns[c].base
      requires exists k :: k in schema.constraints && (schema.constraints[k] == PrimaryKey(ID) || schema.constraints[k] == Unique(ID))
      requires Refers(rows, c)
      modifies this`schema
      ensures schema == old(schema).(constraints := old(schema).constraints[name := References(c, table, onDelete)])
    {
      schema := schema.(constraints := schema.constraints[name := References(c, table, onDelete)]);
    }

    method CreateIndex(name: IndexName, c: Column)
      requires name !in schema.indexes && c in schema.columns
      modifies this`schema
      ensures schema == old(schema).(indexes := old(schema).indexes[name := c])
    {
      schema := schema.(indexes := schema.indexes[name := c]);
    }

    method DropIndex(name: IndexName)
      requires name in schema.indexes
      modifies this`schema
      ensures schema == old(schema).(indexes := old(schema).indexes - {name})
    {
      schema := schema.(indexes := schema.indexes - {name});
    }
  }

  class Database {
    var tables: map<string, Table>

    constructor (tables: map<string, Table>)
      ensures this.tables == tables
    {
      this.tables := tables;
    }

    /** No other table has a foreign key to this one. */
    predicate Unreferenced(name: string)
      reads this, tables.Values
    {
      forall n :: n in tables && n != name ==> !RefersTo(tables[n].schema, name)
    }

    method CreateTable(name: string, schema: Schema) returns (table: Table)
      requires name !in tables
      modifies this
      ensures fresh(table) && table.schema == schema && table.rows == []
      ensures tables == old(tables)[name := table]
    {
      table := new Table(schema, []);
      tables := tables[name := table];
    }

    method DropTable(name: string)
      requires name in tables && Unreferenced(name)
      modifies this
      ensures tables == old(tables) - {name}
    {
      tables := tables - {name};
    }
  }

  predicate RefersTo(s: Schema, table: string) {
    exists k :: k in s.constraints && s.constraints[k].References? && s.constraints[k].table == table
  }

  // ----- SplitUserAndAuthSession

  /** CREATE TABLE "session" as the earlier migration writes it. */
  const SINGLE_SESSION: Schema := Schema(
    map[ID := ColumnType(Uuid, false), USER_ID := ColumnType(Uuid, false), REFRESH_TOKEN_HASH := ColumnType(Varchar, false),
        REFRESH_TOKEN_EXPIRES_AT := ColumnType(Timestamp, false), CREATED_AT := ColumnType(Timestamp, false),
        UPDATED_AT := ColumnType(Timestamp, false)],
    map[PK_SESSION_ID := PrimaryKey(ID), UQ_SESSION_USER_ID := Unique(USER_ID),
        UQ_SESSION_REFRESH_TOKEN_HASH := Unique(REFRESH_TOKEN_HASH),
        FK_SESSION_USER_ID := References(USER_ID, "user", Cascade)],
    map[])

  /** The user table with its own refresh token, and whatever else it has. */
  predicate HasOwnToken(s: Schema) {
    && REFRESH_TOKEN_HASH in s.columns && s.columns[REFRESH_TOKEN_HASH] == ColumnType(Varchar, true)
    && REFRESH_TOKEN_EXPIRES_AT in s.columns && s.columns[REFRESH_TOKEN_EXPIRES_AT] == ColumnType(Timestamp, true)
    && UQ_USER_REFRESH_TOKEN_HASH in s.constraints && s.constraints[UQ_USER_REFRESH_TOKEN_HASH] == Unique(REFRESH_TOKEN_HASH)
    && (forall k :: k in s.constraints && k != UQ_USER_REFRESH_TOKEN_HASH ==>
          s.constraints[k].column != REFRESH_TOKEN_HASH && s.constraints[k].column != REFRESH_TOKEN_EXPIRES_AT)
    && (forall k :: k in s.indexes ==>
          s.indexes[k] != REFRESH_TOKEN_HASH && s.indexes[k] != REFRESH_TOKEN_EXPIRES_AT)
  }

  function WithoutOwnToken(s: Schema): Schema {
    s.(columns := s.columns - {REFRESH_TOKEN_HASH, REFRESH_TOKEN_EXPIRES_AT},
       constraints := s.constraints - {UQ_USER_REFRESH_TOKEN_HASH})
  }

  method SplitUp(db: Database, user: Table) returns (session: Table)
    requires "user" in db.tables && db.tables["user"] == user && "session" !in db.tables && HasOwnToken(user.schema)
    modifies db, user
    ensures user.schema == WithoutOwnToken(old(user.schema)) && |user.rows| == |old(user.rows)|
    ensures forall i :: 0 <= i < |user.rows| ==> user.rows[i] == old(user.rows)[i] - {REFRESH_TOKEN_HASH} - {REFRESH_TOKEN_EXPIRES_AT}
    ensures fresh(session) && session.schema == SINGLE_SESSION && session.rows == []
    ensures db.tables == old(db.tables)["session" := session]
  {
    user.DropConstraint(UQ_USER_REFRESH_TOKEN_HASH);
    user.DropColumn(REFRESH_TOKEN_HASH);
    user.DropColumn(REFRESH_TOKEN_EXPIRES_AT);
    assert user.schema.columns == WithoutOwnToken(old(user.schema)).columns;
    assert user.schema.constraints == WithoutOwnToken(old(user.schema)).constraints;
    assert user.schema.indexes == WithoutOwnToken(old(user.schema)).indexes;
    session := db.CreateTable("session", SINGLE_SESSION);
  }

  /** The session table is dropped; the user table gets its columns back, empty, so
      that its unique constraint cannot fail. */
  method SplitDown(db: Database, user: Table)
    requires "user" in db.tables && db.tables["user"] == user && "session" in db.tables && db.Unreferenced("session")
    requires REFRESH_TOKEN_HASH !in user.schema.columns && REFRESH_TOKEN_EXPIRES_AT !in user.schema.columns
    requires UQ_USER_REFRESH_TOKEN_HASH !in user.schema.constraints
    modifies db, user
    ensures db.tables == old(db.tables) - {"session"}
    ensures user.schema == old(user.schema).(
              columns := old(user.schema).columns[REFRESH_TOKEN_HASH := ColumnType(Varchar, true)]
                         [REFRESH_TOKEN_EXPIRES_AT := ColumnType(Timestamp, true)],
              constraints := old(user.schema).constraints[UQ_USER_REFRESH_TOKEN_HASH := Unique(REFRESH_TOKEN_HASH)])
    ensures |user.rows| == |old(user.rows)|
    ensures forall i :: 0 <= i < |user.rows| ==> user.rows[i] == old(user.rows)[i] - {REFRESH_TOKEN_HASH} - {REFRESH_TOKEN_EXPIRES_AT}
  {
    db.DropTable("session");
    user.AddNullableColumn(REFRESH_TOKEN_HASH, Varchar);
    user.AddNullableColumn(REFRESH_TOKEN_EXPIRES_AT, Timestamp);
    user.AddUnique(UQ_USER_REFRESH_TOKEN_HASH, REFRESH_TOKEN_HASH);
  }

  /** Whatever sessions are made in between, down after up restores the set of tables
      and the user table's schema, if no table refers to a session table beforehand. */
  method SplitRoundTrip(db: Database, user: Table, between: seq<Row>)
    requires "user" in db.tables && db.tables["user"] == user && "session" !in db.tables && HasOwnToken(user.schema)
    requires db.Unreferenced("session")
    modifies db, user
    ensures db.tables == old(db.tables) && user.schema == old(user.schema)
  {
    var session := SplitUp(db, user);
    session.rows := between;
    FewerConstraints(old(user.schema), "session");
    SplitDown(db, user);
    assert user.schema.columns == old(user.schema).columns;
    assert user.schema.constraints == old(user.schema).constraints;
  }

  lemma FewerConstraints(s: Schema, table: string)
    requires !RefersTo(s, table)
    ensures !RefersTo(WithoutOwnToken(s), table)
  {
  }

  // ----- SessionChainRotation

  const CHAINED_SESSION: Schema := Schema(
    SINGLE_SESSION.columns[REVOKED_AT := ColumnType(Timestamp, true)][REPLACED_BY_SESSION_ID := ColumnType(Uuid, true)],
    map[PK_SESSION_ID := PrimaryKey(ID), UQ_SESSION_REFRESH_TOKEN_HASH := Unique(REFRESH_TOKEN_HASH),
        FK_SESSION_USER_ID := References(USER_ID, "user", Cascade),
        FK_SESSION_REPLACED_BY_SESSION_ID := References(REPLACED_BY_SESSION_ID, "session", SetNull)],
    map[IDX_SESSION_USER_ID := USER_ID])

  /** No token from before the migration can be found after it: no row is left. */
  method ChainUp(session: Table)
    requires session.schema == SINGLE_SESSION
    modifies session
    ensures session.schema == CHAINED_SESSION && session.rows == []
  {
    session.DeleteAll();
    session.DropConstraint(UQ_SESSION_USER_ID);
    session.AddNullableColumn(REVOKED_AT, Timestamp);
    session.AddNullableColumn(REPLACED_BY_SESSION_ID, Uuid);
    assert session.schema.constraints[PK_SESSION_ID] == PrimaryKey(ID);
    session.AddSelfReference(FK_SESSION_REPLACED_BY_SESSION_ID, REPLACED_BY_SESSION_ID, "session", SetNull);
    session.CreateIndex(IDX_SESSION_USER_ID, USER_ID);
    assert session.schema.constraints == CHAINED_SESSION.constraints;
    assert session.schema.indexes == CHAINED_SESSION.indexes;
  }

  /** What both schemas have. */
  const BARE_SESSION: Schema := Schema(
    SINGLE_SESSION.columns,
    map[PK_SESSION_ID := PrimaryKey(ID), UQ_SESSION_REFRESH_TOKEN_HASH := Unique(REFRESH_TOKEN_HASH),
        FK_SESSION_USER_ID := References(USER_ID, "user", Cascade)],
    map[])

  lemma ChainedIsBareAndMore()
    ensures CHAINED_SESSION == Schema(
              BARE_SESSION.columns[REVOKED_AT := ColumnType(Timestamp, true)][REPLACED_BY_SESSION_ID := ColumnType(Uuid, true)],
              BARE_SESSION.constraints[FK_SESSION_REPLACED_BY_SESSION_ID := References(REPLACED_BY_SESSION_ID, "session", SetNull)],
              BARE_SESSION.indexes[IDX_SESSION_USER_ID := USER_ID])
    ensures CHAINED_SESSION.constraints - {FK_SESSION_REPLACED_BY_SESSION_ID} == BARE_SESSION.constraints
    ensures CHAINED_SESSION.indexes - {IDX_SESSION_USER_ID} == BARE_SESSION.indexes
    ensures CHAINED_SESSION.columns - {REVOKED_AT} - {REPLACED_BY_SESSION_ID} == BARE_SESSION.columns
  {
    assert CHAINED_SESSION.constraints
        == BARE_SESSION.constraints[FK_SESSION_REPLACED_BY_SESSION_ID := References(REPLACED_BY_SESSION_ID, "session", SetNull)];
  }

  lemma SingleIsBareAndUnique()
    ensures SINGLE_SESSION == BARE_SESSION.(constraints := BARE_SESSION.constraints[UQ_SESSION_USER_ID := Unique(USER_ID)])
  {
    assert SINGLE_SESSION.constraints == BARE_SESSION.constraints[UQ_SESSION_USER_ID := Unique(USER_ID)];
  }

  /** The two DROP COLUMNs of down, after the statements that free the columns. */
  method DropChainColumns(session: Table)
    requires session.schema == Schema(CHAINED_SESSION.columns, BARE_SESSION.constraints, BARE_SESSION.indexes)
    modifies session
    ensures session.schema == BARE_SESSION && |session.rows| == |old(session.rows)|
  {
    ChainedIsBareAndMore();
    UnmentionedColumn(session.schema, REVOKED_AT);
    session.DropColumn(REVOKED_AT);
    UnmentionedColumn(session.schema, REPLACED_BY_SESSION_ID);
    session.DropColumn(REPLACED_BY_SESSION_ID);
  }

  /** Runs for any rows, several live ones of one user included. */
  method ChainDown(session: Table)
    requires session.schema == CHAINED_SESSION
    modifies session
    ensures session.schema == SINGLE_SESSION && session.rows == []
  {
    ChainedIsBareAndMore();
    SingleIsBareAndUnique();
    session.DeleteAll();
    session.DropIndex(IDX_SESSION_USER_ID);
    session.DropConstraint(FK_SESSION_REPLACED_BY_SESSION_ID);
    DropChainColumns(session);
    session.AddUnique(UQ_SESSION_USER_ID, USER_ID);
  }

  /** Whatever sessions are made in between, down after up restores the schema. */
  method ChainRoundTrip(session: Table, between: seq<Row>)
    requires session.schema == SINGLE_SESSION
    modifies session
    ensures session.schema == old(session.schema) && session.rows == []
  {
    ChainUp(session);
    session.rows := between;
    ChainDown(session);
  }

  // ----- Why down deletes first

  /** The session rows of a user that a serial history has inserted: one at each login
      and at each rotation. */
  function Inserted(events: seq<SessionSerial.Event>, user: SessionProtocol.UserId): nat
    requires SessionSerial.SerialRun(events)
  {
    if events == [] then 0
    else
      var before, e := events[..|events| - 1], events[|events| - 1];
      Inserted(before, user) + if InsertsFor(SessionSerial.TableAfter(before), e, user) then 1 else 0
  }

  predicate InsertsFor(table: map<SessionProtocol.Id, SessionProtocol.Row>, e: SessionSerial.Event, user: SessionProtocol.UserId)
    requires SessionSerial.EventFits(table, e)
  {
    match e
    case LoggedIn(u, _, _, _) => u == user
    case Presented(_, _, reply) => reply.PairIssued? && table[reply.row].userId == user
  }

  lemma LoginInserts(table: map<SessionProtocol.Id, SessionProtocol.Row>, id: SessionProtocol.Id, row: SessionProtocol.Row,
                     user: SessionProtocol.UserId)
    requires id !in table
    ensures |SessionProtocol.RowsOf(table[id := row], user)|
         == |SessionProtocol.RowsOf(table, user)| + if row.userId == user then 1 else 0
  {
    assert SessionProtocol.RowsOf(table[id := row], user)
        == SessionProtocol.RowsOf(table, user) + if row.userId == user then {id} else {};
  }

  lemma RotationInserts(table: map<SessionProtocol.Id, SessionProtocol.Row>, o: SessionSerial.Offer, i: SessionProtocol.Id,
                        user: SessionProtocol.UserId)
    requires i in table && o.next !in table
    ensures |SessionProtocol.RowsOf(SessionSerial.Settle(table, o, SessionSerial.PairIssued(i, o.next)), user)|
         == |SessionProtocol.RowsOf(table, user)| + if table[i].userId == user then 1 else 0
  {
    assert SessionProtocol.RowsOf(SessionSerial.Settle(table, o, SessionSerial.PairIssued(i, o.next)), user)
        == SessionProtocol.RowsOf(table, user) + if table[i].userId == user then {o.next} else {};
  }

  lemma SweepInsertsNone(table: map<SessionProtocol.Id, SessionProtocol.Row>, held: set<SessionProtocol.Id>,
                         at: SessionProtocol.Time, user: SessionProtocol.UserId)
    ensures SessionProtocol.RowsOf(SessionProtocol.SweptRows(table, held, at), user) == SessionProtocol.RowsOf(table, user)
  {
  }

  lemma EventInserts(table: map<SessionProtocol.Id, SessionProtocol.Row>, e: SessionSerial.Event, user: SessionProtocol.UserId)
    requires SessionSerial.EventFits(table, e)
    ensures |SessionProtocol.RowsOf(SessionSerial.Apply(table, e), user)| ==
            |SessionProtocol.RowsOf(table, user)| + if InsertsFor(table, e, user) then 1 else 0
  {
    match e
    case LoggedIn(u, id, token, expiresAt) =>
      LoginInserts(table, id, SessionProtocol.Row(u, SessionProtocol.Sha256(token), expiresAt, None, None), user);
    case Presented(_, o, reply) =>
      match reply {
        case PairIssued(i, _) => RotationInserts(table, o, i, user);
        case ReuseDetected(_, u) => SweepInsertsNone(table, SessionProtocol.LiveRowsOf(table, u), o.now, user);
        case _ =>
      }
  }

  /** No row is ever deleted, so these are the rows the user has. */
  lemma {:induction false} RowsAreInserted(events: seq<SessionSerial.Event>, user: SessionProtocol.UserId)
    requires SessionSerial.SerialRun(events)
    ensures |SessionProtocol.RowsOf(SessionSerial.TableAfter(events), user)| == Inserted(events, user)
  {
    if events != [] {
      var before := events[..|events| - 1];
      RowsAreInserted(before, user);
      EventInserts(SessionSerial.TableAfter(before), events[|events| - 1], user);
    }
  }

  /** rows holds the sessions of this table, one row each, in some order. */
  ghost predicate Lists(rows: seq<Row>, ids: seq<SessionProtocol.Id>, table: map<SessionProtocol.Id, SessionProtocol.Row>) {
    && |rows| == |ids|
    && (forall j, k :: 0 <= j < k < |ids| ==> ids[j] != ids[k])
    && (forall i :: i in table <==> i in ids)
    && (forall k :: 0 <= k < |ids| ==>
          ID in rows[k] && rows[k][ID] == ids[k] && USER_ID in rows[k] && rows[k][USER_ID] == table[ids[k]].userId)
  }

  /** The statement that adds UNIQUE (user_id) back would succeed on the rows as they
      are if and only if no user has logged in twice or has ever refreshed. */
  lemma UniqueUserIff(events: seq<SessionSerial.Event>, rows: seq<Row>, ids: seq<SessionProtocol.Id>)
    requires SessionSerial.SerialRun(events) && Lists(rows, ids, SessionSerial.TableAfter(events))
    ensures Distinct(rows, USER_ID) <==> forall user :: Inserted(events, user) <= 1
  {
    var table := SessionSerial.TableAfter(events);
    if Distinct(rows, USER_ID) {
      forall user
        ensures Inserted(events, user) <= 1
      {
        RowsAreInserted(events, user);
        AtMostOne(SessionProtocol.RowsOf(table, user), rows, ids, table, user);
      }
    } else {
      var j, k :| 0 <= j < k < |rows| && USER_ID in rows[j] && USER_ID in rows[k] && rows[j][USER_ID] == rows[k][USER_ID];
      var user := rows[j][USER_ID];
      RowsAreInserted(events, user);
      TwoOf(SessionProtocol.RowsOf(table, user), ids[j], ids[k]);
    }
  }

  lemma AtMostOne(own: set<SessionProtocol.Id>, rows: seq<Row>, ids: seq<SessionProtocol.Id>,
                  table: map<SessionProtocol.Id, SessionProtocol.Row>, user: SessionProtocol.UserId)
    requires Lists(rows, ids, table) && Distinct(rows, USER_ID) && own == SessionProtocol.RowsOf(table, user)
    ensures |own| <= 1
  {
    if own != {} {
      var i :| i in own;
      forall j | j in own
        ensures j == i
      {
        var k :| 0 <= k < |ids| && ids[k] == i;
        var l :| 0 <= l < |ids| && ids[l] == j;
        assert rows[k][USER_ID] == rows[l][USER_ID];
      }
      assert own == {i};
    }
  }

  lemma TwoOf(own: set<SessionProtocol.Id>, i: SessionProtocol.Id, j: SessionProtocol.Id)
    requires i in own && j in own && i != j
    ensures |own| >= 2
  {
    assert own == (own - {i, j}) + {i, j};
    assert |own| == |own - {i, j}| + |{i, j}|;
  }

  // ----- What the schemas admit

  /** The row has only columns of the schema, and a value in each that is NOT NULL. */
  predicate Admitted(s: Schema, row: Row) {
    row.Keys <= s.columns.Keys && forall c :: c in s.columns && !s.columns[c].nullable ==> c in row
  }

  /** The constraint holds of these session rows; users are the ids of the user table. */
  predicate Holds(c: Constraint, rows: seq<Row>, users: set<nat>) {
    match c
    case PrimaryKey(column) => Distinct(rows, column) && forall i :: 0 <= i < |rows| ==> column in rows[i]
    case Unique(column) => Distinct(rows, column)
    case References(column, table, _) =>
      && (table == "session" ==> Refers(rows, column))
      && (table == "user" ==> UsersExist(rows, column, users))
  }

  predicate UsersExist(rows: seq<Row>, c: Column, users: set<nat>) {
    forall i :: 0 <= i < |rows| && c in rows[i] ==> rows[i][c] in users
  }

  ghost predicate Meets(s: Schema, rows: seq<Row>, users: set<nat>) {
    && (forall i :: 0 <= i < |rows| ==> Admitted(s, rows[i]))
    && (forall k :: k in s.constraints ==> Holds(s.constraints[k], rows, users))
  }

  const SIX: set<Column> := {ID, USER_ID, REFRESH_TOKEN_HASH, REFRESH_TOKEN_EXPIRES_AT, CREATED_AT, UPDATED_AT}

  const LATER: set<Column> := {REVOKED_AT, REPLACED_BY_SESSION_ID}

  /** Before the migration a row has six values, none of them missing; after it, of eight,
      only the revocation time and the successor can be missing. */
  lemma AdmittedIff(row: Row)
    ensures Admitted(SINGLE_SESSION, row) <==> row.Keys == SIX
    ensures Admitted(CHAINED_SESSION, row) <==> SIX <= row.Keys <= SIX + LATER
  {
    ColumnsAre();
    NeedsExactly(SINGLE_SESSION, row, SIX);
    NeedsExactly(CHAINED_SESSION, row, SIX);
  }

  lemma NeedsExactly(s: Schema, row: Row, needed: set<Column>)
    requires needed <= s.columns.Keys && forall c :: c in s.columns ==> (c in needed <==> !s.columns[c].nullable)
    ensures Admitted(s, row) <==> needed <= row.Keys <= s.columns.Keys
  {
    if needed <= row.Keys {
      assert forall c :: c in needed ==> c in row.Keys;
    }
  }

  /** The columns, their types, and which may be null. */
  lemma ColumnsAre()
    ensures SINGLE_SESSION.columns.Keys == SIX && CHAINED_SESSION.columns.Keys == SIX + LATER
    ensures forall c :: c in SIX ==> !SINGLE_SESSION.columns[c].nullable && CHAINED_SESSION.columns[c] == SINGLE_SESSION.columns[c]
    ensures forall c :: c in LATER ==> CHAINED_SESSION.columns[c].nullable
    ensures forall c :: c in {ID, USER_ID, REPLACED_BY_SESSION_ID} ==> CHAINED_SESSION.columns[c].base == Uuid
    ensures forall c :: c in {REFRESH_TOKEN_EXPIRES_AT, CREATED_AT, UPDATED_AT, REVOKED_AT} ==> CHAINED_SESSION.columns[c].base == Timestamp
    ensures CHAINED_SESSION.columns[REFRESH_TOKEN_HASH].base == Varchar
  {
    assert SINGLE_SESSION.columns.Keys == SIX;
    assert CHAINED_SESSION.columns.Keys == SIX + LATER;
  }

  /** The constraints that the two schemas put on their rows, in full. */
  lemma MeetsIff(rows: seq<Row>, users: set<nat>)
    ensures Meets(SINGLE_SESSION, rows, users) <==>
            && (forall i :: 0 <= i < |rows| ==> rows[i].Keys == SIX)
            && Distinct(rows, ID) && Distinct(rows, USER_ID) && Distinct(rows, REFRESH_TOKEN_HASH)
            && UsersExist(rows, USER_ID, users)
    ensures Meets(CHAINED_SESSION, rows, users) <==>
            && (forall i :: 0 <= i < |rows| ==> SIX <= rows[i].Keys <= SIX + LATER)
            && Distinct(rows, ID) && Distinct(rows, REFRESH_TOKEN_HASH)
            && UsersExist(rows, USER_ID, users) && Refers(rows, REPLACED_BY_SESSION_ID)
  {
    forall i | 0 <= i < |rows|
      ensures Admitted(SINGLE_SESSION, rows[i]) <==> rows[i].Keys == SIX
      ensures Admitted(CHAINED_SESSION, rows[i]) <==> SIX <= rows[i].Keys <= SIX + LATER
    {
      AdmittedIff(rows[i]);
    }
    SingleConstraints(rows, users);
    ChainedConstraints(rows, users);
  }

  lemma SingleConstraints(rows: seq<Row>, users: set<nat>)
    ensures (forall k :: k in SINGLE_SESSION.constraints ==> Holds(SINGLE_SESSION.constraints[k], rows, users)) <==>
            && Holds(PrimaryKey(ID), rows, users) && Distinct(rows, USER_ID) && Distinct(rows, REFRESH_TOKEN_HASH)
            && UsersExist(rows, USER_ID, users)
  {
    var c := SINGLE_SESSION.constraints;
    assert c[PK_SESSION_ID] == PrimaryKey(ID) && c[UQ_SESSION_USER_ID] == Unique(USER_ID);
    assert c[UQ_SESSION_REFRESH_TOKEN_HASH] == Unique(REFRESH_TOKEN_HASH);
    assert c[FK_SESSION_USER_ID] == References(USER_ID, "user", Cascade);
  }

  lemma ChainedConstraints(rows: seq<Row>, users: set<nat>)
    ensures (forall k :: k in CHAINED_SESSION.constraints ==> Holds(CHAINED_SESSION.constraints[k], rows, users)) <==>
            && Holds(PrimaryKey(ID), rows, users) && Distinct(rows, REFRESH_TOKEN_HASH)
            && UsersExist(rows, USER_ID, users) && Refers(rows, REPLACED_BY_SESSION_ID)
  {
    var c := CHAINED_SESSION.constraints;
    assert c[PK_SESSION_ID] == PrimaryKey(ID) && c[UQ_SESSION_REFRESH_TOKEN_HASH] == Unique(REFRESH_TOKEN_HASH);
    assert c[FK_SESSION_USER_ID] == References(USER_ID, "user", Cascade);
    assert c[FK_SESSION_REPLACED_BY_SESSION_ID] == References(REPLACED_BY_SESSION_ID, "session", SetNull);
  }

  /** stored is session i as a row of the table; hashes are named by their tokens. */
  predicate StoresRow(stored: Row, i: SessionProtocol.Id, row: SessionProtocol.Row) {
    && SIX <= stored.Keys <= SIX + LATER
    && stored[ID] == i && stored[USER_ID] == row.userId && stored[REFRESH_TOKEN_HASH] == row.tokenHash.token
    && (REVOKED_AT in stored <==> row.revokedAt.Some?)
    && (REPLACED_BY_SESSION_ID in stored <==> row.replacedBy.Some?)
    && (row.replacedBy.Some? ==> stored[REPLACED_BY_SESSION_ID] == row.replacedBy.value)
  }

  predicate StoresTable(rows: seq<Row>, ids: seq<SessionProtocol.Id>, table: map<SessionProtocol.Id, SessionProtocol.Row>) {
    |rows| == |ids| && forall k :: 0 <= k < |ids| ==> ids[k] in table && StoresRow(rows[k], ids[k], table[ids[k]])
  }

  lemma StoredIdsDiffer(rows: seq<Row>, ids: seq<SessionProtocol.Id>, table: map<SessionProtocol.Id, SessionProtocol.Row>)
    requires Lists(rows, ids, table)
    ensures Distinct(rows, ID)
  {
  }

  lemma StoredHashesDiffer(s: SessionProtocol.State, rows: seq<Row>, ids: seq<SessionProtocol.Id>)
    requires SessionInvariant.Inv(s) && StoresTable(rows, ids, s.rows)
    requires forall j, k :: 0 <= j < k < |ids| ==> ids[j] != ids[k]
    ensures Distinct(rows, REFRESH_TOKEN_HASH)
  {
    forall j, k | 0 <= j < k < |rows|
      ensures rows[j][REFRESH_TOKEN_HASH] != rows[k][REFRESH_TOKEN_HASH]
    {
      if rows[j][REFRESH_TOKEN_HASH] == rows[k][REFRESH_TOKEN_HASH] {
        SessionSafety.TokenNamesOneRow(s, ids[j], ids[k]);
      }
    }
  }

  lemma StoredUsersExist(s: SessionProtocol.State, rows: seq<Row>, ids: seq<SessionProtocol.Id>)
    requires SessionInvariant.Inv(s) && StoresTable(rows, ids, s.rows)
    ensures UsersExist(rows, USER_ID, s.users)
  {
    forall k | 0 <= k < |rows|
      ensures rows[k][USER_ID] in s.users
    {
      assert SessionInvariant.RowOk(s, ids[k]);
    }
  }

  lemma StoredLinksRefer(s: SessionProtocol.State, rows: seq<Row>, ids: seq<SessionProtocol.Id>)
    requires SessionInvariant.Inv(s) && StoresTable(rows, ids, s.rows) && forall i :: i in s.rows ==> i in ids
    ensures Refers(rows, REPLACED_BY_SESSION_ID)
  {
    forall k | 0 <= k < |rows| && REPLACED_BY_SESSION_ID in rows[k]
      ensures exists j :: 0 <= j < |rows| && ID in rows[j] && rows[j][ID] == rows[k][REPLACED_BY_SESSION_ID]
    {
      SessionSafety.LinkFacts(s, ids[k]);
      var n := s.rows[ids[k]].replacedBy.value;
      assert n in ids;
      var j :| 0 <= j < |ids| && ids[j] == n;
      assert rows[j][ID] == n;
    }
  }

  /** The protocol lives within the schema: in every reachable state of any interleaving
      the session table meets every constraint that the migration leaves. */
  lemma ReachableTableMeetsSchema(s: SessionProtocol.State, rows: seq<Row>, ids: seq<SessionProtocol.Id>)
    requires SessionProtocol.Reachable(s) && Lists(rows, ids, s.rows) && StoresTable(rows, ids, s.rows)
    ensures Meets(CHAINED_SESSION, rows, s.users)
  {
    SessionInvariant.ReachableInv(s);
    StoredIdsDiffer(rows, ids, s.rows);
    StoredHashesDiffer(s, rows, ids);
    StoredUsersExist(s, rows, ids);
    StoredLinksRefer(s, rows, ids);
    MeetsIff(rows, s.users);
  }
}
