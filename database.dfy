/**
 * `DatabaseService`: the SQLite-backed store of moments. The engine's state is
 * the table's rows in rowid order and the AUTOINCREMENT counter; a fault the
 * engine may raise on any statement is an input of each operation.
 */
module Database {
  import opened Wrappers
  import opened Schema
  import opened Sorting
  import opened Queries

  /** Why an operation was rejected. */
  datatype DbError =
    | NotInitialized              // the service's own guard: no connection yet
    | NoSuchTable                 // the connection is open but CREATE TABLE never succeeded
    | CheckFailed(column: string) // a CHECK constraint rejected the written row
    | EngineFault(message: string)

  /** `(error as Error).message` of each kind of rejection; an engine fault's own text passes through. */
  function Message(e: DbError): (r: string)
    ensures e.EngineFault? ==> r == e.message
    ensures e.CheckFailed? ==> r == "CHECK constraint failed: " + e.column
    ensures !e.EngineFault? ==> r != ""
  {
    match e
    case NotInitialized => "Database not initialized"
    case NoSuchTable => "no such table: moments"
    case CheckFailed(column) => "CHECK constraint failed: " + column
    case EngineFault(message) => message
  }

  // ----- The UPDATE statement text -----

  /** `parts.join(sep)`. */
  function Join(parts: seq<string>, sep: string): string {
    if parts == [] then ""
    else if |parts| == 1 then parts[0]
    else parts[0] + sep + Join(parts[1..], sep)
  }

  /** The UPDATE text: the SET list between the fixed head and the id filter. */
  function UpdateStatement(updates: seq<string>): (r: string)
    ensures |r| >= |"UPDATE moments SET "| + |" WHERE id = ?"|
    ensures r[..|"UPDATE moments SET "|] == "UPDATE moments SET "
    ensures r[|r| - |" WHERE id = ?"|..] == " WHERE id = ?"
  {
    "UPDATE moments SET " + Join(updates, ", ") + " WHERE id = ?"
  }

  /** The `column = ?` clause of each assignment, in order. */
  function Clauses(s: seq<Assign>): (r: seq<string>)
    ensures |r| == |s|
  {
    seq(|s|, i requires 0 <= i < |s| => SetClause(s[i]))
  }

  /** The value bound to each assignment's placeholder, in order. */
  function Values(s: seq<Assign>): (r: seq<SqlValue>)
    ensures |r| == |s|
  {
    seq(|s|, i requires 0 <= i < |s| => ValueOf(s[i]))
  }

  lemma Pushed(s: seq<Assign>, a: Assign)
    ensures Clauses(s + [a]) == Clauses(s) + [SetClause(a)]
    ensures Values(s + [a]) == Values(s) + [ValueOf(a)]
  {
    assert (s + [a])[..|s|] == s;
  }

  lemma ClausesConcat(a: seq<Assign>, b: seq<Assign>)
    ensures Clauses(a + b) == Clauses(a) + Clauses(b)
  {
  }

  /** Clauses depend only on which positions are present: a clause names its column, never its value. */
  lemma {:induction false} ClausesFollowShape(f: seq<Option<Assign>>, g: seq<Option<Assign>>, k: nat)
    requires |f| == |g| && k <= |f| && Positioned(f) && Positioned(g)
    requires forall j :: 0 <= j < |f| ==> (f[j].Some? <==> g[j].Some?)
    ensures Clauses(Collect(f, k)) == Clauses(Collect(g, k))
    decreases |f| - k
  {
    if k < |f| {
      ClausesFollowShape(f, g, k + 1);
      ClausesConcat(Piece(f[k]), Collect(f, k + 1));
      ClausesConcat(Piece(g[k]), Collect(g, k + 1));
      if f[k].Some? {
        SetClauseNamesColumn(f[k].value);
        SetClauseNamesColumn(g[k].value);
        assert Clauses(Piece(f[k])) == [SetClause(f[k].value)];
        assert Clauses(Piece(g[k])) == [SetClause(g[k].value)];
      }
    }
  }

  /**
   * No patch data reaches the SQL text: two patches that define the same
   * fields produce the same clauses, hence the same UPDATE statement.
   */
  lemma StatementIgnoresData(p: Patch, q: Patch)
    requires forall k: nat :: k < 12 ==> (Defines(p, k) <==> Defines(q, k))
    ensures Clauses(SetList(p)) == Clauses(SetList(q))
    ensures UpdateStatement(Clauses(SetList(p))) == UpdateStatement(Clauses(SetList(q)))
  {
    FieldsPositioned(p);
    FieldsPositioned(q);
    forall j | 0 <= j < 12 ensures Fields(p)[j].Some? <==> Fields(q)[j].Some? {
      FieldsDefines(p, j);
      FieldsDefines(q, j);
    }
    ClausesFollowShape(Fields(p), Fields(q), 0);
  }

  /** The present entries of the first `k` positions of `f`, gathered left to right. */
  ghost function Gathered(f: seq<Option<Assign>>, k: nat): seq<Assign>
    requires k <= |f|
  {
    if k == 0 then [] else Gathered(f, k - 1) + Piece(f[k - 1])
  }

  lemma {:induction false} GatheredThenCollect(f: seq<Option<Assign>>, k: nat)
    requires k <= |f|
    ensures Gathered(f, k) + Collect(f, k) == Collect(f, 0)
  {
    if k > 0 {
      GatheredThenCollect(f, k - 1);
      assert Collect(f, k - 1) == Piece(f[k - 1]) + Collect(f, k);
    }
  }

  /**
   * The entry of `Fields(p)` at position `k`, computed by position. It says
   * again what `Fields` says, one field per position, so that the update
   * builder's proof unfolds one test at a time instead of indexing the
   * twelve-element display; `FieldAtFields` proves the two agree.
   */
  ghost function FieldAt(p: Patch, k: nat): Option<Assign> {
    if k == 0 then (if p.title.Some? then Some(SetTitle(p.title.value)) else None)
    else if k == 1 then (if p.location.Some? then Some(SetLocation(p.location.value)) else None)
    else if k == 2 then (if p.context.Some? then Some(SetContext(p.context.value)) else None)
    else if k == 3 then (if p.date.Some? then Some(SetDate(p.date.value)) else None)
    else if k == 4 then (if p.companion.Some? then Some(SetCompanion(p.companion.value)) else None)
    else if k == 5 then (if p.pleasureRating.Some? then Some(SetPleasure(p.pleasureRating.value)) else None)
    else if k == 6 then (if p.comfortRating.Some? then Some(SetComfort(p.comfortRating.value)) else None)
    else if k == 7 then (if p.audacityRating.Some? then Some(SetAudacity(p.audacityRating.value)) else None)
    else if k == 8 then (if p.topTags.Some? then Some(SetTopTags(p.topTags.value)) else None)
    else if k == 9 then (if p.flopTags.Some? then Some(SetFlopTags(p.flopTags.value)) else None)
    else if k == 10 then (if p.personalNotes.Some? then Some(SetNotes(p.personalNotes.value)) else None)
    else (if p.toRenew.Some? then Some(SetRenew(p.toRenew.value)) else None)
  }

  ghost function GatheredAt(p: Patch, k: nat): seq<Assign> {
    if k == 0 then [] else GatheredAt(p, k - 1) + Piece(FieldAt(p, k - 1))
  }

  lemma FieldAtFields(p: Patch, k: nat)
    requires k < 12
    ensures FieldAt(p, k) == Fields(p)[k]
  {
    if k < 6 {
      assert k == 0 || k == 1 || k == 2 || k == 3 || k == 4 || k == 5;
    } else {
      assert k == 6 || k == 7 || k == 8 || k == 9 || k == 10 || k == 11;
    }
  }

  lemma {:induction false} GatheredAtFields(p: Patch, k: nat)
    requires k <= 12
    ensures GatheredAt(p, k) == Gathered(Fields(p), k)
  {
    if k > 0 {
      GatheredAtFields(p, k - 1);
      FieldAtFields(p, k - 1);
    }
  }

  /** All twelve tests together ask for exactly the SET list. */
  lemma GatheredSetList(p: Patch)
    ensures GatheredAt(p, 12) == SetList(p)
  {
    GatheredAtFields(p, 12);
    GatheredThenCollect(Fields(p), 12);
    assert Collect(Fields(p), 12) == [];
  }

  /** After the tests of the first `k` fields, the lists hold the clauses and values of the assignments those fields ask for. */
  ghost predicate Progress(p: Patch, k: nat, updates: seq<string>, values: seq<SqlValue>) {
    updates == Clauses(GatheredAt(p, k)) && values == Values(GatheredAt(p, k))
  }

  /** One field test keeps `Progress`: the lists grow by the field's clause and value exactly when it is present. */
  lemma ProgressStep(p: Patch, k: nat, u: seq<string>, v: seq<SqlValue>, updates: seq<string>, values: seq<SqlValue>)
    requires Progress(p, k, u, v)
    requires FieldAt(p, k).None? ==> updates == u && values == v
    requires FieldAt(p, k).Some? ==>
               updates == u + [SetClause(FieldAt(p, k).value)] && values == v + [ValueOf(FieldAt(p, k).value)]
    ensures Progress(p, k + 1, updates, values)
  {
    if FieldAt(p, k).Some? {
      Pushed(GatheredAt(p, k), FieldAt(p, k).value);
    }
  }

  /**
   * The field-by-field tests of `updateMoment`: each property that is not
   * `undefined` pushes its `column = ?` clause and its value, in the fixed order.
   */
  method BuildSetList(p: Patch) returns (updates: seq<string>, values: seq<SqlValue>)
    ensures updates == Clauses(SetList(p)) && values == Values(SetList(p))
  {
    updates, values := [], [];
    updates, values := PushTextFields(p, updates, values);
    updates, values := PushCompanionAndRatings(p, updates, values);
    updates, values := PushTagsAndNotes(p, updates, values);
    GatheredSetList(p);
  }

  /** The tests of the title, location, context and date. */
  method PushTextFields(p: Patch, updates0: seq<string>, values0: seq<SqlValue>)
    returns (updates: seq<string>, values: seq<SqlValue>)
    requires Progress(p, 0, updates0, values0)
    ensures Progress(p, 4, updates, values)
  {
    updates, values := updates0, values0;
    ghost var u, v := updates, values;
    if p.title.Some? {
      updates, values := updates + ["title = ?"], values + [Text(p.title.value)];
    }
    ProgressStep(p, 0, u, v, updates, values);
    u, v := updates, values;
    if p.location.Some? {
      updates, values := updates + ["location = ?"], values + [Text(p.location.value)];
    }
    ProgressStep(p, 1, u, v, updates, values);
    u, v := updates, values;
    if p.context.Some? {
      updates, values := updates + ["context = ?"], values + [Text(p.context.value)];
    }
    ProgressStep(p, 2, u, v, updates, values);
    u, v := updates, values;
    if p.date.Some? {
      updates, values := updates + ["date = ?"], values + [Text(p.date.value)];
    }
    ProgressStep(p, 3, u, v, updates, values);
  }

  /** The tests of the companion and the three ratings. */
  method PushCompanionAndRatings(p: Patch, updates0: seq<string>, values0: seq<SqlValue>)
    returns (updates: seq<string>, values: seq<SqlValue>)
    requires Progress(p, 4, updates0, values0)
    ensures Progress(p, 8, updates, values)
  {
    updates, values := updates0, values0;
    ghost var u, v := updates, values;
    if p.companion.Some? {
      updates, values := updates + ["companion = ?"], values + [Text(p.companion.value)];
    }
    ProgressStep(p, 4, u, v, updates, values);
    u, v := updates, values;
    if p.pleasureRating.Some? {
      updates, values := updates + ["pleasureRating = ?"], values + [Integer(p.pleasureRating.value)];
    }
    ProgressStep(p, 5, u, v, updates, values);
    u, v := updates, values;
    if p.comfortRating.Some? {
      updates, values := updates + ["comfortRating = ?"], values + [Integer(p.comfortRating.value)];
    }
    ProgressStep(p, 6, u, v, updates, values);
    u, v := updates, values;
    if p.audacityRating.Some? {
      updates, values := updates + ["audacityRating = ?"], values + [Integer(p.audacityRating.value)];
    }
    ProgressStep(p, 7, u, v, updates, values);
  }

  /** The tests of the tag lists, notes and renewal. */
  method PushTagsAndNotes(p: Patch, updates0: seq<string>, values0: seq<SqlValue>)
    returns (updates: seq<string>, values: seq<SqlValue>)
    requires Progress(p, 8, updates0, values0)
    ensures Progress(p, 12, updates, values)
  {
    updates, values := updates0, values0;
    ghost var u, v := updates, values;
    if p.topTags.Some? {
      updates, values := updates + ["topTags = ?"], values + [Text(p.topTags.value)];
    }
    ProgressStep(p, 8, u, v, updates, values);
    u, v := updates, values;
    if p.flopTags.Some? {
      updates, values := updates + ["flopTags = ?"], values + [Text(p.flopTags.value)];
    }
    ProgressStep(p, 9, u, v, updates, values);
    u, v := updates, values;
    if p.personalNotes.Some? {
      updates, values := updates + ["personalNotes = ?"], values + [TextOrNull(p.personalNotes.value)];
    }
    ProgressStep(p, 10, u, v, updates, values);
    u, v := updates, values;
    if p.toRenew.Some? {
      updates, values := updates + ["toRenew = ?"], values + [TextOrNull(p.toRenew.value)];
    }
    ProgressStep(p, 11, u, v, updates, values);
  }

  // ----- The service -----

  /** An appended row with an id above every earlier one keeps ids increasing and is what a lookup by its id finds. */
  lemma AppendedIsFound(rows: seq<Moment>, m: Moment)
    requires IdsIncreasing(rows) && forall i :: 0 <= i < |rows| ==> rows[i].id < m.id
    ensures IdsIncreasing(rows + [m])
    ensures FirstWithId(rows + [m], m.id) == Some(m)
  {
    var r := rows + [m];
    assert forall i :: 0 <= i < |rows| ==> r[i] == rows[i];
    FirstWithIdUnique(r, |rows|);
  }

  /** Appending a row that passes its CHECKs under the next id keeps every row valid and below the advanced counter. */
  lemma AppendedRowsValid(rows: seq<Moment>, m: Moment, nextId: int)
    requires forall i :: 0 <= i < |rows| ==> 1 <= rows[i].id < nextId && RowValid(rows[i])
    requires m.id == nextId && nextId >= 1 && RowValid(m)
    ensures forall i :: 0 <= i < |rows + [m]| ==> 1 <= (rows + [m])[i].id < nextId + 1 && RowValid((rows + [m])[i])
  {
    var r := rows + [m];
    assert forall i :: 0 <= i < |rows| ==> r[i] == rows[i];
  }

  /** Rewriting one row without touching its id keeps ids increasing. */
  lemma ReplaceKeepsOrder(rows: seq<Moment>, i: nat, m: Moment)
    requires IdsIncreasing(rows) && i < |rows| && m.id == rows[i].id
    ensures IdsIncreasing(rows[i := m])
  {
  }

  /**
   * The service and the database file behind it. `connected` is `this.db !== null`;
   * `tableReady` says whether the file holds the `moments` table; `rows` are the
   * table's rows in rowid order; `nextId` is one above the AUTOINCREMENT counter.
   */
  class DatabaseService {
    var connected: bool
    var tableReady: bool
    var rows: seq<Moment>
    var nextId: int

    /** What the engine maintains: increasing ids below the counter, every row passing its CHECKs. */
    ghost predicate Valid()
      reads this
    {
      && nextId >= 1
      && IdsIncreasing(rows)
      && (forall i :: 0 <= i < |rows| ==> 1 <= rows[i].id < nextId && RowValid(rows[i]))
      && (!tableReady ==> rows == [])
    }

    /**
     * Why a statement would not run: the service's own guard comes first, then
     * a fault of the engine, then a file that lacks the table.
     */
    function StatementError(fault: Option<string>): (e: Option<DbError>)
      reads this
      ensures !connected ==> e == Some(NotInitialized)
      ensures e.None? <==> connected && fault.None? && tableReady
    {
      if !connected then Some(NotInitialized)
      else if fault.Some? then Some(EngineFault(fault.value))
      else if !tableReady then Some(NoSuchTable)
      else None
    }

    /** What `addMoment` settles to on the current state: the new id, or why nothing was written. */
    function AddOutcome(d: Draft, now: string, fault: Option<string>): (r: Result<int, DbError>)
      reads this
      ensures r.Success? <==> StatementError(fault).None? && RowValid(NewRow(d, nextId, now))
      ensures r.Success? ==> r.value == nextId
      ensures StatementError(fault).Some? ==> r == Failure(StatementError(fault).value)
      ensures StatementError(fault).None? && CheckViolation(NewRow(d, nextId, now)).Some? ==>
                r == Failure(CheckFailed(CheckViolation(NewRow(d, nextId, now)).value))
    {
      var e := StatementError(fault);
      if e.Some? then Failure(e.value)
      else
        var violation := CheckViolation(NewRow(d, nextId, now));
        if violation.Some? then Failure(CheckFailed(violation.value)) else Success(nextId)
    }

    /**
     * What `updateMoment` settles to on the current state. It fails only
     * without a connection, on a statement that cannot run, or on a rewritten
     * row a CHECK rejects; an empty patch or an absent id succeeds.
     */
    function UpdateOutcome(id: int, p: Patch, fault: Option<string>): (r: Result<(), DbError>)
      reads this
      ensures !connected ==> r == Failure(NotInitialized)
      ensures connected && EmptyPatch(p) ==> r == Success(())
      ensures r.Success? <==>
                connected && (EmptyPatch(p) || (StatementError(fault).None?
                  && (IndexOfId(rows, id).None? || RowValid(Patched(rows[IndexOfId(rows, id).value], p)))))
    {
      if !connected then Failure(NotInitialized)
      else if EmptyPatch(p) then Success(())
      else if StatementError(fault).Some? then Failure(StatementError(fault).value)
      else if IndexOfId(rows, id).None? then Success(())
      else
        var violation := CheckViolation(Patched(rows[IndexOfId(rows, id).value], p));
        if violation.Some? then Failure(CheckFailed(violation.value)) else Success(())
    }

    /** What `deleteMoment` settles to: it fails only when the statement cannot run. */
    function DeleteOutcome(id: int, fault: Option<string>): (r: Result<(), DbError>)
      reads this
      ensures r.Success? <==> StatementError(fault).None?
      ensures r.Failure? ==> r.error == StatementError(fault).value
    {
      var e := StatementError(fault);
      if e.Some? then Failure(e.value) else Success(())
    }

    /** `new DatabaseService()` over the file as the last session left it; no connection yet. */
    constructor (stored: seq<Moment>, counter: int, hasTable: bool)
      requires counter >= 1 && IdsIncreasing(stored) && (!hasTable ==> stored == [])
      requires forall i :: 0 <= i < |stored| ==> 1 <= stored[i].id < counter && RowValid(stored[i])
      ensures Valid() && !connected
      ensures rows == stored && nextId == counter && tableReady == hasTable
    {
      connected, tableReady, rows, nextId := false, hasTable, stored, counter;
    }

    /**
     * `init`: open the file, then `CREATE TABLE IF NOT EXISTS`. A failure of
     * either step is rethrown; a failed open leaves the field as it was.
     */
    method Init(openFault: Option<string>, execFault: Option<string>) returns (r: Result<(), DbError>)
      requires Valid()
      modifies this
      ensures Valid() && rows == old(rows) && nextId == old(nextId)
      ensures openFault.Some? ==> r == Failure(EngineFault(openFault.value)) && connected == old(connected) && tableReady == old(tableReady)
      ensures openFault.None? ==> connected
      ensures openFault.None? && execFault.Some? ==> r == Failure(EngineFault(execFault.value)) && tableReady == old(tableReady)
      ensures openFault.None? && execFault.None? ==> r == Success(()) && tableReady
    {
      if openFault.Some? {
        return Failure(EngineFault(openFault.value));
      }
      connected := true;
      if execFault.Some? {
        return Failure(EngineFault(execFault.value));
      }
      tableReady := true;
      r := Success(());
    }

    /** `getAllMoments`: every row once, by date and then creation time, newest first. */
    method GetAllMoments(fault: Option<string>) returns (r: Result<seq<Moment>, DbError>)
      requires Valid()
      ensures StatementError(fault).Some? ==> r == Failure(StatementError(fault).value)
      ensures StatementError(fault).None? ==> r == Success(ListAll(rows))
      ensures r.Success? ==> multiset(r.value) == multiset(rows) && SortedBy(OrderedBefore, r.value)
    {
      var e := StatementError(fault);
      if e.Some? {
        return Failure(e.value);
      }
      r := Success(ListAll(rows));
    }

    /** `getMomentById`: the row with that id, or `null` when there is none. */
    method GetMomentById(id: int, fault: Option<string>) returns (r: Result<Option<Moment>, DbError>)
      requires Valid()
      ensures StatementError(fault).Some? ==> r == Failure(StatementError(fault).value)
      ensures StatementError(fault).None? ==> r == Success(FirstWithId(rows, id))
      ensures r.Success? ==> (r.value.None? <==> forall i :: 0 <= i < |rows| ==> rows[i].id != id)
      ensures r.Success? && r.value.Some? ==> r.value.value in rows && r.value.value.id == id
    {
      var e := StatementError(fault);
      if e.Some? {
        return Failure(e.value);
      }
      r := Success(FirstWithId(rows, id));
    }

    /**
     * `addMoment`: one INSERT under the next AUTOINCREMENT id, stamped `now`;
     * a row a CHECK rejects is not written and consumes no id.
     */
    method AddMoment(d: Draft, now: string, fault: Option<string>) returns (r: Result<int, DbError>)
      requires Valid()
      modifies this
      ensures r == old(AddOutcome(d, now, fault))
      ensures Valid() && connected == old(connected) && tableReady == old(tableReady)
      ensures r.Failure? ==> rows == old(rows) && nextId == old(nextId)
      ensures r.Success? ==>
                && r.value == old(nextId) && nextId == old(nextId) + 1
                && rows == old(rows) + [NewRow(d, r.value, now)]
                && (forall i :: 0 <= i < |old(rows)| ==> old(rows)[i].id < r.value)
                && FirstWithId(rows, r.value) == Some(NewRow(d, r.value, now))
    {
      var e := StatementError(fault);
      if e.Some? {
        return Failure(e.value);
      }
      var m := NewRow(d, nextId, now);
      var violation := CheckViolation(m);
      if violation.Some? {
        return Failure(CheckFailed(violation.value));
      }
      AppendedIsFound(rows, m);
      AppendedRowsValid(rows, m, nextId);
      rows, nextId := rows + [m], nextId + 1;
      r := Success(m.id);
    }

    /**
     * `updateMoment`: build the SET list; with nothing to set, return before
     * any statement. Otherwise bind the id last and run the UPDATE, which
     * rewrites the row with that id, if any, unless a CHECK rejects the result.
     */
    method UpdateMoment(id: int, p: Patch, fault: Option<string>) returns (r: Result<(), DbError>)
      requires Valid()
      modifies this
      ensures r == old(UpdateOutcome(id, p, fault))
      ensures Valid() && connected == old(connected) && tableReady == old(tableReady) && nextId == old(nextId)
      ensures !connected ==> r == Failure(NotInitialized) && rows == old(rows)
      ensures connected && EmptyPatch(p) ==> r == Success(()) && rows == old(rows)
      ensures connected && !EmptyPatch(p) && StatementError(fault).Some? ==>
                r == Failure(StatementError(fault).value) && rows == old(rows)
      ensures StatementError(fault).None? && IndexOfId(old(rows), id).None? ==> r == Success(()) && rows == old(rows)
      ensures StatementError(fault).None? && !EmptyPatch(p) && IndexOfId(old(rows), id).Some? ==>
                var i := IndexOfId(old(rows), id).value;
                var m := Patched(old(rows)[i], p);
                && (CheckViolation(m).Some? ==> r == Failure(CheckFailed(CheckViolation(m).value)) && rows == old(rows))
                && (CheckViolation(m).None? ==> r == Success(()) && rows == old(rows)[i := m])
    {
      if !connected {
        return Failure(NotInitialized);
      }
      var updates, values := BuildSetList(p);
      SetListShape(p);
      if |updates| == 0 {
        return Success(());
      }
      values := values + [Integer(id)];
      assert |values| == |updates| + 1;
      var e := StatementError(fault);
      if e.Some? {
        return Failure(e.value);
      }
      var found := IndexOfId(rows, id);
      if found.None? {
        return Success(());
      }
      var i := found.value;
      var m := ApplyAll(rows[i], SetList(p));
      SetListMeaning(rows[i], p);
      var violation := CheckViolation(m);
      if violation.Some? {
        return Failure(CheckFailed(violation.value));
      }
      ReplaceKeepsOrder(rows, i, m);
      rows := rows[i := m];
      r := Success(());
    }

    /** `deleteMoment`: remove the row with that id; an absent id removes nothing and is no error. */
    method DeleteMoment(id: int, fault: Option<string>) returns (r: Result<(), DbError>)
      requires Valid()
      modifies this
      ensures r == old(DeleteOutcome(id, fault))
      ensures Valid() && connected == old(connected) && tableReady == old(tableReady) && nextId == old(nextId)
      ensures old(StatementError(fault)).Some? ==> r == Failure(old(StatementError(fault)).value) && rows == old(rows)
      ensures old(StatementError(fault)).None? ==> r == Success(()) && rows == WithoutId(old(rows), id)
      ensures (forall i :: 0 <= i < |old(rows)| ==> old(rows)[i].id != id) ==> rows == old(rows)
    {
      var e := StatementError(fault);
      if e.Some? {
        return Failure(e.value);
      }
      WithoutIdKeepsOrder(rows, id);
      rows := WithoutId(rows, id);
      r := Success(());
    }

    /** `getStats`: the row count, the three means (0 when empty) and the three most frequent locations. */
    method GetStats(fault: Option<string>) returns (r: Result<Stats, DbError>)
      requires Valid()
      ensures StatementError(fault).Some? ==> r == Failure(StatementError(fault).value)
      ensures StatementError(fault).None? ==> r == Success(ComputeStats(rows))
      ensures r.Success? ==> r.value.total == |rows| && IsTopLocations(rows, r.value.topLocations)
      ensures r.Success? && rows != [] ==>
                && 1.0 <= r.value.avgPleasure <= 10.0
                && 1.0 <= r.value.avgComfort <= 10.0
                && 1.0 <= r.value.avgAudacity <= 10.0
    {
      var e := StatementError(fault);
      if e.Some? {
        return Failure(e.value);
      }
      if rows != [] {
        MeanInRange(rows, Pleasure);
        MeanInRange(rows, Comfort);
        MeanInRange(rows, Audacity);
      }
      r := Success(ComputeStats(rows));
    }
  }
}
