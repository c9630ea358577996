/**
 * The `moments` table: its row type, the insert and update inputs, the CHECK
 * constraints of its schema, and the column assignments an UPDATE's SET list
 * is made of.
 */
module Schema {
  import opened Wrappers

  /** One row of the `moments` table. `None` is SQL NULL. */
  datatype Moment = Moment(
    id: int,
    title: string,
    location: string,
    context: string,
    date: string,            // ISO-8601 text, chosen by the user
    companion: string,
    pleasureRating: int,
    comfortRating: int,
    audacityRating: int,
    topTags: string,         // serialized tag list, opaque to the table
    flopTags: string,
    personalNotes: Option<string>,
    toRenew: Option<string>,
    createdAt: string)       // set by the store at insertion

  /** The insert input: a moment without `id` and `createdAt`. */
  datatype Draft = Draft(
    title: string,
    location: string,
    context: string,
    date: string,
    companion: string,
    pleasureRating: int,
    comfortRating: int,
    audacityRating: int,
    topTags: string,
    flopTags: string,
    personalNotes: Option<string>,   // None: the property is absent
    toRenew: Option<string>)         // None: null

  /**
   * The partial-update input: `None` is a property left `undefined`. For the
   * two nullable columns, `Some(None)` is an explicit `null`.
   */
  datatype Patch = Patch(
    title: Option<string>,
    location: Option<string>,
    context: Option<string>,
    date: Option<string>,
    companion: Option<string>,
    pleasureRating: Option<int>,
    comfortRating: Option<int>,
    audacityRating: Option<int>,
    topTags: Option<string>,
    flopTags: Option<string>,
    personalNotes: Option<Option<string>>,
    toRenew: Option<Option<string>>)

  /** `CHECK(x BETWEEN 1 AND 10)`. */
  predicate RatingInRange(r: int) {
    1 <= r <= 10
  }

  /** `CHECK(toRenew IN ('yes', 'no'))`, which a NULL passes. */
  predicate RenewAllowed(t: Option<string>) {
    t == None || t == Some("yes") || t == Some("no")
  }

  /** A row every CHECK constraint of the table accepts. */
  predicate RowValid(m: Moment) {
    && RatingInRange(m.pleasureRating)
    && RatingInRange(m.comfortRating)
    && RatingInRange(m.audacityRating)
    && RenewAllowed(m.toRenew)
  }

  /** The column whose CHECK constraint rejects the row first, in declaration order. */
  function CheckViolation(m: Moment): (r: Option<string>)
    ensures r.None? <==> RowValid(m)
    ensures r == Some("pleasureRating") <==> !RatingInRange(m.pleasureRating)
    ensures r == Some("comfortRating") <==>
              RatingInRange(m.pleasureRating) && !RatingInRange(m.comfortRating)
    ensures r == Some("audacityRating") <==>
              RatingInRange(m.pleasureRating) && RatingInRange(m.comfortRating) && !RatingInRange(m.audacityRating)
    ensures r == Some("toRenew") <==>
              RatingInRange(m.pleasureRating) && RatingInRange(m.comfortRating) && RatingInRange(m.audacityRating)
              && !RenewAllowed(m.toRenew)
    ensures r.Some? ==> r.value in {"pleasureRating", "comfortRating", "audacityRating", "toRenew"}
  {
    if !RatingInRange(m.pleasureRating) then Some("pleasureRating")
    else if !RatingInRange(m.comfortRating) then Some("comfortRating")
    else if !RatingInRange(m.audacityRating) then Some("audacityRating")
    else if !RenewAllowed(m.toRenew) then Some("toRenew")
    else None
  }

  /** JavaScript's `x || null` on an optional string: empty and absent both become NULL. */
  function NullIfEmpty(x: Option<string>): (r: Option<string>)
    ensures r.None? <==> x.None? || x == Some("")
    ensures r.Some? ==> r == x
  {
    if x == Some("") then None else x
  }

  /** The row `INSERT INTO moments ... VALUES (...)` writes for `d` under `id` at time `now`. */
  function NewRow(d: Draft, id: int, now: string): (m: Moment)
    ensures m.id == id && m.createdAt == now
    ensures m.personalNotes == NullIfEmpty(d.personalNotes) && m.toRenew == NullIfEmpty(d.toRenew)
  {
    Moment(id, d.title, d.location, d.context, d.date, d.companion,
           d.pleasureRating, d.comfortRating, d.audacityRating, d.topTags, d.flopTags,
           NullIfEmpty(d.personalNotes), NullIfEmpty(d.toRenew), now)
  }

  /** The user-supplied part of a row. */
  function DraftOf(m: Moment): Draft {
    Draft(m.title, m.location, m.context, m.date, m.companion,
          m.pleasureRating, m.comfortRating, m.audacityRating, m.topTags, m.flopTags,
          m.personalNotes, m.toRenew)
  }

  /** What is stored for a draft: its fields, with empty or absent notes and renew values as NULL. */
  function Normalized(d: Draft): Draft {
    d.(personalNotes := NullIfEmpty(d.personalNotes), toRenew := NullIfEmpty(d.toRenew))
  }

  /** Reading back an inserted row gives the draft and nothing else, up to the NULL normalisation. */
  lemma NewRowKeepsDraft(d: Draft, id: int, now: string)
    ensures DraftOf(NewRow(d, id, now)) == Normalized(d)
    ensures d.personalNotes != Some("") && RenewAllowed(d.toRenew) ==> DraftOf(NewRow(d, id, now)) == d
  {
  }

  /** The insert is rejected exactly when the draft breaks a CHECK constraint; `id` and `now` play no part. */
  lemma NewRowValidIff(d: Draft, id: int, now: string)
    ensures RowValid(NewRow(d, id, now)) <==>
              RatingInRange(d.pleasureRating) && RatingInRange(d.comfortRating)
              && RatingInRange(d.audacityRating) && (RenewAllowed(d.toRenew) || d.toRenew == Some(""))
  {
  }

  // ----- The SET list of an UPDATE -----

  /** A parameter bound to a `?` placeholder. */
  datatype SqlValue = Text(text: string) | Integer(number: int) | Null

  function TextOrNull(x: Option<string>): SqlValue {
    if x.Some? then Text(x.value) else Null
  }

  /** One `column = ?` assignment of an UPDATE, with the value bound to its placeholder. */
  datatype Assign =
    | SetTitle(title: string)
    | SetLocation(location: string)
    | SetContext(context: string)
    | SetDate(date: string)
    | SetCompanion(companion: string)
    | SetPleasure(pleasure: int)
    | SetComfort(comfort: int)
    | SetAudacity(audacity: int)
    | SetTopTags(topTags: string)
    | SetFlopTags(flopTags: string)
    | SetNotes(notes: Option<string>)
    | SetRenew(renew: Option<string>)

  /** The position of an assignment's column in the fixed order the update builder tests fields in. */
  function ColumnIndex(a: Assign): (k: nat)
    ensures k < 12
  {
    match a
    case SetTitle(_) => 0
    case SetLocation(_) => 1
    case SetContext(_) => 2
    case SetDate(_) => 3
    case SetCompanion(_) => 4
    case SetPleasure(_) => 5
    case SetComfort(_) => 6
    case SetAudacity(_) => 7
    case SetTopTags(_) => 8
    case SetFlopTags(_) => 9
    case SetNotes(_) => 10
    case SetRenew(_) => 11
  }

  /** The column names, as the literals the builder interpolates. */
  const COLUMNS: seq<string> := ["title", "location", "context", "date", "companion",
    "pleasureRating", "comfortRating", "audacityRating", "topTags", "flopTags",
    "personalNotes", "toRenew"]

  /** The SQL fragment pushed onto `updates` for an assignment. */
  function SetClause(a: Assign): string {
    match a
    case SetTitle(_) => "title = ?"
    case SetLocation(_) => "location = ?"
    case SetContext(_) => "context = ?"
    case SetDate(_) => "date = ?"
    case SetCompanion(_) => "companion = ?"
    case SetPleasure(_) => "pleasureRating = ?"
    case SetComfort(_) => "comfortRating = ?"
    case SetAudacity(_) => "audacityRating = ?"
    case SetTopTags(_) => "topTags = ?"
    case SetFlopTags(_) => "flopTags = ?"
    case SetNotes(_) => "personalNotes = ?"
    case SetRenew(_) => "toRenew = ?"
  }

  /** Each clause names its own column, taken from the fixed list, followed by one placeholder. */
  lemma SetClauseNamesColumn(a: Assign)
    ensures SetClause(a) == COLUMNS[ColumnIndex(a)] + " = ?"
  {
  }

  /** The parameter pushed onto `values` for an assignment. */
  function ValueOf(a: Assign): SqlValue {
    match a
    case SetTitle(s) => Text(s)
    case SetLocation(s) => Text(s)
    case SetContext(s) => Text(s)
    case SetDate(s) => Text(s)
    case SetCompanion(s) => Text(s)
    case SetPleasure(n) => Integer(n)
    case SetComfort(n) => Integer(n)
    case SetAudacity(n) => Integer(n)
    case SetTopTags(s) => Text(s)
    case SetFlopTags(s) => Text(s)
    case SetNotes(x) => TextOrNull(x)
    case SetRenew(x) => TextOrNull(x)
  }

  /**
   * The assignment each property of the patch asks for, by position in the
   * fixed field order: `None` where the property is `undefined`.
   */
  function Fields(p: Patch): (f: seq<Option<Assign>>)
    ensures |f| == 12
  {
    [ if p.title.Some? then Some(SetTitle(p.title.value)) else None,
      if p.location.Some? then Some(SetLocation(p.location.value)) else None,
      if p.context.Some? then Some(SetContext(p.context.value)) else None,
      if p.date.Some? then Some(SetDate(p.date.value)) else None,
      if p.companion.Some? then Some(SetCompanion(p.companion.value)) else None,
      if p.pleasureRating.Some? then Some(SetPleasure(p.pleasureRating.value)) else None,
      if p.comfortRating.Some? then Some(SetComfort(p.comfortRating.value)) else None,
      if p.audacityRating.Some? then Some(SetAudacity(p.audacityRating.value)) else None,
      if p.topTags.Some? then Some(SetTopTags(p.topTags.value)) else None,
      if p.flopTags.Some? then Some(SetFlopTags(p.flopTags.value)) else None,
      if p.personalNotes.Some? then Some(SetNotes(p.personalNotes.value)) else None,
      if p.toRenew.Some? then Some(SetRenew(p.toRenew.value)) else None ]
  }

  /** The entry at position `k`, when present, assigns column `k`. */
  predicate Positioned(f: seq<Option<Assign>>) {
    forall k :: 0 <= k < |f| && f[k].Some? ==> ColumnIndex(f[k].value) == k
  }

  /** Whether the patch defines (is not `undefined` at) the field at position `k`. */
  predicate Defines(p: Patch, k: nat) {
    || (k == 0 && p.title.Some?) || (k == 1 && p.location.Some?) || (k == 2 && p.context.Some?)
    || (k == 3 && p.date.Some?) || (k == 4 && p.companion.Some?) || (k == 5 && p.pleasureRating.Some?)
    || (k == 6 && p.comfortRating.Some?) || (k == 7 && p.audacityRating.Some?)
    || (k == 8 && p.topTags.Some?) || (k == 9 && p.flopTags.Some?)
    || (k == 10 && p.personalNotes.Some?) || (k == 11 && p.toRenew.Some?)
  }

  predicate EmptyPatch(p: Patch) {
    forall k: nat :: k < 12 ==> !Defines(p, k)
  }

  lemma FieldsPositioned(p: Patch)
    ensures Positioned(Fields(p))
  {
    var f := Fields(p);
    forall k | 0 <= k < |f| && f[k].Some? ensures ColumnIndex(f[k].value) == k {
      if k < 6 {
        assert k == 0 || k == 1 || k == 2 || k == 3 || k == 4 || k == 5;
      } else {
        assert k == 6 || k == 7 || k == 8 || k == 9 || k == 10 || k == 11;
      }
    }
  }

  lemma FieldsDefines(p: Patch, k: nat)
    requires k < 12
    ensures Fields(p)[k].Some? <==> Defines(p, k)
  {
    if k < 6 {
      assert k == 0 || k == 1 || k == 2 || k == 3 || k == 4 || k == 5;
    } else {
      assert k == 6 || k == 7 || k == 8 || k == 9 || k == 10 || k == 11;
    }
  }

  function Piece<T>(o: Option<T>): seq<T> {
    if o.Some? then [o.value] else []
  }

  /** The present entries of `f` from position `k` on, in order. */
  function Collect(f: seq<Option<Assign>>, k: nat): seq<Assign>
    requires k <= |f|
    decreases |f| - k
  {
    if k == |f| then [] else Piece(f[k]) + Collect(f, k + 1)
  }

  /**
   * The assignments a patch asks for: one per property that is not
   * `undefined`, in the fixed field order.
   */
  function SetList(p: Patch): seq<Assign> {
    Collect(Fields(p), 0)
  }

  /** Columns appear in strictly increasing order, so each at most once. */
  predicate StrictlyOrdered(s: seq<Assign>) {
    forall i, j :: 0 <= i < j < |s| ==> ColumnIndex(s[i]) < ColumnIndex(s[j])
  }

  lemma {:induction false} CollectOrdered(f: seq<Option<Assign>>, k: nat)
    requires Positioned(f) && k <= |f|
    ensures StrictlyOrdered(Collect(f, k))
    ensures forall a :: a in Collect(f, k) ==> k <= ColumnIndex(a)
    decreases |f| - k
  {
    if k < |f| {
      CollectOrdered(f, k + 1);
      ConcatOrdered(Piece(f[k]), Collect(f, k + 1), k);
    }
  }

  lemma ConcatOrdered(head: seq<Assign>, rest: seq<Assign>, k: nat)
    requires |head| <= 1 && forall a :: a in head ==> ColumnIndex(a) == k
    requires StrictlyOrdered(rest) && forall a :: a in rest ==> k + 1 <= ColumnIndex(a)
    ensures StrictlyOrdered(head + rest)
    ensures forall a :: a in head + rest ==> k <= ColumnIndex(a)
  {
    var r := head + rest;
    forall i, j | 0 <= i < j < |r| ensures ColumnIndex(r[i]) < ColumnIndex(r[j]) {
      if i < |head| {
        assert r[i] in head && r[j] in rest;
      } else {
        assert r[i] == rest[i - |head|] && r[j] == rest[j - |head|];
      }
    }
  }

  /** Column `j` is assigned from position `k` on exactly when entry `j` is present. */
  lemma {:induction false} CollectDefines(f: seq<Option<Assign>>, k: nat, j: nat)
    requires Positioned(f) && k <= j < |f|
    ensures f[j].Some? <==> exists a :: a in Collect(f, k) && ColumnIndex(a) == j
    decreases |f| - k
  {
    CollectOrdered(f, k + 1);
    ConcatMembership(Piece(f[k]), Collect(f, k + 1), k, j);
    if k < j {
      CollectDefines(f, k + 1, j);
    }
  }

  lemma ConcatMembership(head: seq<Assign>, rest: seq<Assign>, k: nat, j: nat)
    requires |head| <= 1 && forall a :: a in head ==> ColumnIndex(a) == k
    requires forall a :: a in rest ==> k + 1 <= ColumnIndex(a)
    requires k <= j
    ensures k < j ==> ((exists a :: a in head + rest && ColumnIndex(a) == j) <==>
                       (exists a :: a in rest && ColumnIndex(a) == j))
    ensures k == j ==> ((exists a :: a in head + rest && ColumnIndex(a) == j) <==> head != [])
  {
    if k == j && head != [] {
      assert head[0] in head + rest;
    }
  }

  lemma {:induction false} CollectEmpty(f: seq<Option<Assign>>, k: nat)
    requires k <= |f|
    ensures Collect(f, k) == [] <==> forall j :: k <= j < |f| ==> f[j].None?
    decreases |f| - k
  {
    if k < |f| {
      CollectEmpty(f, k + 1);
      assert Collect(f, k) == Piece(f[k]) + Collect(f, k + 1);
    }
  }

  /** The SET list names each defined column exactly once, in the fixed order, and no other column. */
  lemma SetListShape(p: Patch)
    ensures StrictlyOrdered(SetList(p))
    ensures forall k: nat :: k < 12 ==>
              (Defines(p, k) <==> exists a :: a in SetList(p) && ColumnIndex(a) == k)
    ensures SetList(p) == [] <==> EmptyPatch(p)
  {
    var f := Fields(p);
    FieldsPositioned(p);
    CollectOrdered(f, 0);
    CollectEmpty(f, 0);
    forall k: nat | k < 12
      ensures Defines(p, k) <==> exists a :: a in SetList(p) && ColumnIndex(a) == k
    {
      CollectDefines(f, 0, k);
      FieldsDefines(p, k);
    }
    forall k: nat | k < 12 ensures f[k].None? <==> !Defines(p, k) {
      FieldsDefines(p, k);
    }
  }

  // ----- What an UPDATE does to the matched row -----

  function ApplyAssign(m: Moment, a: Assign): Moment {
    match a
    case SetTitle(s) => m.(title := s)
    case SetLocation(s) => m.(location := s)
    case SetContext(s) => m.(context := s)
    case SetDate(s) => m.(date := s)
    case SetCompanion(s) => m.(companion := s)
    case SetPleasure(n) => m.(pleasureRating := n)
    case SetComfort(n) => m.(comfortRating := n)
    case SetAudacity(n) => m.(audacityRating := n)
    case SetTopTags(s) => m.(topTags := s)
    case SetFlopTags(s) => m.(flopTags := s)
    case SetNotes(x) => m.(personalNotes := x)
    case SetRenew(x) => m.(toRenew := x)
  }

  /** The state after performing the actions of `s` in order. */
  function Fold<S, A>(m: S, s: seq<A>, step: (S, A) -> S): S
    decreases |s|
  {
    if s == [] then m else Fold(step(m, s[0]), s[1..], step)
  }

  /** The row after the engine performs the assignments of a SET list. */
  function ApplyAll(m: Moment, s: seq<Assign>): Moment {
    Fold(m, s, ApplyAssign)
  }

  /** The partial-update rule: every field the patch defines takes its value, every other field is kept. */
  function Patched(m: Moment, p: Patch): Moment {
    m.(title := p.title.GetOr(m.title), location := p.location.GetOr(m.location),
       context := p.context.GetOr(m.context), date := p.date.GetOr(m.date),
       companion := p.companion.GetOr(m.companion),
       pleasureRating := p.pleasureRating.GetOr(m.pleasureRating),
       comfortRating := p.comfortRating.GetOr(m.comfortRating),
       audacityRating := p.audacityRating.GetOr(m.audacityRating),
       topTags := p.topTags.GetOr(m.topTags), flopTags := p.flopTags.GetOr(m.flopTags),
       personalNotes := p.personalNotes.GetOr(m.personalNotes),
       toRenew := p.toRenew.GetOr(m.toRenew))
  }

  /** The row after the assignment of one entry, if it is present. */
  function Step(m: Moment, o: Option<Assign>): Moment {
    if o.Some? then ApplyAssign(m, o.value) else m
  }

  /** Performing the present entries of `f` from position `k` on, one position at a time. */
  function Steps(m: Moment, f: seq<Option<Assign>>, k: nat): Moment
    requires k <= |f|
    decreases |f| - k
  {
    if k == |f| then m else Steps(Step(m, f[k]), f, k + 1)
  }

  /** The engine performing the collected SET list is the position-by-position walk. */
  lemma {:induction false} CollectSteps(m: Moment, f: seq<Option<Assign>>, k: nat)
    requires k <= |f|
    ensures ApplyAll(m, Collect(f, k)) == Steps(m, f, k)
    decreases |f| - k
  {
    if k < |f| {
      FoldPiece(m, f[k], Collect(f, k + 1), ApplyAssign);
      CollectSteps(Step(m, f[k]), f, k + 1);
    }
  }

  lemma FoldPiece<S, A>(m: S, o: Option<A>, rest: seq<A>, step: (S, A) -> S)
    ensures Fold(m, Piece(o) + rest, step) == Fold(if o.Some? then step(m, o.value) else m, rest, step)
  {
    if o.Some? {
      assert (Piece(o) + rest)[1..] == rest;
    } else {
      assert Piece(o) + rest == rest;
    }
  }

  lemma StepsTextFields(m: Moment, p: Patch)
    ensures Steps(m, Fields(p), 0) ==
            Steps(m.(title := p.title.GetOr(m.title), location := p.location.GetOr(m.location),
                     context := p.context.GetOr(m.context), date := p.date.GetOr(m.date)), Fields(p), 4)
  {
    var f := Fields(p);
    var r1 := m.(title := p.title.GetOr(m.title));
    var r2 := r1.(location := p.location.GetOr(m.location));
    var r3 := r2.(context := p.context.GetOr(m.context));
    assert Step(m, f[0]) == r1;
    assert Steps(m, f, 0) == Steps(r1, f, 1);
    assert Step(r1, f[1]) == r2;
    assert Steps(r1, f, 1) == Steps(r2, f, 2);
    assert Step(r2, f[2]) == r3;
    assert Steps(r2, f, 2) == Steps(r3, f, 3);
    assert Step(r3, f[3]) == r3.(date := p.date.GetOr(m.date));
    assert Steps(r3, f, 3) == Steps(r3.(date := p.date.GetOr(m.date)), f, 4);
  }

  lemma StepsRatingFields(m: Moment, p: Patch)
    ensures Steps(m, Fields(p), 4) ==
            Steps(m.(companion := p.companion.GetOr(m.companion),
                     pleasureRating := p.pleasureRating.GetOr(m.pleasureRating),
                     comfortRating := p.comfortRating.GetOr(m.comfortRating),
                     audacityRating := p.audacityRating.GetOr(m.audacityRating)), Fields(p), 8)
  {
    var f := Fields(p);
    var r1 := m.(companion := p.companion.GetOr(m.companion));
    var r2 := r1.(pleasureRating := p.pleasureRating.GetOr(m.pleasureRating));
    var r3 := r2.(comfortRating := p.comfortRating.GetOr(m.comfortRating));
    assert Step(m, f[4]) == r1;
    assert Steps(m, f, 4) == Steps(r1, f, 5);
    assert Step(r1, f[5]) == r2;
    assert Steps(r1, f, 5) == Steps(r2, f, 6);
    assert Step(r2, f[6]) == r3;
    assert Steps(r2, f, 6) == Steps(r3, f, 7);
    assert Step(r3, f[7]) == r3.(audacityRating := p.audacityRating.GetOr(m.audacityRating));
    assert Steps(r3, f, 7) == Steps(r3.(audacityRating := p.audacityRating.GetOr(m.audacityRating)), f, 8);
  }

  lemma StepsTagFields(m: Moment, p: Patch)
    ensures Steps(m, Fields(p), 8) ==
            m.(topTags := p.topTags.GetOr(m.topTags), flopTags := p.flopTags.GetOr(m.flopTags),
               personalNotes := p.personalNotes.GetOr(m.personalNotes),
               toRenew := p.toRenew.GetOr(m.toRenew))
  {
    var f := Fields(p);
    var r1 := m.(topTags := p.topTags.GetOr(m.topTags));
    var r2 := r1.(flopTags := p.flopTags.GetOr(m.flopTags));
    var r3 := r2.(personalNotes := p.personalNotes.GetOr(m.personalNotes));
    var r4 := r3.(toRenew := p.toRenew.GetOr(m.toRenew));
    assert Step(m, f[8]) == r1;
    assert Steps(m, f, 8) == Steps(r1, f, 9);
    assert Step(r1, f[9]) == r2;
    assert Steps(r1, f, 9) == Steps(r2, f, 10);
    assert Step(r2, f[10]) == r3;
    assert Steps(r2, f, 10) == Steps(r3, f, 11);
    assert Step(r3, f[11]) == r4;
    assert Steps(r3, f, 11) == Steps(r4, f, 12);
    assert Steps(r4, f, 12) == r4;
  }

  /**
   * Performing the SET list the builder produces is the partial-update rule:
   * the defined fields change, the others and `id` and `createdAt` do not.
   */
  lemma SetListMeaning(m: Moment, p: Patch)
    ensures ApplyAll(m, SetList(p)) == Patched(m, p)
    ensures ApplyAll(m, SetList(p)).id == m.id && ApplyAll(m, SetList(p)).createdAt == m.createdAt
  {
    CollectSteps(m, Fields(p), 0);
    StepsTextFields(m, p);
    var m4 := m.(title := p.title.GetOr(m.title), location := p.location.GetOr(m.location),
                 context := p.context.GetOr(m.context), date := p.date.GetOr(m.date));
    StepsRatingFields(m4, p);
    var m8 := m4.(companion := p.companion.GetOr(m.companion),
                  pleasureRating := p.pleasureRating.GetOr(m.pleasureRating),
                  comfortRating := p.comfortRating.GetOr(m.comfortRating),
                  audacityRating := p.audacityRating.GetOr(m.audacityRating));
    StepsTagFields(m8, p);
  }
}
