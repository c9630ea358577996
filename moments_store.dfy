/**
 * `useMomentsStore`: the in-memory cache of the moments list that the screens
 * render, with a loading flag and the last error message. Each action
 * delegates to the database service and reloads the list after a change.
 * Every `set` the container performs is recorded in `published`, the
 * sequence of states its subscribers are shown.
 */
module MomentsStore {
  import opened Wrappers
  import opened Schema
  import opened Queries
  import opened Database

  /** What the container exposes to the screens. */
  datatype View = View(moments: seq<Moment>, isLoading: bool, error: Option<string>)

  class MomentsState {
    var moments: seq<Moment>
    var isLoading: bool
    var error: Option<string>
    ghost var published: seq<View>
    const db: DatabaseService

    ghost predicate Valid()
      reads this, db
    {
      db.Valid()
    }

    function Current(): View
      reads this
    {
      View(moments, isLoading, error)
    }

    /**
     * What a `loadMoments` run leaves when the list was `prev` before it: the
     * service's ordered list with no error, or `prev` and the failure's message.
     */
    ghost predicate Loaded(prev: seq<Moment>, fault: Option<string>)
      reads this, db
    {
      && !isLoading
      && (db.StatementError(fault).None? ==> moments == ListAll(db.rows) && error == None)
      && (db.StatementError(fault).Some? ==>
            moments == prev && error == Some(Message(db.StatementError(fault).value)))
    }

    /** The initial state: no moments, not loading, no error. */
    constructor (service: DatabaseService)
      requires service.Valid()
      ensures Valid() && db == service
      ensures moments == [] && !isLoading && error == None && published == []
    {
      db := service;
      moments, isLoading, error := [], false, None;
      published := [];
    }

    /** `set({ isLoading: true, error: null })`, the first step of every action. */
    method Begin()
      modifies this
      ensures moments == old(moments) && isLoading && error == None
      ensures published == old(published) + [View(old(moments), true, None)]
    {
      isLoading, error := true, None;
      published := published + [Current()];
    }

    /** `loadMoments`: replace the cache by the service's list; on failure keep it and record the message. */
    method LoadMoments(fault: Option<string>)
      requires Valid()
      modifies this
      ensures Valid() && Loaded(old(moments), fault)
      ensures published == old(published) + [View(old(moments), true, None), Current()]
    {
      Begin();
      var r := db.GetAllMoments(fault);
      if r.Success? {
        moments, isLoading := r.value, false;
      } else {
        error, isLoading := Some(Message(r.error)), false;
      }
      published := published + [Current()];
    }

    /** Record a failed mutation: its message, loading over, the cache untouched. */
    method Fail(e: DbError)
      modifies this
      ensures moments == old(moments) && !isLoading && error == Some(Message(e))
      ensures published == old(published) + [Current()]
    {
      error, isLoading := Some(Message(e)), false;
      published := published + [Current()];
    }

    /**
     * `addMoment`: insert, then reload. A rejected insert leaves the table and
     * the cache as they were and records why; an accepted one is followed by
     * a reload, whose own failure leaves the cache stale with its message.
     */
    method AddMoment(d: Draft, now: string, fault: Option<string>, loadFault: Option<string>)
      requires Valid()
      modifies this, db
      ensures Valid()
      ensures old(db.AddOutcome(d, now, fault)).Failure? ==>
                && db.rows == old(db.rows)
                && moments == old(moments) && !isLoading
                && error == Some(Message(old(db.AddOutcome(d, now, fault)).error))
                && published == old(published) + [View(old(moments), true, None), Current()]
      ensures old(db.AddOutcome(d, now, fault)).Success? ==>
                && db.rows == old(db.rows) + [NewRow(d, old(db.nextId), now)]
                && Loaded(old(moments), loadFault)
                && published == old(published) + [View(old(moments), true, None), View(old(moments), true, None), Current()]
    {
      ghost var outcome := db.AddOutcome(d, now, fault);
      ghost var added := db.rows + [NewRow(d, db.nextId, now)];
      Begin();
      var r := db.AddMoment(d, now, fault);
      assert r == outcome;
      if r.Failure? {
        Fail(r.error);
        return;
      }
      assert db.rows == added;
      LoadMoments(loadFault);
    }

    /** `updateMoment`: update, then reload; failures as for `addMoment`. */
    method UpdateMoment(id: int, p: Patch, fault: Option<string>, loadFault: Option<string>)
      requires Valid()
      modifies this, db
      ensures Valid()
      ensures old(db.UpdateOutcome(id, p, fault)).Failure? ==>
                && db.rows == old(db.rows)
                && moments == old(moments) && !isLoading
                && error == Some(Message(old(db.UpdateOutcome(id, p, fault)).error))
                && published == old(published) + [View(old(moments), true, None), Current()]
      ensures old(db.UpdateOutcome(id, p, fault)).Success? ==>
                && Loaded(old(moments), loadFault)
                && published == old(published) + [View(old(moments), true, None), View(old(moments), true, None), Current()]
      ensures old(db.UpdateOutcome(id, p, fault)).Success? && !EmptyPatch(p) && old(IndexOfId(db.rows, id)).Some? ==>
                db.rows == old(db.rows)[old(IndexOfId(db.rows, id)).value := Patched(old(db.rows)[old(IndexOfId(db.rows, id)).value], p)]
      ensures old(db.UpdateOutcome(id, p, fault)).Success? && (EmptyPatch(p) || old(IndexOfId(db.rows, id)).None?) ==>
                db.rows == old(db.rows)
    {
      Begin();
      var r := db.UpdateMoment(id, p, fault);
      if r.Failure? {
        Fail(r.error);
        return;
      }
      LoadMoments(loadFault);
    }

    /** `deleteMoment`: delete, then reload; failures as for `addMoment`. */
    method DeleteMoment(id: int, fault: Option<string>, loadFault: Option<string>)
      requires Valid()
      modifies this, db
      ensures Valid()
      ensures old(db.DeleteOutcome(id, fault)).Failure? ==>
                && db.rows == old(db.rows)
                && moments == old(moments) && !isLoading
                && error == Some(Message(old(db.DeleteOutcome(id, fault)).error))
                && published == old(published) + [View(old(moments), true, None), Current()]
      ensures old(db.DeleteOutcome(id, fault)).Success? ==>
                && db.rows == WithoutId(old(db.rows), id)
                && Loaded(old(moments), loadFault)
                && published == old(published) + [View(old(moments), true, None), View(old(moments), true, None), Current()]
    {
      Begin();
      var r := db.DeleteMoment(id, fault);
      if r.Failure? {
        Fail(r.error);
        return;
      }
      LoadMoments(loadFault);
    }

    /** `getMomentById`: the first cached moment with that id; it reads the cache and nothing else. */
    function GetMomentById(id: int): (r: Option<Moment>)
      reads this
      ensures r.Some? ==> r.value in moments && r.value.id == id
      ensures r.None? <==> forall i :: 0 <= i < |moments| ==> moments[i].id != id
    {
      FirstWithId(moments, id)
    }
  }
}
