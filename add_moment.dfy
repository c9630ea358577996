/**
 * The add-moment screen's handlers: toggling and adding tags, and turning
 * the form into the record handed to the moments store.
 */
module AddMoment {
  import opened Wrappers
  import opened Text
  import opened Json
  import opened Schema

  datatype Renew = Yes | No

  /** The screen's form state; the picked date enters already as `toISOString()` text. */
  datatype Form = Form(
    title: string,
    location: string,
    customLocation: string,
    date: string,
    companion: string,
    pleasureRating: int,
    comfortRating: int,
    audacityRating: int,
    topTags: seq<string>,
    flopTags: seq<string>,
    personalNotes: string,
    toRenew: Option<Renew>,
    newTopTag: string,
    newFlopTag: string)

  /** The form as the screen opens, with today's date. */
  function InitialForm(today: string): (f: Form)
    ensures f.pleasureRating == 0 && f.comfortRating == 0 && f.audacityRating == 0
    ensures f.topTags == [] && f.flopTags == [] && f.toRenew == None && f.location == "Chez moi"
  {
    Form("", "Chez moi", "", today, "", 0, 0, 0, [], [], "", None, "", "")
  }

  // ----- Tags -----

  /** `prev.filter((t) => t !== tag)`. */
  function Without(prev: seq<string>, tag: string): (r: seq<string>)
    ensures tag !in r
    ensures forall t :: t != tag ==> multiset(r)[t] == multiset(prev)[t]
    ensures tag !in prev ==> r == prev
    ensures tag in prev ==> |r| < |prev|
    ensures |prev| == 1 ==> r == (if prev[0] == tag then [] else prev)
  {
    if prev == [] then []
    else
      var rest := Without(prev[1..], tag);
      assert prev == [prev[0]] + prev[1..];
      if prev[0] == tag then rest else [prev[0]] + rest
  }

  /** Filtering works element by element, so the kept tags stay in their order. */
  lemma {:induction false} WithoutConcat(a: seq<string>, b: seq<string>, tag: string)
    ensures Without(a + b, tag) == Without(a, tag) + Without(b, tag)
    decreases |a|
  {
    if a != [] {
      assert (a + b)[0] == a[0] && (a + b)[1..] == a[1..] + b;
      WithoutConcat(a[1..], b, tag);
    } else {
      assert a + b == b;
    }
  }

  /** `handleToggleTopTag` / `handleToggleFlopTag`: drop every copy of a present tag, append an absent one. */
  function Toggle(prev: seq<string>, tag: string): (r: seq<string>)
    ensures tag in prev ==> r == Without(prev, tag)
    ensures tag in prev ==> tag !in r && forall t :: t != tag ==> multiset(r)[t] == multiset(prev)[t]
    ensures tag !in prev ==> r == prev + [tag]
    ensures tag in prev ==> |r| < |prev|
  {
    if tag in prev then Without(prev, tag) else prev + [tag]
  }

  /** No tag is listed twice. */
  predicate NoRepeats(s: seq<string>) {
    forall i, j :: 0 <= i < j < |s| ==> s[i] != s[j]
  }

  lemma {:induction false} WithoutKeepsNoRepeats(prev: seq<string>, tag: string)
    requires NoRepeats(prev)
    ensures NoRepeats(Without(prev, tag))
  {
    if prev != [] {
      var tail := prev[1..];
      assert NoRepeats(tail) by {
        forall i, j | 0 <= i < j < |tail| ensures tail[i] != tail[j] {
          assert tail[i] == prev[i + 1] && tail[j] == prev[j + 1];
        }
      }
      WithoutKeepsNoRepeats(tail, tag);
      var rest := Without(tail, tag);
      if prev[0] != tag {
        assert prev[0] !in tail by {
          forall k | 0 <= k < |tail| ensures tail[k] != prev[0] {
            assert tail[k] == prev[k + 1];
          }
        }
        assert multiset(rest)[prev[0]] == multiset(tail)[prev[0]] == 0;
        var r := [prev[0]] + rest;
        forall i, j | 0 <= i < j < |r| ensures r[i] != r[j] {
          if i > 0 {
            assert r[i] == rest[i - 1] && r[j] == rest[j - 1];
          } else {
            assert r[j] in rest;
          }
        }
      }
    }
  }

  /** Toggling keeps a tag list free of repeats. */
  lemma ToggleKeepsNoRepeats(prev: seq<string>, tag: string)
    requires NoRepeats(prev)
    ensures NoRepeats(Toggle(prev, tag))
  {
    if tag in prev {
      WithoutKeepsNoRepeats(prev, tag);
    } else {
      var r := prev + [tag];
      forall i, j | 0 <= i < j < |r| ensures r[i] != r[j] {
        if j == |prev| {
          assert r[i] in prev;
        }
      }
    }
  }

  /** Toggling an absent tag twice gives back the list. */
  lemma ToggleTwice(prev: seq<string>, tag: string)
    requires tag !in prev
    ensures Toggle(Toggle(prev, tag), tag) == prev
  {
    WithoutAppended(prev, tag);
  }

  lemma {:induction false} WithoutAppended(prev: seq<string>, tag: string)
    requires tag !in prev
    ensures Without(prev + [tag], tag) == prev
  {
    if prev == [] {
      assert Without([tag], tag) == Without([tag][1..], tag);
    } else {
      assert (prev + [tag])[1..] == prev[1..] + [tag];
      WithoutAppended(prev[1..], tag);
    }
  }

  /**
   * `handleAddTopTag` / `handleAddFlopTag` on the tag list and the input
   * text: blank input is ignored; otherwise the trimmed text is toggled and
   * the input cleared.
   */
  function AddTag(tags: seq<string>, input: string): (r: (seq<string>, string))
    ensures AllWhitespace(input) ==> r == (tags, input)
    ensures !AllWhitespace(input) ==> r == (Toggle(tags, Trim(input)), "")
  {
    TrimEmptyIff(input);
    if Trim(input) == "" then (tags, input) else (Toggle(tags, Trim(input)), "")
  }

  /** The add handlers applied to the form: only the list and its input change. */
  function HandleAddTopTag(f: Form): (g: Form)
    ensures (g.topTags, g.newTopTag) == AddTag(f.topTags, f.newTopTag)
    ensures g == f.(topTags := g.topTags, newTopTag := g.newTopTag)
  {
    var (tags, input) := AddTag(f.topTags, f.newTopTag);
    f.(topTags := tags, newTopTag := input)
  }

  function HandleAddFlopTag(f: Form): (g: Form)
    ensures (g.flopTags, g.newFlopTag) == AddTag(f.flopTags, f.newFlopTag)
    ensures g == f.(flopTags := g.flopTags, newFlopTag := g.newFlopTag)
  {
    var (tags, input) := AddTag(f.flopTags, f.newFlopTag);
    f.(flopTags := tags, newFlopTag := input)
  }

  // ----- The record `handleSave` passes to the store -----

  /** `(location === 'Autre' ? customLocation.trim() : location) || 'Autre'`. */
  function StoredLocation(location: string, customLocation: string): (r: string)
    ensures location == "Autre" ==> r == (if Trim(customLocation) == "" then "Autre" else Trim(customLocation))
    ensures location != "Autre" && location != "" ==> r == location
    ensures location == "" ==> r == "Autre"
    ensures r != ""
  {
    var chosen := if location == "Autre" then Trim(customLocation) else location;
    if chosen == "" then "Autre" else chosen
  }

  function RenewText(t: Option<Renew>): (r: Option<string>)
    ensures RenewAllowed(r) && r != Some("")
    ensures r == Some("yes") <==> t == Some(Yes)
    ensures r == Some("no") <==> t == Some(No)
    ensures r == None <==> t == None
  {
    match t
    case None => None
    case Some(Yes) => Some("yes")
    case Some(No) => Some("no")
  }

  /**
   * `handleSave`: no record without a companion; otherwise the trimmed
   * fields, a title defaulting to "Moment avec " and the companion as typed,
   * an empty context, the serialized tag lists, and notes dropped when blank.
   */
  function BuildRecord(f: Form): (r: Option<Draft>)
    ensures r.None? <==> AllWhitespace(f.companion)
    ensures r.Some? ==>
              && r.value.companion == Trim(f.companion) && r.value.context == ""
              && r.value.location == StoredLocation(f.location, f.customLocation)
              && r.value.date == f.date
              && r.value.pleasureRating == f.pleasureRating
              && r.value.comfortRating == f.comfortRating
              && r.value.audacityRating == f.audacityRating
              && r.value.topTags == EncodeTags(f.topTags) && r.value.flopTags == EncodeTags(f.flopTags)
              && r.value.toRenew == RenewText(f.toRenew)
    ensures r.Some? ==> r.value.title == (if AllWhitespace(f.title) then "Moment avec " + f.companion else Trim(f.title))
    ensures r.Some? ==> r.value.personalNotes == (if AllWhitespace(f.personalNotes) then None else Some(Trim(f.personalNotes)))
  {
    TrimEmptyIff(f.companion);
    TrimEmptyIff(f.title);
    TrimEmptyIff(f.personalNotes);
    if Trim(f.companion) == "" then None
    else
      Some(Draft(
        if Trim(f.title) != "" then Trim(f.title) else "Moment avec " + f.companion,
        StoredLocation(f.location, f.customLocation),
        "",
        f.date,
        Trim(f.companion),
        f.pleasureRating, f.comfortRating, f.audacityRating,
        EncodeTags(f.topTags), EncodeTags(f.flopTags),
        if Trim(f.personalNotes) != "" then Some(Trim(f.personalNotes)) else None,
        RenewText(f.toRenew)))
  }

  /** The insert stores a built record unchanged: its notes are never empty and its renew value is allowed. */
  lemma StoredAsBuilt(f: Form, id: int, now: string)
    requires !AllWhitespace(f.companion)
    ensures DraftOf(NewRow(BuildRecord(f).value, id, now)) == BuildRecord(f).value
  {
    NewRowKeepsDraft(BuildRecord(f).value, id, now);
  }

  /**
   * A form whose pleasure rating was never touched (0) builds a record that the
   * table's CHECK rejects, naming that column.
   */
  lemma UnratedIsRejected(f: Form, id: int, now: string)
    requires !AllWhitespace(f.companion) && f.pleasureRating == 0
    ensures CheckViolation(NewRow(BuildRecord(f).value, id, now)) == Some("pleasureRating")
  {
  }

  /** With every rating in the table's range, the built record passes every CHECK. */
  lemma RatedIsAccepted(f: Form, id: int, now: string)
    requires !AllWhitespace(f.companion)
    requires RatingInRange(f.pleasureRating) && RatingInRange(f.comfortRating) && RatingInRange(f.audacityRating)
    ensures RowValid(NewRow(BuildRecord(f).value, id, now))
  {
    NewRowValidIff(BuildRecord(f).value, id, now);
  }
}
