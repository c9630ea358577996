/**
 * `SuggestionChips`: a row of tag chips over the current selection, with an
 * optional cap on how many may be selected.
 */
module SuggestionChips {
  import opened Wrappers
  import opened AddMoment

  /** `isSelected`: the chip's tag is one of the selected tags. */
  function IsSelected(selected: seq<string>, tag: string): (r: bool)
    ensures r <==> exists i :: 0 <= i < |selected| && selected[i] == tag
  {
    tag in selected
  }

  /**
   * `canSelect`: `!maxSelections || selectedTags.length < maxSelections`; an
   * absent cap and a cap of 0 both mean "no cap".
   */
  function CanSelect(selected: seq<string>, maxSelections: Option<int>): (r: bool)
    ensures maxSelections.None? || maxSelections == Some(0) ==> r
    ensures maxSelections.Some? && maxSelections.value != 0 ==> (r <==> |selected| < maxSelections.value)
  {
    maxSelections.None? || maxSelections.value == 0 || |selected| < maxSelections.value
  }

  /** `handlePress`: the tag forwarded to `onToggle`, or `None` when the press is ignored. */
  function HandlePress(selected: seq<string>, maxSelections: Option<int>, tag: string): (r: Option<string>)
    ensures r.Some? ==> r.value == tag
    ensures r.Some? <==> (exists i :: 0 <= i < |selected| && selected[i] == tag) || CanSelect(selected, maxSelections)
  {
    if IsSelected(selected, tag) || CanSelect(selected, maxSelections) then Some(tag) else None
  }

  /** The selection after a press, when the parent's `onToggle` is the add-moment screen's toggle. */
  function Pressed(selected: seq<string>, maxSelections: Option<int>, tag: string): seq<string> {
    if HandlePress(selected, maxSelections, tag).Some? then Toggle(selected, tag) else selected
  }

  /** A selection within a positive cap stays within it after one press. */
  lemma PressKeepsCap(selected: seq<string>, cap: int, tag: string)
    requires 0 < cap && |selected| <= cap
    ensures |Pressed(selected, Some(cap), tag)| <= cap
  {
  }

  /** With a full selection, a press on an unselected chip changes nothing. */
  lemma FullIgnoresNewTag(selected: seq<string>, cap: int, tag: string)
    requires 0 < cap <= |selected| && tag !in selected
    ensures HandlePress(selected, Some(cap), tag) == None
    ensures Pressed(selected, Some(cap), tag) == selected
  {
  }

  /** The selection after a run of presses. */
  function PressAll(selected: seq<string>, maxSelections: Option<int>, taps: seq<string>): seq<string>
    decreases |taps|
  {
    if taps == [] then selected
    else PressAll(Pressed(selected, maxSelections, taps[0]), maxSelections, taps[1..])
  }

  /** No run of presses takes a selection within a positive cap past it, nor introduces a repeated tag. */
  lemma {:induction false} PressAllKeepsCap(selected: seq<string>, cap: int, taps: seq<string>)
    requires 0 < cap && |selected| <= cap && NoRepeats(selected)
    ensures |PressAll(selected, Some(cap), taps)| <= cap
    ensures NoRepeats(PressAll(selected, Some(cap), taps))
    decreases |taps|
  {
    if taps != [] {
      var next := Pressed(selected, Some(cap), taps[0]);
      PressKeepsCap(selected, cap, taps[0]);
      if next != selected {
        ToggleKeepsNoRepeats(selected, taps[0]);
      }
      PressAllKeepsCap(next, cap, taps[1..]);
    }
  }

  /** Without a cap, as on the add-moment screen, every press toggles its tag. */
  lemma UncappedAlwaysToggles(selected: seq<string>, tag: string)
    ensures Pressed(selected, None, tag) == Toggle(selected, tag)
    ensures Pressed(selected, Some(0), tag) == Toggle(selected, tag)
  {
  }
}
