/**
 * `StarRating`: five stars showing a rating; pressing star k reports k to
 * the parent unless the widget is read-only or has no change handler.
 */
module StarRating {
  import opened Wrappers
  import opened Schema

  /** The stars drawn, `[1, 2, 3, 4, 5]`. */
  const STARS: seq<int> := [1, 2, 3, 4, 5]

  /** `handlePress`: the rating passed to `onChange`, or `None` when nothing is called. */
  function HandlePress(star: int, readonly: bool, hasOnChange: bool): (r: Option<int>)
    ensures r.Some? <==> !readonly && hasOnChange
    ensures r.Some? ==> r.value == star
  {
    if !readonly && hasOnChange then Some(star) else None
  }

  /** Every rating a press on one of the stars can report is between 1 and 5, hence passes the table's CHECK. */
  lemma EmittedInRange(i: int, readonly: bool, hasOnChange: bool)
    requires 0 <= i < |STARS|
    ensures HandlePress(STARS[i], readonly, hasOnChange).Some? ==>
              && 1 <= HandlePress(STARS[i], readonly, hasOnChange).value <= 5
              && RatingInRange(HandlePress(STARS[i], readonly, hasOnChange).value)
  {
  }

  /** Star `star` is drawn filled (`'star'`) rather than outlined. */
  predicate IsFilled(star: int, value: int) {
    star <= value
  }

  /** The filled flag of each star, in drawing order. */
  function Filled(value: int): (r: seq<bool>)
    ensures |r| == |STARS|
    ensures forall i :: 0 <= i < |r| ==> (r[i] <==> i < value)
  {
    seq(|STARS|, i requires 0 <= i < |STARS| => IsFilled(STARS[i], value))
  }

  function CountFilled(flags: seq<bool>): (n: nat)
    ensures n <= |flags|
  {
    if flags == [] then 0 else (if flags[|flags| - 1] then 1 else 0) + CountFilled(flags[..|flags| - 1])
  }

  /** The filled stars form a prefix: a value in 0..5 fills exactly that many, 0 fills none. */
  lemma FilledCount(value: int)
    requires 0 <= value <= |STARS|
    ensures CountFilled(Filled(value)) == value
  {
    PrefixCount(Filled(value), value);
  }

  lemma {:induction false} PrefixCount(flags: seq<bool>, k: int)
    requires 0 <= k <= |flags|
    requires forall i :: 0 <= i < |flags| ==> (flags[i] <==> i < k)
    ensures CountFilled(flags) == k
    decreases |flags|
  {
    if flags != [] {
      var init := flags[..|flags| - 1];
      if k == |flags| {
        PrefixCount(init, k - 1);
      } else {
        PrefixCount(init, k);
      }
    }
  }

  /** Values outside 1..5 draw all stars alike: none filled at or below 0, all filled from 5. */
  lemma FilledBounds(value: int)
    ensures value <= 0 ==> forall i :: 0 <= i < |STARS| ==> !Filled(value)[i]
    ensures value >= 5 ==> forall i :: 0 <= i < |STARS| ==> Filled(value)[i]
  {
  }
}
