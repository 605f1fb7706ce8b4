/** The five-star rating widget: which value a press reports and which stars
    are drawn filled for a value. */
module Rating {
  const StarCount: nat := 5

  /** The star numbers rendered, left to right. */
  function Stars(): (s: seq<int>)
    ensures |s| == StarCount
    ensures forall i :: 0 <= i < |s| ==> s[i] == i + 1
  {
    [1, 2, 3, 4, 5]
  }

  /** The value reported to `onChange` when the star at `index` is pressed:
      the number of that star. */
  function PressValue(index: nat): (value: int)
    requires index < StarCount
    ensures value == Stars()[index]
    ensures 1 <= value <= StarCount
  {
    index + 1
  }

  /** A star is drawn filled when its number does not exceed the value. */
  predicate IsFilled(star: int, value: int)
  {
    star <= value
  }

  /** How many of `stars` are drawn filled for `value`. */
  function FilledCount(stars: seq<int>, value: int): nat
  {
    if stars == [] then 0
    else FilledCount(stars[..|stars| - 1], value) + (if IsFilled(stars[|stars| - 1], value) then 1 else 0)
  }

  function Clamp(v: int, lo: int, hi: int): int
    requires lo <= hi
  {
    if v < lo then lo else if v > hi then hi else v
  }

  /** Over the stars 1..n, exactly min(max(value, 0), n) are filled. */
  lemma {:induction false} FilledCountOfConsecutive(stars: seq<int>, value: int)
    requires forall i :: 0 <= i < |stars| ==> stars[i] == i + 1
    ensures FilledCount(stars, value) == Clamp(value, 0, |stars|)
  {
    if stars != [] {
      FilledCountOfConsecutive(stars[..|stars| - 1], value);
    }
  }

  /** For an integer value the widget fills min(max(value, 0), 5) stars:
      none for 0, all five for 5 or more. */
  lemma FilledStars(value: int)
    ensures FilledCount(Stars(), value) == Clamp(value, 0, StarCount)
  {
    FilledCountOfConsecutive(Stars(), value);
  }

  /** Pressing the star at `index` fills exactly the stars up to and including
      it, so the widget shows back the value it reported. */
  lemma PressShowsPressed(index: nat)
    requires index < StarCount
    ensures FilledCount(Stars(), PressValue(index)) == index + 1
    ensures forall k :: 0 <= k < StarCount ==> (IsFilled(Stars()[k], PressValue(index)) <==> k <= index)
  {
    FilledStars(PressValue(index));
  }
}
