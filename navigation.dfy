/**
 * The slide index as the gallery's two click handlers change it, on values:
 * one function per handler, the outcome of a sequence of clicks, and the
 * clamping and reversibility properties. The Gallery class is proved against
 * these functions.
 */
module Navigation {

  /** What a handler did: refused (it returned `false`) or moved to a new index. */
  datatype Move = Refused | MovedTo(index: int)

  /** A click on the left or the right navigation control. */
  datatype Click = LeftClick | RightClick

  /** The highest index a gallery of `total` slides can show (0 when it has none). */
  function LastIndex(total: nat): nat {
    if total == 0 then 0 else total - 1
  }

  predicate InRange(index: int, total: nat) {
    0 <= index <= LastIndex(total)
  }

  /** moveLeft: refuses at slide 0, otherwise steps back one slide. */
  function Left(current: int): Move {
    if current == 0 then Refused else MovedTo(current - 1)
  }

  /** moveRight: refuses once the index reaches totalSlides - 1, otherwise steps on one slide. */
  function Right(current: int, total: nat): Move {
    if current >= total - 1 then Refused else MovedTo(current + 1)
  }

  function IndexAfter(current: int, m: Move): int {
    match m
    case Refused => current
    case MovedTo(i) => i
  }

  function Step(current: int, total: nat, c: Click): Move {
    match c
    case LeftClick => Left(current)
    case RightClick => Right(current, total)
  }

  /** The index after handling `clicks` in order, starting at `current`. */
  function Run(current: int, total: nat, clicks: seq<Click>): int
    decreases |clicks|
  {
    if clicks == [] then current
    else Run(IndexAfter(current, Step(current, total, clicks[0])), total, clicks[1..])
  }

  /** `k` clicks on the same control. */
  function Repeat(c: Click, k: nat): (r: seq<Click>)
    ensures |r| == k
    ensures forall i :: 0 <= i < k ==> r[i] == c
  {
    if k == 0 then [] else [c] + Repeat(c, k - 1)
  }

  /**
   * One click from a valid index: it is refused exactly at the matching
   * boundary, otherwise it moves by exactly one slide in its direction, and
   * the index stays valid either way.
   */
  lemma StepClamps(current: int, total: nat, c: Click)
    requires InRange(current, total)
    ensures Step(current, total, c).Refused? <==>
      (c == LeftClick && current == 0) || (c == RightClick && current == LastIndex(total))
    ensures c == LeftClick && Step(current, total, c).MovedTo? ==> Step(current, total, c).index == current - 1
    ensures c == RightClick && Step(current, total, c).MovedTo? ==> Step(current, total, c).index == current + 1
    ensures InRange(IndexAfter(current, Step(current, total, c)), total)
  {
  }

  /** Boundary clamping holds under any sequence of clicks. */
  lemma {:induction false} RunStaysInRange(current: int, total: nat, clicks: seq<Click>)
    requires InRange(current, total)
    ensures InRange(Run(current, total, clicks), total)
    decreases |clicks|
  {
    if clicks != [] {
      StepClamps(current, total, clicks[0]);
      RunStaysInRange(IndexAfter(current, Step(current, total, clicks[0])), total, clicks[1..]);
    }
  }

  /** Each click moves at most one slide. */
  lemma {:induction false} RunDistance(current: int, total: nat, clicks: seq<Click>)
    ensures current - |clicks| <= Run(current, total, clicks) <= current + |clicks|
    decreases |clicks|
  {
    if clicks != [] {
      RunDistance(IndexAfter(current, Step(current, total, clicks[0])), total, clicks[1..]);
    }
  }

  /** A gallery with at most one slide never leaves slide 0. */
  lemma SingleSlideNeverMoves(total: nat, clicks: seq<Click>)
    requires total <= 1
    ensures Run(0, total, clicks) == 0
  {
    RunStaysInRange(0, total, clicks);
  }

  /** Clicking right k times from a valid index stops at the last slide. */
  lemma {:induction false} RightClicksReachEnd(current: int, total: nat, k: nat)
    requires InRange(current, total)
    ensures Run(current, total, Repeat(RightClick, k)) == if current + k <= LastIndex(total) then current + k else LastIndex(total)
    decreases k
  {
    if k > 0 {
      var next := IndexAfter(current, Right(current, total));
      assert Repeat(RightClick, k)[1..] == Repeat(RightClick, k - 1);
      RightClicksReachEnd(next, total, k - 1);
    }
  }

  /** Clicking left k times from a valid index stops at slide 0. */
  lemma {:induction false} LeftClicksReachStart(current: int, total: nat, k: nat)
    requires InRange(current, total)
    ensures Run(current, total, Repeat(LeftClick, k)) == if current - k >= 0 then current - k else 0
    decreases k
  {
    if k > 0 {
      var next := IndexAfter(current, Left(current));
      assert Repeat(LeftClick, k)[1..] == Repeat(LeftClick, k - 1);
      LeftClicksReachStart(next, total, k - 1);
    }
  }

  /** A left move that is not refused is undone by a right move. */
  lemma LeftThenRight(current: int, total: nat)
    requires InRange(current, total) && current != 0
    ensures Run(current, total, [LeftClick, RightClick]) == current
  {
    assert [LeftClick, RightClick][1..] == [RightClick];
    assert [RightClick][1..] == [];
  }

  /** A right move that is not refused is undone by a left move. */
  lemma RightThenLeft(current: int, total: nat)
    requires InRange(current, total) && current != LastIndex(total)
    ensures Run(current, total, [RightClick, LeftClick]) == current
  {
    assert [RightClick, LeftClick][1..] == [LeftClick];
    assert [LeftClick][1..] == [];
  }
}
