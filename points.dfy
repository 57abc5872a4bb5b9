/**
 * The point tables the scripts attach to a multiple-choice question number.
 * Three spellings of the same 1–8 / 9–28 / 29–36 table appear; they differ
 * only outside 1..36.
 */
module Points {
  /** The `let points = 1; if (9..28) points = 2; if (29..36) points = 3` chain. */
  function TablePoints(n: nat): (p: nat)
    ensures 1 <= p <= 3
  {
    if 9 <= n <= 28 then 2 else if 29 <= n <= 36 then 3 else 1
  }

  /** `determinePoints`: 1 up to 8, 2 up to 28, 3 up to 36, and 2 above. */
  function DeterminePoints(n: nat): (p: nat)
    ensures 1 <= p <= 3
    ensures n > 36 ==> p == 2
  {
    if n <= 8 then 1 else if n <= 28 then 2 else if n <= 36 then 3 else 2
  }

  /** The conditional chain used for split pieces: 1 up to 8, 2 up to 28, 3 above. */
  function SplitPoints(n: nat): (p: nat)
    ensures 1 <= p <= 3
  {
    if n <= 8 then 1 else if n <= 28 then 2 else 3
  }

  /** On the question numbers 1..36 the three tables agree. */
  lemma TablesAgree(n: nat)
    requires 1 <= n <= 36
    ensures TablePoints(n) == DeterminePoints(n) == SplitPoints(n)
    ensures TablePoints(n) == (if n <= 8 then 1 else if n <= 28 then 2 else 3)
  {
  }

  /** A later question never scores less, within 1..36. */
  lemma PointsNonDecreasing(a: nat, b: nat)
    requires 1 <= a <= b <= 36
    ensures DeterminePoints(a) <= DeterminePoints(b)
    ensures TablePoints(a) <= TablePoints(b)
  {
  }

  /** Above 36 the tables part ways: `determinePoints` drops back to 2. */
  lemma TablesDifferAbove36(n: nat)
    requires n > 36
    ensures TablePoints(n) == 1 && DeterminePoints(n) == 2 && SplitPoints(n) == 3
  {
  }
}
