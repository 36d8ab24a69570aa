/**
 * The four dirty levels of a tracker (src/system.ts, `DirtyLevels`), a
 * `const enum` whose numeric values 0..3 give the total order that
 * `trigger` compares with `<`.
 */
module DirtyLevels {

  datatype DirtyLevel = NotDirty | ComputedValueMaybeDirty | ComputedValueDirty | Dirty

  /** The numeric value the enum member stands for. */
  function Rank(l: DirtyLevel): (n: nat)
    ensures n <= 3
    ensures n == 0 <==> l == NotDirty
    ensures n == 3 <==> l == Dirty
  {
    match l
    case NotDirty => 0
    case ComputedValueMaybeDirty => 1
    case ComputedValueDirty => 2
    case Dirty => 3
  }

  /** The enum member with numeric value `n`. */
  function FromRank(n: nat): (l: DirtyLevel)
    requires n <= 3
    ensures Rank(l) == n
  {
    if n == 0 then NotDirty
    else if n == 1 then ComputedValueMaybeDirty
    else if n == 2 then ComputedValueDirty
    else Dirty
  }

  /** `a < b` on the enum's numeric values. */
  predicate Below(a: DirtyLevel, b: DirtyLevel)
  {
    Rank(a) < Rank(b)
  }

  /** `a <= b` on the enum's numeric values. */
  predicate AtMost(a: DirtyLevel, b: DirtyLevel)
  {
    Rank(a) <= Rank(b)
  }

  /** The numeric values identify the members: the enum is a chain of four. */
  lemma RankRoundTrip(l: DirtyLevel)
    ensures FromRank(Rank(l)) == l
  {
  }

  /** `AtMost` is a total order on the four levels. */
  lemma AtMostIsTotalOrder(a: DirtyLevel, b: DirtyLevel, c: DirtyLevel)
    ensures AtMost(a, a)
    ensures AtMost(a, b) && AtMost(b, a) ==> a == b
    ensures AtMost(a, b) && AtMost(b, c) ==> AtMost(a, c)
    ensures AtMost(a, b) || AtMost(b, a)
    ensures Below(a, b) <==> !AtMost(b, a)
  {
    RankRoundTrip(a);
    RankRoundTrip(b);
  }
}
