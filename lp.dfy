/** The semantic content of a pulp constraint: a linear expression as a map
    from variables to coefficients, a relation and a right-hand side. */
module Lp {

  datatype Relation = Le | Ge | Eq

  datatype Row<V> = Row(lhs: map<V, int>, rel: Relation, rhs: int)

  /** `lpSum` of a collection in which each variable occurs once. */
  function SumOf<V>(vs: set<V>): map<V, int> {
    map v | v in vs :: 1
  }

  /** `lpSum(pos) - lpSum(neg)`; a variable in both keeps coefficient 0, as pulp does. */
  function Difference<V>(pos: set<V>, neg: set<V>): map<V, int> {
    map v | v in pos + neg :: (if v in pos then 1 else 0) - (if v in neg then 1 else 0)
  }

  /** Rows keyed by (vertex, commodity), built vertex by vertex: every row of
      the vertices in `xs`, and the rows of vertex `y` for the commodities
      below `k`; a row exists where `present` holds and is `row` there. */
  function Keyed<V>(xs: set<int>, y: int, k: int, lo: int, hi: int,
                    present: (int, int) -> bool, row: (int, int) -> V): map<(int, int), V>
  {
    map x, c | x in xs + {y} && (x in xs || c < k) && lo <= c < hi && present(x, c) :: (x, c) := row(x, c)
  }

  /** One more commodity of vertex `y`: its row is added if present. */
  lemma KeyedStep<V>(xs: set<int>, y: int, k: int, lo: int, hi: int,
                     present: (int, int) -> bool, row: (int, int) -> V, here: bool, v: V)
    requires y !in xs && lo <= k < hi && here == present(y, k) && v == row(y, k)
    ensures Keyed(xs, y, k + 1, lo, hi, present, row)
            == if here then Keyed(xs, y, k, lo, hi, present, row)[(y, k) := v] else Keyed(xs, y, k, lo, hi, present, row)
  {
  }

  /** Before the first commodity of the extra vertex, which vertex it is does not matter. */
  lemma KeyedSwitch<V>(xs: set<int>, y: int, z: int, k: int, k': int, lo: int, hi: int,
                       present: (int, int) -> bool, row: (int, int) -> V)
    requires k <= lo && k' <= lo
    ensures Keyed(xs, y, k, lo, hi, present, row) == Keyed(xs, z, k', lo, hi, present, row)
  {
  }

  /** Past the last commodity, the extra vertex is one of the finished vertices. */
  lemma KeyedFinish<V>(xs: set<int>, y: int, k: int, k': int, lo: int, hi: int,
                       present: (int, int) -> bool, row: (int, int) -> V)
    requires k >= hi && k' <= lo
    ensures Keyed(xs, y, k, lo, hi, present, row) == Keyed(xs + {y}, y, k', lo, hi, present, row)
  {
  }
}
