/** Requests and violations counted together. */
module Tallies {
  /** How many requests, and how many of them violated. */
  datatype Tally = Tally(admitted: nat, violated: nat)

  const NOTHING := Tally(0, 0)

  /** The confidence of the Wilson bound wherever counts are judged. */
  const Z := 1.28

  /** A dictionary's entry, nothing when it has none. */
  function At(counts: map<int, Tally>, b: int): Tally { if b in counts then counts[b] else NOTHING }

  function Joined(a: Tally, b: Tally): Tally { Tally(a.admitted + b.admitted, a.violated + b.violated) }

  function Counted(c: Tally, violated: bool): Tally { Tally(c.admitted + 1, c.violated + if violated then 1 else 0) }

  ghost predicate TallyOk(c: Tally) { c.violated <= c.admitted }

  function Pool(cells: seq<Tally>): Tally {
    if cells == [] then Tally(0, 0) else Joined(Pool(cells[..|cells| - 1]), cells[|cells| - 1])
  }

  lemma {:induction false} PoolOk(cells: seq<Tally>)
    requires forall i :: 0 <= i < |cells| ==> TallyOk(cells[i])
    ensures TallyOk(Pool(cells))
  {
    if cells != [] { PoolOk(cells[..|cells| - 1]); }
  }

  lemma PoolAppend(cells: seq<Tally>, c: Tally)
    ensures Pool(cells + [c]) == Joined(Pool(cells), c)
  {
    assert (cells + [c])[..|cells|] == cells;
  }
}
