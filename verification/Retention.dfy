/** Pruning of check results by stored start time. */
module Retention {
  import opened Common
  import opened StoredTime
  import opened Text

  datatype Row = Row(id: Id, startedAt: Instant)

  /** The rows that DELETE ... WHERE started_at < cutoff leaves. */
  function Stays(cutoff: Instant): Row -> bool {
    (r: Row) => !TextLess(Format(r.startedAt), Format(cutoff))
  }

  class CheckResults {
    var rows: seq<Row>

    constructor ()
      ensures rows == []
    {
      rows := [];
    }

    method Insert(r: Row)
      modifies this
      ensures rows == old(rows) + [r]
    {
      rows := rows + [r];
    }

    method PruneOlderThan(cutoff: Instant) returns (removed: int)
      modifies this
      ensures rows == Filter(old(rows), Stays(cutoff))
      ensures forall r :: r in rows <==> r in old(rows) && !TextLess(Format(r.startedAt), Format(cutoff))
      ensures removed == |old(rows)| - |rows|
    {
      FilterHas(rows, Stays(cutoff));
      var kept := Filter(rows, Stays(cutoff));
      removed := |rows| - |kept|;
      rows := kept;
    }
  }

  /** A row of an earlier second than the cutoff is always removed and one of a later second never; in the
      cutoff's own second the removal is right exactly when neither trimmed fraction extends the other. */
  lemma PruneExactly(rows: seq<Row>, cutoff: Instant, r: Row)
    requires r in rows && Valid(r.startedAt) && Valid(cutoff)
    ensures var kept := Filter(rows, Stays(cutoff));
      && (Seconds(r.startedAt) < Seconds(cutoff) ==> r !in kept)
      && (Seconds(r.startedAt) > Seconds(cutoff) ==> r in kept)
      && ((r !in kept <==> Before(r.startedAt, cutoff)) <==>
            !(Seconds(r.startedAt) == Seconds(cutoff)
              && (Fraction(r.startedAt) < Fraction(cutoff) || Fraction(cutoff) < Fraction(r.startedAt))))
  {
    FilterHas(rows, Stays(cutoff));
    TextOrderExactly(r.startedAt, cutoff);
  }

  /** A row that starts after a cutoff on the whole second, but within that second, is pruned all the same. */
  lemma PrunedTooEarly(rows: seq<Row>, cutoff: Instant, r: Row)
    requires r in rows && Valid(r.startedAt) && Valid(cutoff)
    requires Seconds(r.startedAt) == Seconds(cutoff) && cutoff.nanos == 0 < r.startedAt.nanos
    ensures Before(cutoff, r.startedAt) && r !in Filter(rows, Stays(cutoff))
  {
    WholeSecondSortsLast(cutoff, r.startedAt);
    FilterHas(rows, Stays(cutoff));
  }
}
