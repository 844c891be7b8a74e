/** The shared tables a trigger, an endpoint or a webhook works on: the rows of
    `processed_events` (primary key: their id) and the checkpointed runs. */
module Store {
  import opened Wrappers
  import opened MarginRun
  import opened MarginPolicy

  datatype RowId =
    | Lease(cp: string)
    | RunClaim(key: Key)
    | WaStatus(id: string, status: string)
    | WaMessage(id: string)

  /** A snapshot of both tables; a row carries the clock value it was written with. */
  datatype Tables = Tables(rows: map<RowId, int>, runs: map<Key, Run>)

  /** What every operation keeps: each run is sound, a counterparty has at most one open
      call, and nobody has signed a run that is not claimed. */
  ghost predicate TablesOk(s: Tables) {
    && (forall k | k in s.runs :: RunOk(s.runs[k]) && ':' !in k.cp)
    && (forall cp :: AtMostOneOpen(s.runs, cp))
    && (forall k | RunClaim(k) !in s.rows :: Unsigned(Lookup(s.runs, k)))
  }

  class Database {
    var rows: map<RowId, int>
    var runs: map<Key, Run>

    constructor ()
      ensures Now() == Tables(map[], map[])
    {
      rows, runs := map[], map[];
    }

    function Now(): Tables
      reads this
    {
      Tables(rows, runs)
    }

    /** An insert fails on a duplicate key and changes nothing. */
    method Insert(row: RowId, at: int) returns (inserted: bool)
      modifies this`rows
      ensures inserted == (row !in old(rows))
      ensures rows == if inserted then old(rows)[row := at] else old(rows)
    {
      inserted := row !in rows;
      if inserted {
        rows := rows[row := at];
      }
    }

    method Delete(row: RowId)
      modifies this`rows
      ensures rows == old(rows) - {row}
    {
      rows := rows - {row};
    }
  }

  // ----- replacing one run -----------------------------------------------------------

  /** The tables with one claimed open run replaced by a sound one are still in order. */
  lemma ReplacingOpenRunKeepsOk(s: Tables, k: Key, r': Run)
    requires TablesOk(s) && k in s.runs && Open(s.runs[k]) && RunClaim(k) in s.rows && RunOk(r')
    ensures TablesOk(s.(runs := s.runs[k := r']))
  {
    hide RunOk, Open;
    var s' := s.(runs := s.runs[k := r']);
    forall cp ensures AtMostOneOpen(s'.runs, cp) {
      assert AtMostOneOpen(s.runs, cp);
      forall k1, k2 | OpenAt(s'.runs, k1, cp) && OpenAt(s'.runs, k2, cp) ensures k1 == k2 {
        assert OpenAt(s.runs, k1, cp) && OpenAt(s.runs, k2, cp);
      }
    }
    forall k' | RunClaim(k') !in s'.rows ensures Unsigned(Lookup(s'.runs, k')) {
      assert k' != k && Lookup(s'.runs, k') == Lookup(s.runs, k');
    }
  }

  lemma SignedRunIsClaimed(s: Tables, k: Key)
    requires TablesOk(s) && k in s.runs && s.runs[k].values.approval.Some?
    ensures RunClaim(k) in s.rows
  {
    hide RunOk;
    assert RunClaim(k) !in s.rows ==> Unsigned(Lookup(s.runs, k));
  }

  /** A signed run without a claim is exactly what the tables must not hold: a redelivered
      trigger would start it again. */
  lemma SigningUnclaimedBreaksOk(s: Tables, k: Key, r': Run)
    requires RunClaim(k) !in s.rows && r'.values.approval.Some?
    ensures !TablesOk(s.(runs := s.runs[k := r']))
  {
    hide RunOk;
    var s' := s.(runs := s.runs[k := r']);
    assert !Unsigned(Lookup(s'.runs, k));
  }
}
