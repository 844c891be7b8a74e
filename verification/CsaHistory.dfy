/** The history of the CSA terms the margin runs read (src/warehouse/live_load.py):
    versions per counterparty, the lookup by date, and the dated rows of the dimension. */
module CsaHistory {
  import opened Wrappers
  import opened Calc
  import opened StableSort

  const DAY: int := 86400
  const OPEN_END: int := 3652059 // 9999-12-31, the last date there is

  /** A margin run as the load reads it: when its event occurred, in seconds, and the offset
      from UTC its timestamp was written with. */
  datatype LoadedRun = LoadedRun(cp: string, occurredAt: int, offset: int, terms: Option<CsaTerms>)

  datatype Version = Version(validFrom: int, terms: CsaTerms)

  /** The date in the timestamp's own offset. */
  function DateOf(run: LoadedRun): int {
    (run.occurredAt + run.offset) / DAY
  }

  // ----- the versions ------------------------------------------------------------------------

  function ByTime(runs: seq<LoadedRun>): seq<Keyed<LoadedRun>> {
    seq(|runs|, i requires 0 <= i < |runs| => Keyed(runs[i].occurredAt as real, runs[i]))
  }

  /** A run's contribution to its own counterparty's history. */
  function Extended(history: seq<Version>, run: LoadedRun): seq<Version> {
    if run.terms.None? then history
    else if history == [] || history[|history| - 1].terms != run.terms.value
    then history + [Version(DateOf(run), run.terms.value)]
    else history
  }

  /** A counterparty's history after the runs, taken in this order. */
  function History(runs: seq<Keyed<LoadedRun>>, cp: string): seq<Version> {
    if runs == [] then []
    else
      var before, run := History(runs[..|runs| - 1], cp), runs[|runs| - 1].value;
      if run.cp == cp then Extended(before, run) else before
  }

  method CsaVersions(runs: seq<LoadedRun>) returns (versions: map<string, seq<Version>>)
    ensures forall cp :: cp in versions <==> History(Sort(ByTime(runs)), cp) != []
    ensures forall cp :: cp in versions ==> versions[cp] == History(Sort(ByTime(runs)), cp)
  {
    versions := map[];
    var sorted := Sort(ByTime(runs));
    for i := 0 to |sorted|
      invariant forall cp :: cp in versions <==> History(sorted[..i], cp) != []
      invariant forall cp :: cp in versions ==> versions[cp] == History(sorted[..i], cp)
    {
      assert sorted[..i + 1][..i] == sorted[..i];
      var run := sorted[i].value;
      if run.terms.None? {
        continue;
      }
      var history := if run.cp in versions then versions[run.cp] else [];
      assert history == History(sorted[..i], run.cp);
      if history == [] || history[|history| - 1].terms != run.terms.value {
        history := history + [Version(DateOf(run), run.terms.value)];
      }
      versions := versions[run.cp := history];
    }
    assert sorted[..|sorted|] == sorted;
  }

  predicate NonDecreasing(dates: seq<int>) {
    forall i, j :: 0 <= i < j < |dates| ==> dates[i] <= dates[j]
  }

  /** The dates of the counterparty's runs that had terms, in this order. */
  function Dates(runs: seq<Keyed<LoadedRun>>, cp: string): seq<int> {
    if runs == [] then []
    else
      var before, run := Dates(runs[..|runs| - 1], cp), runs[|runs| - 1].value;
      if run.cp == cp && run.terms.Some? then before + [DateOf(run)] else before
  }

  predicate DatesKept(history: seq<Version>) {
    forall i, j :: 0 <= i < j < |history| ==> history[i].validFrom <= history[j].validFrom
  }

  predicate ConsecutiveDiffer(history: seq<Version>) {
    forall i, j :: 0 <= i < |history| && j == i + 1 && j < |history| ==> history[i].terms != history[j].terms
  }

  /** Consecutive versions differ and their dates never go back. */
  predicate WellFormed(history: seq<Version>) {
    ConsecutiveDiffer(history) && DatesKept(history)
  }

  lemma ExtendedDiffers(history: seq<Version>, run: LoadedRun)
    requires ConsecutiveDiffer(history)
    ensures ConsecutiveDiffer(Extended(history, run))
  {
  }

  /** Consecutive versions differ, whatever the runs. */
  lemma {:induction false} VersionsDiffer(runs: seq<Keyed<LoadedRun>>, cp: string)
    ensures ConsecutiveDiffer(History(runs, cp))
  {
    if runs != [] {
      VersionsDiffer(runs[..|runs| - 1], cp);
      ExtendedDiffers(History(runs[..|runs| - 1], cp), runs[|runs| - 1].value);
    }
  }

  /** While the runs' dates do not go back, nor do the versions'. */
  lemma {:induction false} HistoryDates(runs: seq<Keyed<LoadedRun>>, cp: string)
    requires NonDecreasing(Dates(runs, cp))
    ensures WellFormed(History(runs, cp))
    ensures var history, dates := History(runs, cp), Dates(runs, cp);
      (history != [] <==> dates != [])
      && forall i :: 0 <= i < |history| ==> history[i].validFrom <= dates[|dates| - 1]
  {
    VersionsDiffer(runs, cp);
    if runs != [] {
      var n := |runs| - 1;
      DropDate(runs, cp);
      HistoryDates(runs[..n], cp);
    }
  }

  lemma DropDate(runs: seq<Keyed<LoadedRun>>, cp: string)
    requires runs != [] && NonDecreasing(Dates(runs, cp))
    ensures var before, dates := Dates(runs[..|runs| - 1], cp), Dates(runs, cp);
      NonDecreasing(before) && (before != [] ==> before[|before| - 1] <= dates[|dates| - 1])
  {
    var before, run := Dates(runs[..|runs| - 1], cp), runs[|runs| - 1].value;
    hide DateOf;
    if run.cp == cp && run.terms.Some? {
      NonDecreasingPrefix(before, DateOf(run));
    }
  }

  lemma NonDecreasingPrefix(dates: seq<int>, date: int)
    requires NonDecreasing(dates + [date])
    ensures NonDecreasing(dates) && forall i :: 0 <= i < |dates| ==> dates[i] <= date
  {
    var all := dates + [date];
    assert forall i :: 0 <= i < |dates| ==> all[i] == dates[i];
    assert all[|dates|] == date;
  }

  lemma SortedRuns(runs: seq<LoadedRun>)
    ensures var sorted := Sort(ByTime(runs));
      && Ascending(sorted)
      && forall i :: 0 <= i < |sorted| ==>
        sorted[i].key == sorted[i].value.occurredAt as real && sorted[i].value in runs
  {
    hide Sort;
    var keyed := ByTime(runs);
    var sorted := Sort(keyed);
    SortSpec(keyed, 0.0);
    forall i | 0 <= i < |sorted|
      ensures sorted[i].key == sorted[i].value.occurredAt as real && sorted[i].value in runs
    {
      assert sorted[i] in multiset(sorted) && sorted[i] in multiset(keyed);
      assert sorted[i] in keyed;
    }
  }

  lemma {:induction false} OneOffsetDates(runs: seq<Keyed<LoadedRun>>, cp: string, offset: int)
    requires Ascending(runs)
    requires forall i :: 0 <= i < |runs| ==>
      runs[i].key == runs[i].value.occurredAt as real && runs[i].value.offset == offset
    ensures var dates := Dates(runs, cp);
      && NonDecreasing(dates)
      && forall i :: 0 <= i < |dates| ==> runs != [] && dates[i] <= DateOf(runs[|runs| - 1].value)
  {
    if runs != [] {
      var n := |runs| - 1;
      OneOffsetDates(runs[..n], cp, offset);
      if n > 0 {
        assert runs[n - 1].key <= runs[n].key && runs[..n][n - 1] == runs[n - 1];
        LaterInOneOffset(runs[n - 1].value, runs[n].value);
      }
    }
  }

  lemma LaterInOneOffset(a: LoadedRun, b: LoadedRun)
    requires a.occurredAt <= b.occurredAt && a.offset == b.offset
    ensures DateOf(a) <= DateOf(b)
  {
  }

  /** Timestamps written with one offset, as all of the system's own are in UTC: every
      counterparty's history is well formed. */
  lemma OneOffsetIsWellFormed(runs: seq<LoadedRun>, offset: int, cp: string)
    requires forall i :: 0 <= i < |runs| ==> runs[i].offset == offset
    ensures NonDecreasing(Dates(Sort(ByTime(runs)), cp)) && WellFormed(History(Sort(ByTime(runs)), cp))
  {
    SortedRuns(runs);
    OneOffsetDates(Sort(ByTime(runs)), cp, offset);
    HistoryDates(Sort(ByTime(runs)), cp);
  }

  /** The same runs, whatever terms those that had terms had. */
  ghost predicate SameRuns(runs: seq<Keyed<LoadedRun>>, runs': seq<Keyed<LoadedRun>>) {
    && |runs'| == |runs|
    && forall i :: 0 <= i < |runs| ==>
      runs'[i].value.terms.Some? == runs[i].value.terms.Some?
      && runs'[i].value == runs[i].value.(terms := runs'[i].value.terms)
  }

  lemma {:induction false} SameDates(runs: seq<Keyed<LoadedRun>>, runs': seq<Keyed<LoadedRun>>, cp: string)
    requires SameRuns(runs, runs')
    ensures Dates(runs', cp) == Dates(runs, cp)
  {
    if runs != [] {
      SameDates(runs[..|runs| - 1], runs'[..|runs| - 1], cp);
    }
  }

  /** The runs with terms of their own each: the threshold counts them. */
  function Relabelled(runs: seq<Keyed<LoadedRun>>): seq<Keyed<LoadedRun>> {
    seq(|runs|, i requires 0 <= i < |runs| =>
      if runs[i].value.terms.None? then runs[i]
      else runs[i].(value := runs[i].value.(terms := Some(CsaTerms(i as real, 0.0, "USD", [])))))
  }

  lemma {:induction false} EveryRunIsAVersion(runs: seq<Keyed<LoadedRun>>, cp: string)
    ensures var history, dates := History(Relabelled(runs), cp), Dates(runs, cp);
      && |history| == |dates| && (forall i :: 0 <= i < |dates| ==> history[i].validFrom == dates[i])
      && (history != [] ==> history[|history| - 1].terms.threshold < |runs| as real)
  {
    if runs != [] {
      var n := |runs| - 1;
      EveryRunIsAVersion(runs[..n], cp);
      assert Relabelled(runs)[..n] == Relabelled(runs[..n]);
    }
  }

  /** The versions' dates never go back, whatever terms the runs had, exactly when the dates
      of the counterparty's runs themselves do not, in order of time. */
  lemma DatesKeptExactlyWhenInOrder(runs: seq<Keyed<LoadedRun>>, cp: string)
    ensures (forall runs' | SameRuns(runs, runs') :: DatesKept(History(runs', cp))) <==> NonDecreasing(Dates(runs, cp))
  {
    if NonDecreasing(Dates(runs, cp)) {
      forall runs' | SameRuns(runs, runs') ensures DatesKept(History(runs', cp)) {
        SameDates(runs, runs', cp);
        HistoryDates(runs', cp);
      }
    } else {
      EveryRunIsAVersion(runs, cp);
      assert SameRuns(runs, Relabelled(runs));
      var dates := Dates(runs, cp);
      var i, j :| 0 <= i < j < |dates| && dates[i] > dates[j];
      assert History(Relabelled(runs), cp)[i].validFrom > History(Relabelled(runs), cp)[j].validFrom;
    }
  }

  /** Two runs a second apart, the first written twelve hours ahead of UTC: the dates go back. */
  lemma MixedOffsetsGoBack(cp: string, terms: CsaTerms) returns (runs: seq<LoadedRun>)
    ensures !NonDecreasing(Dates(Sort(ByTime(runs)), cp))
  {
    var a, b := LoadedRun(cp, 50000, 43200, Some(terms)), LoadedRun(cp, 50001, 0, Some(terms));
    runs := [a, b];
    var first, second := Keyed(50000.0, a), Keyed(50001.0, b);
    assert ByTime(runs) == [first, second];
    SortOfPair(first, second);
    assert [first, second][..1] == [first] && [first][..0] == [];
    assert Dates([first], cp) == Dates([], cp) + [DateOf(a)];
    var dates := Dates([first, second], cp);
    assert dates == [1, 0] && dates[0] > dates[1];
  }

  // ----- the lookup --------------------------------------------------------------------------

  /** The number (from 1) of the version in force, 0 without a history; before any
      version, the first. */
  function InForce(history: seq<Version>, asOf: int): (n: nat)
    ensures n <= |history| && (n == 0 <==> history == [])
  {
    if history == [] then 0
    else
      var k := |history| - 1;
      if history[k].validFrom <= asOf || k == 0 then k + 1 else InForce(history[..k], asOf)
  }

  method TermsOn(history: seq<Version>, asOf: int) returns (chosen: Option<(nat, CsaTerms)>)
    ensures chosen == if history == [] then None
                      else Some((InForce(history, asOf), history[InForce(history, asOf) - 1].terms))
  {
    chosen := None;
    for i := 0 to |history|
      invariant chosen == if i == 0 then None
                          else Some((InForce(history[..i], asOf), history[InForce(history[..i], asOf) - 1].terms))
    {
      assert history[..i + 1][..i] == history[..i];
      if history[i].validFrom <= asOf || chosen == None {
        chosen := Some((i + 1, history[i].terms));
      }
    }
    assert history[..|history|] == history;
  }

  /** The terms of the counterparty's last run up to the date that had any. */
  function LastUsed(runs: seq<Keyed<LoadedRun>>, cp: string, asOf: int): Option<CsaTerms> {
    if runs == [] then None
    else
      var run := runs[|runs| - 1].value;
      if run.cp == cp && run.terms.Some? && DateOf(run) <= asOf then run.terms
      else LastUsed(runs[..|runs| - 1], cp, asOf)
  }

  /** The lookup answers with the terms the counterparty's last run up to that date used,
      whenever there was one - also when the terms changed twice in a day or went back to
      earlier ones - as long as the runs' dates do not go back. */
  lemma LookupIsLastUsed(runs: seq<LoadedRun>, cp: string, asOf: int)
    requires NonDecreasing(Dates(Sort(ByTime(runs)), cp)) && LastUsed(Sort(ByTime(runs)), cp, asOf).Some?
    ensures var history := History(Sort(ByTime(runs)), cp);
      && WellFormed(history) && history != [] && history[0].validFrom <= asOf
      && LastUsed(Sort(ByTime(runs)), cp, asOf) == Some(history[InForce(history, asOf) - 1].terms)
  {
    HistoryDates(Sort(ByTime(runs)), cp);
    InForceIsLastUsed(Sort(ByTime(runs)), cp, asOf);
  }

  lemma {:induction false} InForceIsLastUsed(runs: seq<Keyed<LoadedRun>>, cp: string, asOf: int)
    requires NonDecreasing(Dates(runs, cp))
    ensures var history, used := History(runs, cp), LastUsed(runs, cp, asOf);
      && (used.Some? <==> history != [] && history[0].validFrom <= asOf)
      && (used.Some? ==> used == Some(history[InForce(history, asOf) - 1].terms))
  {
    hide DateOf, NonDecreasing, WellFormed;
    if runs != [] {
      var n := |runs| - 1;
      var run := runs[n].value;
      DropDate(runs, cp);
      InForceIsLastUsed(runs[..n], cp, asOf);
      if run.cp == cp && run.terms.Some? {
        HistoryDates(runs[..n], cp);
        ExtendedInForce(History(runs[..n], cp), run, asOf);
      }
    }
  }

  /** One more run with terms: it decides from its own date on, and nothing before. */
  lemma ExtendedInForce(history: seq<Version>, run: LoadedRun, asOf: int)
    requires run.terms.Some? && forall i :: 0 <= i < |history| ==> history[i].validFrom <= DateOf(run)
    ensures var after := Extended(history, run);
      && after != [] && (DateOf(run) <= asOf ==> after[0].validFrom <= asOf)
      && (DateOf(run) <= asOf ==> after[InForce(after, asOf) - 1].terms == run.terms.value)
      && (DateOf(run) > asOf && history != [] ==>
            after[0] == history[0] && after[InForce(after, asOf) - 1] == history[InForce(history, asOf) - 1])
      && (DateOf(run) > asOf && history == [] ==> after[0].validFrom > asOf)
  {
    hide DateOf;
    var after := Extended(history, run);
    if after != history {
      assert after[..|history|] == history;
    } else if DateOf(run) <= asOf {
      LastInForce(history, asOf);
    }
  }

  lemma LastInForce(history: seq<Version>, asOf: int)
    requires history != [] && history[|history| - 1].validFrom <= asOf
    ensures InForce(history, asOf) == |history|
  {
  }

  // ----- the dimension rows --------------------------------------------------------------------

  /** One slowly-changing-dimension row, valid from and to inclusive dates. */
  datatype Row = Row(number: nat, validFrom: int, validTo: int, isCurrent: bool, terms: CsaTerms)

  function RowOf(history: seq<Version>, i: nat): Row
    requires i < |history|
  {
    var last := i + 1 == |history|;
    Row(i + 1, history[i].validFrom, if last then OPEN_END else history[i + 1].validFrom - 1, last, history[i].terms)
  }

  method DimensionRows(history: seq<Version>) returns (rows: seq<Row>)
    ensures |rows| == |history| && forall i :: 0 <= i < |rows| ==> rows[i] == RowOf(history, i)
  {
    rows := [];
    for i := 0 to |history|
      invariant |rows| == i && forall j :: 0 <= j < i ==> rows[j] == RowOf(history, j)
    {
      var isCurrent := i + 1 == |history|;
      var validTo := if isCurrent then OPEN_END else history[i + 1].validFrom - 1;
      rows := rows + [Row(i + 1, history[i].validFrom, validTo, isCurrent, history[i].terms)];
    }
  }

  predicate Covers(row: Row, date: int) {
    row.validFrom <= date <= row.validTo
  }

  lemma {:induction false} InForceBounds(history: seq<Version>, asOf: int)
    requires WellFormed(history) && history != []
    ensures var n := InForce(history, asOf);
      && (n == 1 || history[n - 1].validFrom <= asOf)
      && forall j :: n <= j < |history| ==> history[j].validFrom > asOf
  {
    var k := |history| - 1;
    if !(history[k].validFrom <= asOf || k == 0) {
      InForceBounds(history[..k], asOf);
      assert forall j :: 0 <= j < k ==> history[..k][j] == history[j];
    }
  }

  /** For any date on or after the first version, exactly one row covers it: the one of
      the version the lookup returns. Versions replaced on the day they began have rows
      that cover no date, and before the first version no row covers a date although the
      lookup answers with version 1. */
  lemma ExactlyOneRowCovers(history: seq<Version>, date: int, i: nat)
    requires WellFormed(history) && i < |history| && date <= OPEN_END
    ensures Covers(RowOf(history, i), date) <==> date >= history[0].validFrom && i + 1 == InForce(history, date)
    ensures date < history[0].validFrom ==> InForce(history, date) == 1
  {
    InForceBounds(history, date);
    var n := InForce(history, date);
    assert n >= 1;
    assert n > 1 ==> history[0].validFrom <= history[n - 1].validFrom;
    if i + 1 < n {
      assert i + 1 < n - 1 ==> history[i + 1].validFrom <= history[n - 1].validFrom;
    }
    if i >= n {
      assert history[i].validFrom > date;
    }
    assert i > 0 ==> history[0].validFrom <= history[i].validFrom;
  }
}
