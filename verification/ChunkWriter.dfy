/** Streaming the simulated days into one file per requested chunk
    (src/warehouse/backfill.py, write_chunks). */
module ChunkWriter {
  import opened Wrappers
  import opened StableSort
  import opened Chunks
  import opened Ledger

  /** One chunk's closed files: the days whose rows were written to them, in order. */
  datatype ChunkFiles = ChunkFiles(chunk: Chunk, days: seq<Day>)

  datatype BookDateError = EmptyRange(chunk: Chunk) | OutsideWindow(chunk: Chunk)

  // ----- what is asked for -----------------------------------------------------------

  function ByStart(chunks: seq<Chunk>): seq<Keyed<Chunk>> {
    seq(|chunks|, i requires 0 <= i < |chunks| => Keyed(chunks[i].start as real, chunks[i]))
  }

  function Unkeyed(xs: seq<Keyed<Chunk>>): seq<Chunk> {
    seq(|xs|, i requires 0 <= i < |xs| => xs[i].value)
  }

  /** The requested chunks in the order they are written. */
  function Wanted(chunks: seq<Chunk>): seq<Chunk> {
    Unkeyed(Sort(ByStart(chunks)))
  }

  predicate SortedByStart(wanted: seq<Chunk>) {
    forall i, j :: 0 <= i < j < |wanted| ==> wanted[i].start <= wanted[j].start
  }

  lemma WantedIsSorted(chunks: seq<Chunk>)
    ensures SortedByStart(Wanted(chunks))
    ensures forall c :: c in Wanted(chunks) <==> c in chunks
  {
    hide Sort;
    var keyed := ByStart(chunks);
    var sorted := Sort(keyed);
    SortSpec(keyed, 0.0);
    SameMembers(sorted, keyed);
    forall i, j | 0 <= i < j < |sorted| ensures sorted[i].value.start <= sorted[j].value.start {
      assert sorted[i] in keyed && sorted[j] in keyed && sorted[i].key <= sorted[j].key;
    }
    forall c | c in chunks ensures c in Wanted(chunks) {
      var i :| 0 <= i < |chunks| && chunks[i] == c;
      assert keyed[i] in sorted;
      var j :| 0 <= j < |sorted| && sorted[j] == keyed[i];
      assert Wanted(chunks)[j] == c;
    }
    forall c | c in Wanted(chunks) ensures c in chunks {
      var j :| 0 <= j < |sorted| && Wanted(chunks)[j] == c;
      assert sorted[j] in keyed;
    }
  }

  lemma SameMembers(xs: seq<Keyed<Chunk>>, ys: seq<Keyed<Chunk>>)
    requires multiset(xs) == multiset(ys)
    ensures forall x :: x in xs <==> x in ys
  {
    assert forall x :: x in xs <==> x in multiset(xs);
    assert forall x :: x in ys <==> x in multiset(ys);
  }

  function BadDates(c: Chunk, from: int, to: int): Option<BookDateError> {
    if c.start > c.end then Some(EmptyRange(c))
    else if !(from <= c.start && c.end <= to) then Some(OutsideWindow(c))
    else None
  }

  // ----- what belongs where ------------------------------------------------------------

  predicate Holds(c: Chunk, d: Day) {
    c.start <= d.asOf <= c.end
  }

  function DaysIn(days: seq<Day>, c: Chunk): seq<Day> {
    if days == [] then []
    else
      var rest, last := days[..|days| - 1], days[|days| - 1];
      DaysIn(rest, c) + (if Holds(c, last) then [last] else [])
  }

  /** One file per wanted chunk holding a day, with exactly its days. */
  function Complete(wanted: seq<Chunk>, n: nat, days: seq<Day>): seq<ChunkFiles>
    requires n <= |wanted|
  {
    if n == 0 then []
    else Complete(wanted, n - 1, days) + Whole(wanted[n - 1], days)
  }

  function Whole(c: Chunk, days: seq<Day>): seq<ChunkFiles> {
    if DaysIn(days, c) == [] then [] else [ChunkFiles(c, DaysIn(days, c))]
  }

  /** The writer's cursor is at chunk `k` on day `d`: every earlier chunk ended before. */
  predicate AtChunk(wanted: seq<Chunk>, k: nat, d: Day)
    requires k < |wanted|
  {
    Holds(wanted[k], d) && forall j :: 0 <= j < k ==> wanted[j].end < d.asOf
  }

  function Given(wanted: seq<Chunk>, k: nat, days: seq<Day>): seq<Day>
    requires k < |wanted|
  {
    if days == [] then []
    else
      var rest, last := days[..|days| - 1], days[|days| - 1];
      Given(wanted, k, rest) + (if AtChunk(wanted, k, last) then [last] else [])
  }

  /** What the writer yields for the first `n` wanted chunks. */
  function Written(wanted: seq<Chunk>, n: nat, days: seq<Day>): seq<ChunkFiles>
    requires n <= |wanted|
  {
    if n == 0 then []
    else
      Written(wanted, n - 1, days) + Part(wanted, n - 1, days)
  }

  /** The files of one chunk, if it was given any day. */
  function Part(wanted: seq<Chunk>, k: nat, days: seq<Day>): seq<ChunkFiles>
    requires k < |wanted|
  {
    if Given(wanted, k, days) == [] then [] else [ChunkFiles(wanted[k], Given(wanted, k, days))]
  }

  ghost predicate InDateOrder(days: seq<Day>) {
    forall i, j :: 0 <= i < j < |days| ==> days[i].asOf <= days[j].asOf
  }

  /** The days the simulation records are in date order. */
  lemma RecordedDaysAscend(b: Book, t0: nat, days: seq<Day>)
    requires b.Valid() && Priced(b, t0, |days|)
    requires forall k :: 0 <= k < |days| ==> RecordsDay(b, t0, k, days[k])
    ensures InDateOrder(days)
  {
    hide MarketOn;
    forall i, j | 0 <= i < j < |days| ensures days[i].asOf <= days[j].asOf {
      assert RecordsDay(b, t0, i, days[i]) && RecordsDay(b, t0, j, days[j]);
    }
  }

  // ----- the writer -------------------------------------------------------------------

  lemma GivenNext(wanted: seq<Chunk>, k: nat, days: seq<Day>, day: Day)
    requires k < |wanted|
    ensures Given(wanted, k, days + [day]) == Given(wanted, k, days) + (if AtChunk(wanted, k, day) then [day] else [])
  {
    hide AtChunk;
    assert (days + [day])[..|days|] == days;
  }

  lemma PartStays(wanted: seq<Chunk>, k: nat, days: seq<Day>, day: Day)
    requires k < |wanted| && wanted[k].end < day.asOf
    ensures Part(wanted, k, days + [day]) == Part(wanted, k, days)
  {
    GivenNext(wanted, k, days, day);
    assert Given(wanted, k, days + [day]) == Given(wanted, k, days);
  }

  lemma {:induction false} GivenStays(wanted: seq<Chunk>, n: nat, days: seq<Day>, day: Day)
    requires n <= |wanted| && forall k :: 0 <= k < n ==> wanted[k].end < day.asOf
    ensures Written(wanted, n, days + [day]) == Written(wanted, n, days)
  {
    hide Part;
    if n > 0 {
      GivenStays(wanted, n - 1, days, day);
      PartStays(wanted, n - 1, days, day);
    }
  }

  lemma {:induction false} NothingGiven(wanted: seq<Chunk>, k: nat, days: seq<Day>)
    requires k < |wanted| && forall i :: 0 <= i < |days| ==> !AtChunk(wanted, k, days[i])
    ensures Given(wanted, k, days) == []
  {
    if days != [] {
      NothingGiven(wanted, k, days[..|days| - 1]);
    }
  }

  /** Days past every chunk add nothing. */
  lemma {:induction false} PastTheEnd(wanted: seq<Chunk>, i: nat, days: seq<Day>)
    requires i < |days| && InDateOrder(days) && forall k :: 0 <= k < |wanted| ==> wanted[k].end < days[i].asOf
    ensures Written(wanted, |wanted|, days) == Written(wanted, |wanted|, days[..i])
    decreases |days|
  {
    var n := |days| - 1;
    assert days == days[..n] + [days[n]];
    GivenStays(wanted, |wanted|, days[..n], days[n]);
    if i < n {
      PastTheEnd(wanted, i, days[..n]);
      assert days[..n][..i] == days[..i];
    }
  }

  /** A chunk behind the one the cursor is at has been given nothing. */
  lemma AheadOfCursor(wanted: seq<Chunk>, position: nat, k: nat, days: seq<Day>)
    requires position < k < |wanted| && UpTo(days, wanted[position].end)
    ensures Given(wanted, k, days) == []
  {
    forall i | 0 <= i < |days| ensures !AtChunk(wanted, k, days[i]) {
      assert days[i].asOf <= wanted[position].end;
    }
    NothingGiven(wanted, k, days);
  }

  ghost predicate UpTo(days: seq<Day>, end: int) {
    forall i :: 0 <= i < |days| ==> days[i].asOf <= end
  }

  lemma {:induction false} NotReached(wanted: seq<Chunk>, position: nat, n: nat, days: seq<Day>)
    requires position < n <= |wanted| && UpTo(days, wanted[position].end)
    ensures Written(wanted, n, days) == Written(wanted, position + 1, days)
  {
    hide UpTo, AtChunk, Given;
    if n > position + 1 {
      NotReached(wanted, position, n - 1, days);
      AheadOfCursor(wanted, position, n - 1, days);
    }
  }

  /** The files open for the chunk at the cursor hold what it was given so far. */
  ghost predicate Holding(wanted: seq<Chunk>, position: nat, days: seq<Day>, files: Option<ChunkFiles>) {
    if position < |wanted| && Given(wanted, position, days) != []
    then files == Some(ChunkFiles(wanted[position], Given(wanted, position, days)))
    else files == None
  }

  /** The writer after `days`: the cursor is past every chunk that ended before, earlier
      chunks are yielded, and the files of the chunk at the cursor are open. */
  ghost predicate WrittenSoFar(
      wanted: seq<Chunk>, days: seq<Day>, position: nat, files: Option<ChunkFiles>, yielded: seq<ChunkFiles>) {
    position <= |wanted| && yielded == Written(wanted, position, days) && Holding(wanted, position, days, files)
  }

  /** The generator, run to its end: what it yields, in order, or the error of a chunk
      outside the book's dates (`from` to `to`). */
  method WriteChunks(days: seq<Day>, chunks: seq<Chunk>, from: int, to: int)
    returns (result: Result<seq<ChunkFiles>, BookDateError>)
    requires InDateOrder(days)
    ensures result.Failure? <==> exists c :: c in chunks && BadDates(c, from, to).Some?
    ensures result.Success? ==> result.value == Written(Wanted(chunks), |Wanted(chunks)|, days)
  {
    hide Wanted;
    var wanted := Wanted(chunks);
    WantedIsSorted(chunks);
    for k := 0 to |wanted|
      invariant forall j :: 0 <= j < k ==> BadDates(wanted[j], from, to) == None
    {
      var bad := BadDates(wanted[k], from, to);
      if bad.Some? {
        assert wanted[k] in chunks;
        return Failure(bad.value);
      }
    }
    var yielded := Stream(days, wanted);
    result := Success(yielded);
  }

  lemma Closed(wanted: seq<Chunk>, days: seq<Day>, position: nat, files: Option<ChunkFiles>, yielded: seq<ChunkFiles>)
    requires position < |wanted| && WrittenSoFar(wanted, days, position, files, yielded)
    requires position + 1 < |wanted| ==> Given(wanted, position + 1, days) == []
    ensures WrittenSoFar(wanted, days, position + 1, None, if files.Some? then yielded + [files.value] else yielded)
  {
    hide Given;
  }

  /** The cursor moves past every chunk that ended before `day`, yielding the open files. */
  method Pass(
      ghost days: seq<Day>, day: Day, wanted: seq<Chunk>, position: nat, files: Option<ChunkFiles>,
      yielded: seq<ChunkFiles>)
    returns (position': nat, files': Option<ChunkFiles>, yielded': seq<ChunkFiles>)
    requires WrittenSoFar(wanted, days, position, files, yielded)
    requires position < |wanted| ==> UpTo(days, wanted[position].end)
    requires UpTo(days, day.asOf) && forall k :: 0 <= k < position ==> wanted[k].end < day.asOf
    ensures WrittenSoFar(wanted, days, position', files', yielded')
    ensures position' < |wanted| ==> day.asOf <= wanted[position'].end
    ensures forall k :: 0 <= k < position' ==> wanted[k].end < day.asOf
  {
    hide Written, Given, UpTo;
    position', files', yielded' := position, files, yielded;
    while position' < |wanted| && day.asOf > wanted[position'].end
      invariant WrittenSoFar(wanted, days, position', files', yielded')
      invariant position <= position' <= |wanted| && (position < |wanted| ==> UpTo(days, wanted[position].end))
      invariant forall k :: 0 <= k < position' ==> wanted[k].end < day.asOf
    {
      if position' + 1 < |wanted| {
        AheadOfCursor(wanted, position, position' + 1, days);
      }
      Closed(wanted, days, position', files', yielded');
      if files'.Some? {
        yielded' := yielded' + [files'.value];
        files' := None;
      }
      position' := position' + 1;
    }
  }

  method Stream(days: seq<Day>, wanted: seq<Chunk>) returns (yielded: seq<ChunkFiles>)
    requires InDateOrder(days)
    ensures yielded == Written(wanted, |wanted|, days)
  {
    hide AtChunk, Written;
    var position: nat := 0;
    var files: Option<ChunkFiles> := None;
    yielded := [];
    Fresh(wanted);
    for i := 0 to |days|
      invariant WrittenSoFar(wanted, days[..i], position, files, yielded)
      invariant position < |wanted| ==> UpTo(days[..i], wanted[position].end)
      invariant forall k :: 0 <= k < position ==> i > 0 && wanted[k].end < days[i - 1].asOf
    {
      var day := days[i];
      assert days[..i + 1] == days[..i] + [day];
      position, files, yielded := Pass(days[..i], day, wanted, position, files, yielded);
      if position >= |wanted| {
        PastTheEnd(wanted, i, days);
        return;
      }
      DayArrives(wanted, days[..i], day, position, files, yielded);
      var chunk := wanted[position];
      if day.asOf < chunk.start {
        continue;
      }
      files := Some(ChunkFiles(chunk, (if files.Some? then files.value.days else []) + [day]));
    }
    assert days[..|days|] == days;
    if position < |wanted| {
      Closing(wanted, days, position, files, yielded);
    }
    if files.Some? {
      yielded := yielded + [files.value];
    }
  }

  lemma Fresh(wanted: seq<Chunk>)
    ensures WrittenSoFar(wanted, [], 0, None, [])
  {
  }

  /** A day arriving at the cursor goes to its chunk unless it comes before the chunk's start. */
  lemma DayArrives(
      wanted: seq<Chunk>, days: seq<Day>, day: Day, position: nat, files: Option<ChunkFiles>, yielded: seq<ChunkFiles>)
    requires position < |wanted| && WrittenSoFar(wanted, days, position, files, yielded)
    requires day.asOf <= wanted[position].end && forall k :: 0 <= k < position ==> wanted[k].end < day.asOf
    ensures WrittenSoFar(
      wanted, days + [day], position,
      if day.asOf < wanted[position].start then files
      else Some(ChunkFiles(wanted[position], (if files.Some? then files.value.days else []) + [day])), yielded)
  {
    hide Written;
    GivenStays(wanted, position, days, day);
    GivenNext(wanted, position, days, day);
    var before, after := Given(wanted, position, days), Given(wanted, position, days + [day]);
    if wanted[position].start <= day.asOf {
      assert after == before + [day] && |after| > 0;
      assert before == (if files.Some? then files.value.days else []);
    } else {
      assert after == before;
    }
  }

  lemma Closing(wanted: seq<Chunk>, days: seq<Day>, position: nat, files: Option<ChunkFiles>, yielded: seq<ChunkFiles>)
    requires position < |wanted| && WrittenSoFar(wanted, days, position, files, yielded)
             && UpTo(days, wanted[position].end)
    ensures Written(wanted, |wanted|, days) == if files.Some? then yielded + [files.value] else yielded
  {
    NotReached(wanted, position, |wanted|, days);
  }

  // ----- what the files hold ------------------------------------------------------------

  /** Two of the wanted chunks claim the day. */
  ghost predicate Contested(wanted: seq<Chunk>, d: Day) {
    exists i, j :: 0 <= i < j < |wanted| && Holds(wanted[i], d) && Holds(wanted[j], d)
  }

  /** A day goes to the first wanted chunk that holds it, unless an earlier one that has
      not ended holds the cursor back - and then that one holds the day too. */
  lemma UncontestedIsAtChunk(wanted: seq<Chunk>, k: nat, d: Day)
    requires k < |wanted| && SortedByStart(wanted) && Holds(wanted[k], d)
    ensures AtChunk(wanted, k, d) || Contested(wanted, d)
  {
    if !AtChunk(wanted, k, d) {
      var j :| 0 <= j < k && wanted[j].end >= d.asOf;
      assert Holds(wanted[j], d);
    }
  }

  lemma {:induction false} GivenIsComplete(wanted: seq<Chunk>, k: nat, days: seq<Day>)
    requires k < |wanted| && SortedByStart(wanted)
    requires forall i :: 0 <= i < |days| ==> !Contested(wanted, days[i])
    ensures Given(wanted, k, days) == DaysIn(days, wanted[k])
  {
    hide Contested, AtChunk;
    if days != [] {
      var rest, last := days[..|days| - 1], days[|days| - 1];
      GivenIsComplete(wanted, k, rest);
      AtChunkHolds(wanted, k, last);
      if Holds(wanted[k], last) {
        UncontestedIsAtChunk(wanted, k, last);
      }
    }
  }

  lemma AtChunkHolds(wanted: seq<Chunk>, k: nat, d: Day)
    requires k < |wanted|
    ensures AtChunk(wanted, k, d) ==> Holds(wanted[k], d)
  {
  }

  lemma PartIsWhole(wanted: seq<Chunk>, k: nat, days: seq<Day>)
    requires k < |wanted| && SortedByStart(wanted)
    requires forall i :: 0 <= i < |days| ==> !Contested(wanted, days[i])
    ensures Part(wanted, k, days) == Whole(wanted[k], days)
  {
    hide Contested, SortedByStart, AtChunk, Holds;
    GivenIsComplete(wanted, k, days);
  }

  lemma {:induction false} WrittenIsComplete(wanted: seq<Chunk>, n: nat, days: seq<Day>)
    requires n <= |wanted| && SortedByStart(wanted)
    requires forall i :: 0 <= i < |days| ==> !Contested(wanted, days[i])
    ensures Written(wanted, n, days) == Complete(wanted, n, days)
  {
    hide Contested, SortedByStart, Part, Whole;
    if n > 0 {
      WrittenIsComplete(wanted, n - 1, days);
      PartIsWhole(wanted, n - 1, days);
    }
  }

  /** How many days a list of files holds. */
  function Count(files: seq<ChunkFiles>): nat {
    if files == [] then 0 else Count(files[..|files| - 1]) + |files[|files| - 1].days|
  }

  lemma CountNext(files: seq<ChunkFiles>, more: seq<ChunkFiles>)
    requires |more| <= 1
    ensures Count(files + more) == Count(files) + (if more == [] then 0 else |more[0].days|)
  {
    if more == [] {
      assert files + more == files;
    } else {
      assert (files + more)[..|files|] == files;
    }
  }

  /** A chunk is never given a day it does not hold, nor a day twice. */
  lemma {:induction false} GivenWithin(wanted: seq<Chunk>, k: nat, days: seq<Day>, i: nat)
    requires k < |wanted| && i < |days|
    ensures |Given(wanted, k, days)| <= |DaysIn(days, wanted[k])|
    ensures Holds(wanted[k], days[i]) && !AtChunk(wanted, k, days[i]) ==>
      |Given(wanted, k, days)| < |DaysIn(days, wanted[k])|
  {
    hide AtChunk;
    var rest, last := days[..|days| - 1], days[|days| - 1];
    AtChunkHolds(wanted, k, last);
    if rest != [] {
      GivenWithin(wanted, k, rest, if i < |rest| then i else 0);
    } else {
      assert Given(wanted, k, rest) == [] && DaysIn(rest, wanted[k]) == [];
    }
  }

  lemma PartCounts(wanted: seq<Chunk>, k: nat, days: seq<Day>)
    requires k < |wanted|
    ensures |Part(wanted, k, days)| <= 1 && |Whole(wanted[k], days)| <= 1
    ensures (if Part(wanted, k, days) == [] then 0 else |Part(wanted, k, days)[0].days|) == |Given(wanted, k, days)|
    ensures (if Whole(wanted[k], days) == [] then 0 else |Whole(wanted[k], days)[0].days|) == |DaysIn(days, wanted[k])|
  {
    hide AtChunk, Holds;
  }

  lemma NothingWritten(wanted: seq<Chunk>, days: seq<Day>)
    ensures Written(wanted, 0, days) == [] && Complete(wanted, 0, days) == []
  {
  }

  lemma WithinNext(wanted: seq<Chunk>, n: nat, days: seq<Day>)
    requires 0 < n <= |wanted|
    ensures Count(Written(wanted, n, days)) == Count(Written(wanted, n - 1, days)) + |Given(wanted, n - 1, days)|
    ensures Count(Complete(wanted, n, days)) == Count(Complete(wanted, n - 1, days)) + |DaysIn(days, wanted[n - 1])|
  {
    PartCounts(wanted, n - 1, days);
    hide Part, Whole, Count, Given, DaysIn;
    CountNext(Written(wanted, n - 1, days), Part(wanted, n - 1, days));
    CountNext(Complete(wanted, n - 1, days), Whole(wanted[n - 1], days));
  }

  lemma {:induction false} WrittenWithin(wanted: seq<Chunk>, n: nat, days: seq<Day>, k: nat, i: nat)
    requires n <= |wanted| && i < |days|
    ensures Count(Written(wanted, n, days)) <= Count(Complete(wanted, n, days))
    ensures k < n && Holds(wanted[k], days[i]) && !AtChunk(wanted, k, days[i]) ==>
      Count(Written(wanted, n, days)) < Count(Complete(wanted, n, days))
  {
    hide AtChunk, Holds, Written, Complete, Given, DaysIn, Count;
    if n == 0 {
      NothingWritten(wanted, days);
    } else {
      WrittenWithin(wanted, n - 1, days, k, i);
      GivenWithin(wanted, n - 1, days, i);
      WithinNext(wanted, n, days);
    }
  }

  /** The writer yields one file per chunk with a trading day, holding exactly the
      simulation's days in it, exactly when no simulated day lies in two of the
      requested chunks; a contested day is missing from every chunk but one. */
  lemma CompleteExactlyWhenUncontested(wanted: seq<Chunk>, days: seq<Day>)
    requires SortedByStart(wanted) && InDateOrder(days)
    ensures Written(wanted, |wanted|, days) == Complete(wanted, |wanted|, days) <==>
      forall i :: 0 <= i < |days| ==> !Contested(wanted, days[i])
  {
    if forall i :: 0 <= i < |days| ==> !Contested(wanted, days[i]) {
      WrittenIsComplete(wanted, |wanted|, days);
    } else {
      var i :| 0 <= i < |days| && Contested(wanted, days[i]);
      var j, k :| 0 <= j < k < |wanted| && Holds(wanted[j], days[i]) && Holds(wanted[k], days[i]);
      assert !AtChunk(wanted, k, days[i]);
      WrittenWithin(wanted, |wanted|, days, k, i);
    }
  }

  /** Any selection of the window's quarters, each asked for once, is written completely,
      so what a quarter's files hold does not depend on the others asked for. */
  lemma {:induction false} SelectedQuartersAreComplete(
      tiles: seq<Chunk>, from: int, to: int, wanted: seq<Chunk>, days: seq<Day>)
    requires Tiles(tiles, from, to) && SortedByStart(wanted) && InDateOrder(days)
    requires (forall k :: 0 <= k < |wanted| ==> wanted[k] in tiles)
             && forall j, k :: 0 <= j < k < |wanted| ==> wanted[j] != wanted[k]
    ensures Written(wanted, |wanted|, days) == Complete(wanted, |wanted|, days)
  {
    forall i | 0 <= i < |days| ensures !Contested(wanted, days[i]) {
      EachDayInOneChunk(tiles, from, to, days[i].asOf);
      forall j, k | 0 <= j < k < |wanted| ensures !(Holds(wanted[j], days[i]) && Holds(wanted[k], days[i])) {
        var p :| 0 <= p < |tiles| && tiles[p] == wanted[j];
        var q :| 0 <= q < |tiles| && tiles[q] == wanted[k];
        assert p != q && InQuarter(tiles[q]);
      }
    }
    CompleteExactlyWhenUncontested(wanted, days);
  }

  // ----- the whole window -----------------------------------------------------------------

  function AllDays(files: seq<ChunkFiles>): seq<Day> {
    if files == [] then [] else AllDays(files[..|files| - 1]) + files[|files| - 1].days
  }

  lemma {:induction false} DaysInSplit(days: seq<Day>, name: Quarter, a: int, b: int, c: int)
    requires a <= b + 1 && b <= c && InDateOrder(days)
    ensures DaysIn(days, Chunk(name, a, b)) + DaysIn(days, Chunk(name, b + 1, c)) == DaysIn(days, Chunk(name, a, c))
  {
    if days != [] {
      var rest, last := days[..|days| - 1], days[|days| - 1];
      DaysInSplit(rest, name, a, b, c);
      if last.asOf <= b {
        NoneIn(rest, Chunk(name, b + 1, c));
      }
    }
  }

  lemma {:induction false} NoneIn(days: seq<Day>, c: Chunk)
    requires forall i :: 0 <= i < |days| ==> days[i].asOf < c.start
    ensures DaysIn(days, c) == []
  {
    if days != [] {
      NoneIn(days[..|days| - 1], c);
    }
  }

  lemma {:induction false} NameIsNoMatter(days: seq<Day>, c: Chunk, name: Quarter)
    ensures DaysIn(days, c) == DaysIn(days, c.(name := name))
  {
    if days != [] {
      NameIsNoMatter(days[..|days| - 1], c, name);
    }
  }

  lemma {:induction false} QuartersJoin(tiles: seq<Chunk>, n: nat, days: seq<Day>, from: int, to: int)
    requires Tiles(tiles, from, to) && 0 < n <= |tiles| && InDateOrder(days)
    ensures AllDays(Complete(tiles, n, days)) == DaysIn(days, Chunk(tiles[0].name, from, tiles[n - 1].end))
    ensures from <= tiles[n - 1].end
  {
    hide FirstDay;
    var c := tiles[n - 1];
    assert InQuarter(c);
    AllDaysNext(Complete(tiles, n - 1, days), c, days);
    NameIsNoMatter(days, c, tiles[0].name);
    hide DaysIn, AllDays, Holds, Whole;
    if n > 1 {
      QuartersJoin(tiles, n - 1, days, from, to);
      assert c.start == tiles[n - 2].end + 1;
      DaysInSplit(days, tiles[0].name, from, tiles[n - 2].end, c.end);
    } else {
      NothingWritten(tiles, days);
      NoDays();
    }
  }

  lemma AllDaysNext(files: seq<ChunkFiles>, c: Chunk, days: seq<Day>)
    ensures AllDays(files + Whole(c, days)) == AllDays(files) + DaysIn(days, c)
  {
    hide DaysIn;
    var own := DaysIn(days, c);
    if own == [] {
      assert files + [] == files;
    } else {
      assert (files + [ChunkFiles(c, own)])[..|files|] == files;
    }
  }

  lemma NoDays()
    ensures AllDays([]) == []
  {
  }

  lemma {:induction false} AllInside(days: seq<Day>, c: Chunk)
    requires forall i :: 0 <= i < |days| ==> Holds(c, days[i])
    ensures DaysIn(days, c) == days
  {
    if days != [] {
      AllInside(days[..|days| - 1], c);
      assert days == days[..|days| - 1] + [days[|days| - 1]];
    }
  }

  /** Asking for every quarter writes the whole simulation: each day once, in order. */
  lemma {:induction false} WholeWindowIsWritten(tiles: seq<Chunk>, from: int, to: int, days: seq<Day>)
    requires Tiles(tiles, from, to) && from <= to && InDateOrder(days)
    requires forall i :: 0 <= i < |days| ==> from <= days[i].asOf <= to
    ensures SortedByStart(tiles) && AllDays(Written(tiles, |tiles|, days)) == days
  {
    hide FirstDay;
    EachDayInOneChunk(tiles, from, to, from);
    assert forall i :: 0 <= i < |tiles| ==> InQuarter(tiles[i]);
    SelectedQuartersAreComplete(tiles, from, to, tiles, days);
    QuartersJoin(tiles, |tiles|, days, from, to);
    AllInside(days, Chunk(tiles[0].name, from, to));
  }
}
