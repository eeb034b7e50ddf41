/**
  The catalog's row folding (db.go): the loops that turn the rows of a
  joined query into tracks, sets and setlists, and the sequence number a
  track gets when it is added to a set.  Queries are not modelled: each
  operation receives the rows its query would return, in order, with the
  columns that may be NULL as `Option`s.
*/
module Catalog {
  import opened Wrappers
  import opened Entity

  // ---------------------------------------------------------------------
  // Tracks
  // ---------------------------------------------------------------------

  /** One row of the track query; every column is non-null (inner joins). */
  datatype TrackRow = TrackRow(
    id: int, title: string, tempo: int, click: int, keyTone: string,
    voxId: int, vox: string, eraId: int, era: string,
    genreId: int, genre: string, kitId: int, kit: string)

  /** The track a row describes; the click flag is stored as an integer and set means exactly 1. */
  function TrackFromRow(r: TrackRow): (t: Track)
    ensures t.id == r.id && t.title == r.title && t.tempo == r.tempo && t.keyTone == r.keyTone
    ensures t.click <==> r.click == 1
    ensures t.vox == Named(r.voxId, r.vox) && t.era == Named(r.eraId, r.era)
    ensures t.genre == Named(r.genreId, r.genre) && t.kit == Named(r.kitId, r.kit)
    ensures t.lyrics == ZeroLyrics
  {
    Track(r.id, r.title, r.tempo, r.click == 1, r.keyTone,
          Named(r.voxId, r.vox), Named(r.eraId, r.era), Named(r.genreId, r.genre), Named(r.kitId, r.kit),
          ZeroLyrics)
  }

  /** One track per row, in row order. */
  method ExtractTracks(rows: seq<TrackRow>) returns (tracks: seq<Track>)
    ensures |tracks| == |rows|
    ensures forall j :: 0 <= j < |rows| ==> tracks[j] == TrackFromRow(rows[j])
  {
    tracks := [];
    for i := 0 to |rows|
      invariant |tracks| == i
      invariant forall j :: 0 <= j < i ==> tracks[j] == TrackFromRow(rows[j])
    {
      tracks := tracks + [TrackFromRow(rows[i])];
    }
  }

  // ---------------------------------------------------------------------
  // All setlists
  // ---------------------------------------------------------------------

  /** One row of the setlist query: a setlist left-joined with its sets. */
  datatype SetlistRow = SetlistRow(
    id: int, name: string, timestamp: int,
    setId: Option<int>, setName: Option<string>, setNum: Option<int>)

  /** The row carries a set: all three set columns are non-null. */
  predicate HasSet(r: SetlistRow)
  {
    r.setId.Some? && r.setName.Some? && r.setNum.Some?
  }

  function SetOfRow(r: SetlistRow): Set
    requires HasSet(r)
  {
    Set(r.setId.value, r.id, r.setNum.value, r.setName.value, [])
  }

  /**
    Rows lo up to hi cut into maximal runs of consecutive rows with the same
    setlist id: every run is non-empty and uniform, neighbouring runs differ,
    and together they are the rows in order.
  */
  function RunsIn(rows: seq<SetlistRow>, lo: nat, hi: nat): (runs: seq<seq<SetlistRow>>)
    requires lo <= hi <= |rows|
    ensures lo == hi <==> runs == []
    ensures forall k :: 0 <= k < |runs| ==> runs[k] != []
    decreases hi
  {
    if lo == hi then []
    else AddRow(RunsIn(rows, lo, hi - 1), rows[hi - 1], lo < hi - 1 && rows[hi - 2].id == rows[hi - 1].id)
  }

  /** A row joins the last run when it continues it, and starts a new run otherwise. */
  function AddRow(runs: seq<seq<SetlistRow>>, row: SetlistRow, continues: bool): (r: seq<seq<SetlistRow>>)
    requires continues ==> runs != []
  {
    if continues then runs[..|runs| - 1] + [runs[|runs| - 1] + [row]] else runs + [[row]]
  }

  function Runs(rows: seq<SetlistRow>): seq<seq<SetlistRow>>
  {
    RunsIn(rows, 0, |rows|)
  }

  /** Every row of a run has the run's id. */
  predicate Uniform(runs: seq<seq<SetlistRow>>)
  {
    forall k, j :: 0 <= k < |runs| && 0 <= j < |runs[k]| ==> runs[k][j].id == runs[k][0].id
  }

  /** Neighbouring runs have different ids. */
  predicate Separated(runs: seq<seq<SetlistRow>>)
    requires forall k :: 0 <= k < |runs| ==> runs[k] != []
  {
    forall k :: 0 < k < |runs| ==> runs[k][0].id != runs[k - 1][0].id
  }

  lemma AddRowContinues(runs: seq<seq<SetlistRow>>, row: SetlistRow)
    requires runs != [] && forall k :: 0 <= k < |runs| ==> runs[k] != []
    requires Uniform(runs) && Separated(runs) && runs[|runs| - 1][0].id == row.id
    ensures var r := AddRow(runs, row, true);
      (forall k :: 0 <= k < |r| ==> r[k] != []) && Uniform(r) && Separated(r) && r[|r| - 1][0].id == row.id
  {
    var r := AddRow(runs, row, true);
    var last := runs[|runs| - 1];
    assert |r| == |runs|;
    forall k | 0 <= k < |r| - 1
      ensures r[k] == runs[k]
    {
    }
    assert r[|r| - 1] == last + [row];
    assert r[|r| - 1][0] == last[0];
    forall k, j | 0 <= k < |r| && 0 <= j < |r[k]|
      ensures r[k][j].id == r[k][0].id
    {
      if k == |r| - 1 && j == |last| {
        assert r[k][j] == row;
      } else if k == |r| - 1 {
        assert r[k][j] == last[j];
      }
    }
  }

  lemma AddRowStarts(runs: seq<seq<SetlistRow>>, row: SetlistRow)
    requires forall k :: 0 <= k < |runs| ==> runs[k] != []
    requires Uniform(runs) && Separated(runs)
    requires runs != [] ==> runs[|runs| - 1][0].id != row.id
    ensures var r := AddRow(runs, row, false);
      (forall k :: 0 <= k < |r| ==> r[k] != []) && Uniform(r) && Separated(r) && r[|r| - 1][0].id == row.id
  {
    var r := AddRow(runs, row, false);
    forall k | 0 <= k < |runs|
      ensures r[k] == runs[k]
    {
    }
    assert r[|runs|] == [row];
  }

  /** Every run is uniform in its id, and neighbouring runs differ: the runs are maximal. */
  lemma {:induction false} RunsMaximal(rows: seq<SetlistRow>, lo: nat, hi: nat)
    requires lo <= hi <= |rows|
    ensures Uniform(RunsIn(rows, lo, hi)) && Separated(RunsIn(rows, lo, hi))
    ensures lo < hi ==> RunsIn(rows, lo, hi)[|RunsIn(rows, lo, hi)| - 1][0].id == rows[hi - 1].id
    decreases hi
  {
    if lo < hi {
      RunsMaximal(rows, lo, hi - 1);
      var r := RunsIn(rows, lo, hi - 1);
      if lo < hi - 1 && rows[hi - 2].id == rows[hi - 1].id {
        AddRowContinues(r, rows[hi - 1]);
      } else {
        AddRowStarts(r, rows[hi - 1]);
      }
    }
  }

  function Concat(runs: seq<seq<SetlistRow>>): seq<SetlistRow>
  {
    if runs == [] then [] else Concat(runs[..|runs| - 1]) + runs[|runs| - 1]
  }

  lemma ConcatSnoc(runs: seq<seq<SetlistRow>>, run: seq<SetlistRow>)
    ensures Concat(runs + [run]) == Concat(runs) + run
  {
    assert (runs + [run])[..|runs|] == runs;
  }

  /** Adding a row to the runs adds it to their concatenation. */
  lemma ConcatAddRow(runs: seq<seq<SetlistRow>>, row: SetlistRow, continues: bool)
    requires continues ==> runs != []
    ensures Concat(AddRow(runs, row, continues)) == Concat(runs) + [row]
  {
    if continues {
      var front := runs[..|runs| - 1];
      var last := runs[|runs| - 1];
      assert runs == front + [last];
      ConcatSnoc(front, last);
      ConcatSnoc(front, last + [row]);
      assert Concat(front) + (last + [row]) == (Concat(front) + last) + [row];
    } else {
      ConcatSnoc(runs, [row]);
    }
  }

  lemma SliceSnoc<T>(s: seq<T>, lo: nat, hi: nat)
    requires lo < hi <= |s|
    ensures s[lo..hi - 1] + [s[hi - 1]] == s[lo..hi]
  {
  }

  /** The runs hold every row exactly once, in order. */
  lemma {:induction false} RunsConcat(rows: seq<SetlistRow>, lo: nat, hi: nat)
    requires lo <= hi <= |rows|
    ensures Concat(RunsIn(rows, lo, hi)) == rows[lo..hi]
    decreases hi
  {
    if lo < hi {
      RunsConcat(rows, lo, hi - 1);
      ConcatAddRow(RunsIn(rows, lo, hi - 1), rows[hi - 1], lo < hi - 1 && rows[hi - 2].id == rows[hi - 1].id);
      SliceSnoc(rows, lo, hi);
    }
  }

  /** The sets carried by a run's rows, in order. */
  function SetsOf(run: seq<SetlistRow>): (sets: seq<Set>)
    ensures |sets| <= |run|
  {
    if run == [] then []
    else
      var row := run[|run| - 1];
      SetsOf(run[..|run| - 1]) + (if HasSet(row) then [SetOfRow(row)] else [])
  }

  /** The setlist a run describes: id, name and timestamp of its first row, and the sets of all its rows. */
  function SetlistOf(run: seq<SetlistRow>): Setlist
    requires run != []
  {
    Setlist(run[0].id, run[0].name, SetsOf(run), run[0].timestamp)
  }

  function SetlistsOf(runs: seq<seq<SetlistRow>>): (sls: seq<Setlist>)
    requires forall k :: 0 <= k < |runs| ==> runs[k] != []
    ensures |sls| == |runs|
    ensures forall k :: 0 <= k < |runs| ==> sls[k] == SetlistOf(runs[k])
  {
    if runs == [] then [] else SetlistsOf(runs[..|runs| - 1]) + [SetlistOf(runs[|runs| - 1])]
  }

  /** The number of leading rows whose setlist id is 0. */
  function LeadingZeroIds(rows: seq<SetlistRow>): (k: nat)
    ensures k <= |rows|
    ensures forall j :: 0 <= j < k ==> rows[j].id == 0
    ensures k < |rows| ==> rows[k].id != 0
  {
    if rows == [] || rows[0].id != 0 then 0 else 1 + LeadingZeroIds(rows[1..])
  }

  /** The index of the first row that carries a set, or the row count. */
  function FirstWithSet(rows: seq<SetlistRow>): (k: nat)
    ensures k <= |rows|
    ensures forall j :: 0 <= j < k ==> !HasSet(rows[j])
    ensures k < |rows| ==> HasSet(rows[k])
  {
    if rows == [] || HasSet(rows[0]) then 0 else 1 + FirstWithSet(rows[1..])
  }

  /**
    What the setlist loop yields.  The "previous id" starts at 0, so leading
    rows with id 0 open no setlist: they are skipped when they carry no set,
    and the first one that carries a set dereferences the missing setlist
    (Failure holds that row's index).
  */
  function ExtractedSetlists(rows: seq<SetlistRow>): Result<seq<Setlist>, nat>
  {
    var k := LeadingZeroIds(rows);
    var f := FirstWithSet(rows[..k]);
    if f < k then Failure(f) else Success(SetlistsOf(RunsIn(rows, k, |rows|)))
  }

  /** A setlist opened by a row, before that row's set is added. */
  function Open(row: SetlistRow): Setlist
  {
    Setlist(row.id, row.name, [], row.timestamp)
  }

  /** A setlist after a row of its run: the row's set is appended when it carries one. */
  function Extend(sl: Setlist, row: SetlistRow): Setlist
  {
    if HasSet(row) then sl.(sets := sl.sets + [SetOfRow(row)]) else sl
  }

  /** The state of the setlist loop after some rows: the loop's variables, or the row it failed at. */
  datatype Scan = Scanning(setlists: seq<Setlist>, cur: Option<Setlist>, lastId: int) | Failed(at: nat)

  /** One row of the setlist loop; `i` is the row's index. */
  function ScanRow(s: Scan, row: SetlistRow, i: nat): Scan
  {
    if s.Failed? then s
    else
      var starts := row.id != s.lastId;
      var setlists := if starts && s.cur.Some? then s.setlists + [s.cur.value] else s.setlists;
      var cur := if starts then Some(Open(row)) else s.cur;
      if !HasSet(row) then Scanning(setlists, cur, row.id)
      else if cur.None? then Failed(i)
      else Scanning(setlists, Some(Extend(cur.value, row)), row.id)
  }

  /** The loop state after the first `i` rows. */
  function ScanTo(rows: seq<SetlistRow>, i: nat): Scan
    requires i <= |rows|
    decreases i
  {
    if i == 0 then Scanning([], None, 0) else ScanRow(ScanTo(rows, i - 1), rows[i - 1], i - 1)
  }

  /** What the method returns from a final loop state. */
  function Finish(s: Scan): Result<seq<Setlist>, nat>
  {
    match s
    case Failed(at) => Failure(at)
    case Scanning(setlists, cur, _) => Success(if cur.Some? then setlists + [cur.value] else setlists)
  }

  /** Groups the joined rows into setlists. */
  method ExtractSetlists(rows: seq<SetlistRow>) returns (r: Result<seq<Setlist>, nat>)
    ensures r == ExtractedSetlists(rows)
  {
    var setlists: seq<Setlist> := [];
    var lastId := 0;
    var cur: Option<Setlist> := None;
    var i := 0;
    while i < |rows|
      invariant 0 <= i <= |rows|
      invariant ScanTo(rows, i) == Scanning(setlists, cur, lastId)
    {
      var row := rows[i];
      if row.id != lastId {
        if cur.Some? {
          setlists := setlists + [cur.value];
        }
        cur := Some(Setlist(row.id, row.name, [], row.timestamp));
        lastId := row.id;
      }
      if row.setId.Some? && row.setNum.Some? && row.setName.Some? {
        if cur.None? {
          ScanFailedStays(rows, i + 1, |rows|);
          ScanMatchesRuns(rows);
          return Failure(i);
        }
        cur := Some(cur.value.(sets := cur.value.sets + [Set(row.setId.value, row.id, row.setNum.value, row.setName.value, [])]));
      }
      i := i + 1;
    }
    ScanMatchesRuns(rows);
    if cur.Some? {
      setlists := setlists + [cur.value];
    }
    return Success(setlists);
  }

  /** Once the loop has failed, later rows do not change the outcome. */
  lemma {:induction false} ScanFailedStays(rows: seq<SetlistRow>, i: nat, n: nat)
    requires i <= n <= |rows|
    requires ScanTo(rows, i).Failed?
    ensures ScanTo(rows, n) == ScanTo(rows, i)
    decreases n
  {
    if n > i {
      ScanFailedStays(rows, i, n - 1);
    }
  }

  /** The row-by-row loop computes the run-based grouping. */
  lemma ScanMatchesRuns(rows: seq<SetlistRow>)
    ensures Finish(ScanTo(rows, |rows|)) == ExtractedSetlists(rows)
  {
    var k := LeadingZeroIds(rows);
    var f := FirstWithSet(rows[..k]);
    var s := ScanTo(rows, |rows|);
    if f < k {
      ScanLeading(rows, k, f, f + 1);
      ScanFailedStays(rows, f + 1, |rows|);
    } else if |rows| <= k {
      ScanLeading(rows, k, f, |rows|);
      assert RunsIn(rows, k, |rows|) == [];
    } else {
      ScanGrouping(rows, k, |rows|);
    }
  }

  /**
    Over the leading rows with id 0 the loop opens nothing: it stays empty
    until the first of them that carries a set, and fails there.
  */
  lemma {:induction false} ScanLeading(rows: seq<SetlistRow>, k: nat, f: nat, i: nat)
    requires k == LeadingZeroIds(rows) && f == FirstWithSet(rows[..k])
    requires i <= k
    ensures f < i ==> ScanTo(rows, i) == Failed(f)
    ensures f >= i ==> ScanTo(rows, i) == Scanning([], None, 0)
    decreases i
  {
    if i > 0 {
      ScanLeading(rows, k, f, i - 1);
      var row := rows[i - 1];
      assert ScanTo(rows, i) == ScanRow(ScanTo(rows, i - 1), row, i - 1);
      assert rows[..k][i - 1] == row;
      if f == i - 1 {
        assert HasSet(row);
      } else if f > i - 1 {
        assert !HasSet(row);
      }
    }
  }

  /**
    After the leading rows with id 0, none of which carries a set, the loop
    holds the setlists of the runs so far, the last one still open.
  */
  lemma {:induction false} ScanGrouping(rows: seq<SetlistRow>, k: nat, i: nat)
    requires k == LeadingZeroIds(rows) && FirstWithSet(rows[..k]) == k
    requires k < i <= |rows|
    ensures ScanTo(rows, i).Scanning? && ScanTo(rows, i).lastId == rows[i - 1].id
    ensures GroupedSoFar(rows, k, i, ScanTo(rows, i).setlists, ScanTo(rows, i).cur)
    decreases i
  {
    var row := rows[i - 1];
    var s0 := ScanTo(rows, i - 1);
    assert ScanTo(rows, i) == ScanRow(s0, row, i - 1);
    if i - 1 == k {
      ScanLeading(rows, k, k, k);
      ScanRowOpens(s0, row, i - 1);
      OpenStep(rows, k, k, [], None, [], Extend(Open(row), row));
    } else {
      ScanGrouping(rows, k, i - 1);
      if row.id != s0.lastId {
        ScanRowOpens(s0, row, i - 1);
        OpenStep(rows, k, i - 1, s0.setlists, s0.cur, s0.setlists + [s0.cur.value], Extend(Open(row), row));
      } else {
        ScanRowContinues(s0, row, i - 1);
        ContinueStep(rows, k, i - 1, s0.setlists, s0.cur.value, Extend(s0.cur.value, row));
      }
    }
  }

  /** A row with a new id finishes the open setlist, if any, and opens its own. */
  lemma ScanRowOpens(s: Scan, row: SetlistRow, i: nat)
    requires s.Scanning? && row.id != s.lastId
    ensures ScanRow(s, row, i)
         == Scanning(if s.cur.Some? then s.setlists + [s.cur.value] else s.setlists, Some(Extend(Open(row), row)), row.id)
  {
  }

  /** A row with the open setlist's id extends it. */
  lemma ScanRowContinues(s: Scan, row: SetlistRow, i: nat)
    requires s.Scanning? && s.cur.Some? && row.id == s.lastId
    ensures ScanRow(s, row, i) == Scanning(s.setlists, Some(Extend(s.cur.value, row)), row.id)
  {
  }

  /** The finished setlists and the open one are the setlists of the runs of rows k up to i. */
  predicate GroupedSoFar(rows: seq<SetlistRow>, k: nat, i: nat, setlists: seq<Setlist>, cur: Option<Setlist>)
    requires k <= i <= |rows|
  {
    cur.Some? && setlists + [cur.value] == SetlistsOf(RunsIn(rows, k, i))
  }

  /** Loop step for a row that opens a setlist: the open one, if any, is finished first. */
  lemma OpenStep(rows: seq<SetlistRow>, k: nat, i: nat, setlists: seq<Setlist>, cur: Option<Setlist>,
                 setlists': seq<Setlist>, cur': Setlist)
    requires k <= i < |rows|
    requires i == k ==> setlists == [] && cur == None
    requires i > k ==> rows[i - 1].id != rows[i].id && GroupedSoFar(rows, k, i, setlists, cur)
    requires setlists' == (if cur.Some? then setlists + [cur.value] else setlists)
    requires cur' == Extend(Open(rows[i]), rows[i])
    ensures GroupedSoFar(rows, k, i + 1, setlists', Some(cur'))
  {
    GroupOpen(rows, k, i);
    if i == k {
      assert RunsIn(rows, k, i) == [];
    }
  }

  /** Loop step for a row that continues the open setlist. */
  lemma ContinueStep(rows: seq<SetlistRow>, k: nat, i: nat, setlists: seq<Setlist>, cur: Setlist, cur': Setlist)
    requires k < i < |rows| && rows[i - 1].id == rows[i].id
    requires GroupedSoFar(rows, k, i, setlists, Some(cur))
    requires cur' == Extend(cur, rows[i])
    ensures GroupedSoFar(rows, k, i + 1, setlists, Some(cur'))
  {
    GroupContinue(rows, k, i);
    var sls := SetlistsOf(RunsIn(rows, k, i));
    assert sls[..|sls| - 1] == setlists;
  }

  lemma SetlistsOfSnoc(runs: seq<seq<SetlistRow>>, run: seq<SetlistRow>)
    requires forall j :: 0 <= j < |runs| ==> runs[j] != []
    requires run != []
    ensures SetlistsOf(runs + [run]) == SetlistsOf(runs) + [SetlistOf(run)]
  {
    assert (runs + [run])[..|runs|] == runs;
  }

  lemma SetlistOfSnoc(run: seq<SetlistRow>, row: SetlistRow)
    requires run != []
    ensures SetlistOf(run + [row]) == Extend(SetlistOf(run), row)
  {
    assert (run + [row])[..|run|] == run;
    assert (run + [row])[0] == run[0];
  }

  /** A row whose id differs from the previous row's opens a new setlist. */
  lemma GroupOpen(rows: seq<SetlistRow>, k: nat, i: nat)
    requires k <= i < |rows|
    requires i == k || rows[i - 1].id != rows[i].id
    ensures SetlistsOf(RunsIn(rows, k, i + 1)) == SetlistsOf(RunsIn(rows, k, i)) + [Extend(Open(rows[i]), rows[i])]
  {
    var row := rows[i];
    var r := RunsIn(rows, k, i);
    assert RunsIn(rows, k, i + 1) == r + [[row]];
    SetlistsOfSnoc(r, [row]);
    assert [row][..0] == [];
  }

  /** A row with the previous row's id extends the current setlist. */
  lemma GroupContinue(rows: seq<SetlistRow>, k: nat, i: nat)
    requires k < i < |rows|
    requires rows[i - 1].id == rows[i].id
    ensures var sls := SetlistsOf(RunsIn(rows, k, i));
      sls != [] &&
      SetlistsOf(RunsIn(rows, k, i + 1)) == sls[..|sls| - 1] + [Extend(sls[|sls| - 1], rows[i])]
  {
    var row := rows[i];
    var r := RunsIn(rows, k, i);
    var last := r[|r| - 1];
    assert RunsIn(rows, k, i + 1) == r[..|r| - 1] + [last + [row]];
    SetlistsOfSnoc(r[..|r| - 1], last + [row]);
    SetlistOfSnoc(last, row);
    var sls := SetlistsOf(r);
    assert SetlistsOf(r[..|r| - 1]) == sls[..|sls| - 1];
  }

  /** Rows that all carry a non-zero id: one setlist per maximal run, in order of appearance. */
  lemma SetlistsPerRun(rows: seq<SetlistRow>)
    requires rows == [] || rows[0].id != 0
    ensures ExtractedSetlists(rows) == Success(SetlistsOf(Runs(rows)))
  {
  }

  /** No rows, no setlists. */
  lemma NoRowsNoSetlists()
    ensures ExtractedSetlists([]) == Success([])
  {
  }

  /** An id that reappears after another id opens a second, separate setlist. */
  lemma RepeatedIdSeparate(a: SetlistRow, b: SetlistRow, c: SetlistRow)
    requires a.id != 0 && a.id == c.id && a.id != b.id
    ensures ExtractedSetlists([a, b, c]).Success?
    ensures |ExtractedSetlists([a, b, c]).value| == 3
  {
    var rows := [a, b, c];
    assert RunsIn(rows, 0, 1) == [[a]];
    assert RunsIn(rows, 0, 2) == [[a], [b]];
    assert RunsIn(rows, 0, 3) == [[a], [b], [c]];
  }

  // ---------------------------------------------------------------------
  // One set with its tracks
  // ---------------------------------------------------------------------

  /** One row of the set query: the set left-joined with its tracks and their categories. */
  datatype SetRow = SetRow(
    name: string, setlistId: int, setNum: int,
    trackId: Option<int>, title: Option<string>, tempo: Option<int>, keyTone: Option<string>,
    voxId: Option<int>, voxName: Option<string>, eraId: Option<int>, eraName: Option<string>,
    genreId: Option<int>, genreName: Option<string>, kitId: Option<int>, kitName: Option<string>)

  function OrInt(o: Option<int>): int { if o.Some? then o.value else 0 }
  function OrStr(o: Option<string>): string { if o.Some? then o.value else "" }

  /**
    The track a row carries: each non-null column is taken, each null column
    reads as "" or 0, and the click flag is not read.
  */
  function TrackOfSetRow(r: SetRow): (t: Track)
    ensures !t.click && t.lyrics == ZeroLyrics
    ensures r.trackId.Some? ==> t.id == r.trackId.value
    ensures r.trackId.None? ==> t.id == 0
    ensures r.title.Some? ==> t.title == r.title.value
    ensures r.title.None? ==> t.title == ""
    ensures r.tempo.Some? ==> t.tempo == r.tempo.value
    ensures r.tempo.None? ==> t.tempo == 0
    ensures r.keyTone.Some? ==> t.keyTone == r.keyTone.value
    ensures r.keyTone.None? ==> t.keyTone == ""
    ensures r.voxId.Some? ==> t.vox.id == r.voxId.value
    ensures r.voxId.None? ==> t.vox.id == 0
    ensures r.voxName.Some? ==> t.vox.name == r.voxName.value
    ensures r.voxName.None? ==> t.vox.name == ""
    ensures r.eraId.Some? ==> t.era.id == r.eraId.value
    ensures r.eraId.None? ==> t.era.id == 0
    ensures r.eraName.Some? ==> t.era.name == r.eraName.value
    ensures r.eraName.None? ==> t.era.name == ""
    ensures r.genreId.Some? ==> t.genre.id == r.genreId.value
    ensures r.genreId.None? ==> t.genre.id == 0
    ensures r.genreName.Some? ==> t.genre.name == r.genreName.value
    ensures r.genreName.None? ==> t.genre.name == ""
    ensures r.kitId.Some? ==> t.kit.id == r.kitId.value
    ensures r.kitId.None? ==> t.kit.id == 0
    ensures r.kitName.Some? ==> t.kit.name == r.kitName.value
    ensures r.kitName.None? ==> t.kit.name == ""
  {
    Track(OrInt(r.trackId), OrStr(r.title), OrInt(r.tempo), false, OrStr(r.keyTone),
          Named(OrInt(r.voxId), OrStr(r.voxName)), Named(OrInt(r.eraId), OrStr(r.eraName)),
          Named(OrInt(r.genreId), OrStr(r.genreName)), Named(OrInt(r.kitId), OrStr(r.kitName)),
          ZeroLyrics)
  }

  /** Just past the last row without a track, or 0. */
  function AfterLastNull(rows: seq<SetRow>): (n: nat)
    ensures n <= |rows|
    ensures forall j :: n <= j < |rows| ==> rows[j].trackId.Some?
    ensures n > 0 ==> rows[n - 1].trackId.None?
  {
    if rows == [] then 0
    else if rows[|rows| - 1].trackId.None? then |rows|
    else AfterLastNull(rows[..|rows| - 1])
  }

  function TracksOfRows(rows: seq<SetRow>): (ts: seq<Track>)
    ensures |ts| == |rows|
    ensures forall j :: 0 <= j < |rows| ==> ts[j] == TrackOfSetRow(rows[j])
  {
    if rows == [] then [] else TracksOfRows(rows[..|rows| - 1]) + [TrackOfSetRow(rows[|rows| - 1])]
  }

  /**
    The set the set query's rows describe.  The header (name and number) is
    taken from the first row, but from every row in turn (so the last wins)
    when the requested id is 0, because 0 is also the "header not yet taken"
    mark.  The setlist id is never filled in.  The tracks are those after
    the last row without a track: a trackless row empties the list.
  */
  function SetFromRows(id: int, rows: seq<SetRow>): (s: Set)
    ensures rows == [] ==> s == ZeroSet
    ensures rows != [] ==> s.id == id && s.setlistId == 0
    ensures rows != [] && id != 0 ==> s.name == rows[0].name && s.setNum == rows[0].setNum
    ensures rows != [] && id == 0 ==> s.name == rows[|rows| - 1].name && s.setNum == rows[|rows| - 1].setNum
  {
    if rows == [] then ZeroSet
    else
      var h := if id != 0 then rows[0] else rows[|rows| - 1];
      Set(id, 0, h.setNum, h.name, TracksOfRows(rows[AfterLastNull(rows)..]))
  }

  /** One more row: the header is taken if not yet taken, and the row's track is appended, or the list emptied. */
  lemma SetFromRowsSnoc(id: int, prev: seq<SetRow>, row: SetRow)
    ensures var s := SetFromRows(id, prev);
      var h := if s.id == 0 then s.(id := id, name := row.name, setNum := row.setNum) else s;
      SetFromRows(id, prev + [row]) == h.(tracks := if row.trackId.Some? then h.tracks + [TrackOfSetRow(row)] else [])
  {
    var rows := prev + [row];
    assert rows[..|prev|] == prev;
    assert rows[|rows| - 1] == row;
    if prev != [] {
      assert rows[0] == prev[0];
    }
    if row.trackId.Some? {
      var n := AfterLastNull(prev);
      assert rows[n..] == prev[n..] + [row];
      assert (prev[n..] + [row])[..|prev[n..]|] == prev[n..];
    }
  }

  /** Reads one set from its rows. */
  method GetSet(id: int, rows: seq<SetRow>) returns (s: Set)
    ensures s == SetFromRows(id, rows)
  {
    s := ZeroSet;
    for i := 0 to |rows|
      invariant s == SetFromRows(id, rows[..i])
    {
      var row := rows[i];
      SetFromRowsSnoc(id, rows[..i], row);
      assert rows[..i + 1] == rows[..i] + [row];
      if s.id == 0 {
        s := s.(id := id, name := row.name, setNum := row.setNum);
      }
      if row.trackId.Some? {
        s := s.(tracks := s.tracks + [TrackOfSetRow(row)]);
      } else {
        s := s.(tracks := []);
      }
    }
    assert rows[..|rows|] == rows;
  }

  /** A set with at least one track row and no trackless rows lists one track per row, in row order. */
  lemma SetTracksInOrder(id: int, rows: seq<SetRow>)
    requires forall j :: 0 <= j < |rows| ==> rows[j].trackId.Some?
    ensures |SetFromRows(id, rows).tracks| == |rows|
    ensures forall j :: 0 <= j < |rows| ==> SetFromRows(id, rows).tracks[j] == TrackOfSetRow(rows[j])
  {
    if rows != [] {
      assert AfterLastNull(rows) == 0;
      assert rows[0..] == rows;
    }
  }

  // ---------------------------------------------------------------------
  // One setlist
  // ---------------------------------------------------------------------

  /** One row of the setlist query: the setlist's name and timestamp with the id of one of its sets. */
  datatype SetlistSetRow = SetlistSetRow(name: string, timestamp: int, setId: int)

  /**
    The setlist `id` read from its rows, `fetch` standing for the set query
    (None: it failed).  Name and timestamp are those of the last row, empty
    and zero when there is none.
  */
  function SetlistFromRows(id: int, rows: seq<SetlistSetRow>, fetch: int -> Option<Set>): (r: Option<Setlist>)
    ensures r.None? <==> exists j :: 0 <= j < |rows| && fetch(rows[j].setId).None?
    ensures r.Some? ==> r.value.id == id && |r.value.sets| == |rows|
    ensures r.Some? ==> forall j :: 0 <= j < |rows| ==> Some(r.value.sets[j]) == fetch(rows[j].setId)
    ensures r.Some? && rows == [] ==> r.value.name == "" && r.value.timestamp == 0
    ensures r.Some? && rows != [] ==> r.value.name == rows[|rows| - 1].name && r.value.timestamp == rows[|rows| - 1].timestamp
  {
    if rows == [] then Some(Setlist(id, "", [], 0))
    else
      var init := SetlistFromRows(id, rows[..|rows| - 1], fetch);
      var last := rows[|rows| - 1];
      var s := fetch(last.setId);
      assert forall j :: 0 <= j < |rows| - 1 ==> rows[..|rows| - 1][j] == rows[j];
      if init.None? then None
      else if s.None? then None
      else
        Some(Setlist(id, last.name, init.value.sets + [s.value], last.timestamp))
  }

  method GetSetlist(id: int, rows: seq<SetlistSetRow>, fetch: int -> Option<Set>) returns (r: Option<Setlist>)
    ensures r == SetlistFromRows(id, rows, fetch)
  {
    var name := "";
    var timestamp := 0;
    var sets: seq<Set> := [];
    for i := 0 to |rows|
      invariant SetlistFromRows(id, rows[..i], fetch) == Some(Setlist(id, name, sets, timestamp))
    {
      name := rows[i].name;
      timestamp := rows[i].timestamp;
      var s := fetch(rows[i].setId);
      assert rows[..i + 1][..i] == rows[..i];
      if s.None? {
        FailurePersists(id, rows, fetch, i + 1);
        return None;
      }
      sets := sets + [s.value];
    }
    assert rows[..|rows|] == rows;
    r := Some(Setlist(id, name, sets, timestamp));
  }

  /** Once a set lookup fails, so does every longer prefix. */
  lemma FailurePersists(id: int, rows: seq<SetlistSetRow>, fetch: int -> Option<Set>, i: nat)
    requires i <= |rows|
    requires SetlistFromRows(id, rows[..i], fetch).None?
    ensures SetlistFromRows(id, rows, fetch).None?
  {
    var j :| 0 <= j < i && fetch(rows[..i][j].setId).None?;
    assert rows[..i][j] == rows[j];
  }

  // ---------------------------------------------------------------------
  // Adding a track to a set
  // ---------------------------------------------------------------------

  /** One entry of a set's track list: the track and its sequence number. */
  datatype SetEntry = SetEntry(trackId: int, seqNum: int)

  function MaxSeq(entries: seq<SetEntry>): (m: Option<int>)
    ensures m.None? <==> entries == []
    ensures m.Some? ==> forall j :: 0 <= j < |entries| ==> entries[j].seqNum <= m.value
    ensures m.Some? ==> exists j :: 0 <= j < |entries| && entries[j].seqNum == m.value
  {
    if entries == [] then None
    else
      var rest := MaxSeq(entries[1..]);
      if rest.None? || entries[0].seqNum >= rest.value then Some(entries[0].seqNum)
      else
        assert forall j :: 1 <= j < |entries| ==> entries[j] == entries[1..][j - 1];
        rest
  }

  /**
    The sequence number the source gives a new entry: the largest present,
    or 0.  It is not above the numbers present but equal to one of them.
  */
  function NextSeqAsWritten(entries: seq<SetEntry>): (n: int)
    ensures entries == [] ==> n == 0
    ensures forall j :: 0 <= j < |entries| ==> entries[j].seqNum <= n
    ensures entries != [] ==> exists j :: 0 <= j < |entries| && entries[j].seqNum == n
  {
    var m := MaxSeq(entries);
    if m.Some? then m.value else 0
  }

  /** The source's addition: the entries are kept and the new one shares its number with an existing one, if any. */
  function AddTrackAsWritten(entries: seq<SetEntry>, tid: int): (r: seq<SetEntry>)
    ensures |r| == |entries| + 1 && r[|entries|].trackId == tid
    ensures r[..|entries|] == entries
    ensures entries == [] ==> r[0].seqNum == 0
    ensures entries != [] ==> exists j :: 0 <= j < |entries| && r[j].seqNum == r[|entries|].seqNum
  {
    entries + [SetEntry(tid, NextSeqAsWritten(entries))]
  }

  /** The sequence number meant for a new entry: one more than the largest present, or 0. */
  function NextSeq(entries: seq<SetEntry>): (n: int)
    ensures forall j :: 0 <= j < |entries| ==> entries[j].seqNum < n
  {
    var m := MaxSeq(entries);
    if m.Some? then m.value + 1 else 0
  }

  function AddTrack(entries: seq<SetEntry>, tid: int): (r: seq<SetEntry>)
    ensures |r| == |entries| + 1 && r[|entries|].trackId == tid
    ensures r[..|entries|] == entries
    ensures forall j :: 0 <= j < |entries| ==> r[j].seqNum < r[|entries|].seqNum
  {
    entries + [SetEntry(tid, NextSeq(entries))]
  }

  /** Adds the tracks one after another. */
  function AddAll(add: (seq<SetEntry>, int) -> seq<SetEntry>, entries: seq<SetEntry>, tids: seq<int>): seq<SetEntry>
    decreases |tids|
  {
    if tids == [] then entries else AddAll(add, add(entries, tids[0]), tids[1..])
  }

  predicate StrictlyIncreasing(entries: seq<SetEntry>)
  {
    forall i, j :: 0 <= i < j < |entries| ==> entries[i].seqNum < entries[j].seqNum
  }

  /** As written, every track added to a set that started empty gets sequence number 0. */
  lemma {:induction false} AsWrittenAllZero(entries: seq<SetEntry>, tids: seq<int>)
    requires forall j :: 0 <= j < |entries| ==> entries[j].seqNum == 0
    ensures var r := AddAll(AddTrackAsWritten, entries, tids);
      forall j :: 0 <= j < |r| ==> r[j].seqNum == 0
    decreases |tids|
  {
    if tids != [] {
      var next := AddTrackAsWritten(entries, tids[0]);
      assert AddAll(AddTrackAsWritten, entries, tids) == AddAll(AddTrackAsWritten, next, tids[1..]);
      assert NextSeqAsWritten(entries) == 0 by {
        if entries != [] {
          var m := MaxSeq(entries).value;
          var j :| 0 <= j < |entries| && entries[j].seqNum == m;
        }
      }
      AsWrittenAllZero(next, tids[1..]);
    }
  }

  /** So two tracks added to an empty set share sequence number 0 and their order is lost. */
  lemma AsWrittenTies(t1: int, t2: int)
    ensures var r := AddAll(AddTrackAsWritten, [], [t1, t2]);
      |r| == 2 && r[0].seqNum == r[1].seqNum
  {
    AsWrittenAllZero([], [t1, t2]);
    assert [t1, t2][1..] == [t2];
    var r1 := AddTrackAsWritten([], t1);
    assert AddAll(AddTrackAsWritten, [], [t1, t2]) == AddAll(AddTrackAsWritten, r1, [t2]);
    assert AddAll(AddTrackAsWritten, r1, [t2]) == AddTrackAsWritten(r1, t2);
  }

  /** With the intended numbering, sequence numbers stay strictly increasing, so ordering by them is insertion order. */
  lemma {:induction false} AddAllIncreasing(entries: seq<SetEntry>, tids: seq<int>)
    requires StrictlyIncreasing(entries)
    ensures var r := AddAll(AddTrack, entries, tids);
      StrictlyIncreasing(r) && |r| == |entries| + |tids| && r[..|entries|] == entries
    ensures forall j :: 0 <= j < |tids| ==> AddAll(AddTrack, entries, tids)[|entries| + j].trackId == tids[j]
    decreases |tids|
  {
    if tids != [] {
      var next := AddTrack(entries, tids[0]);
      assert StrictlyIncreasing(next);
      AddAllIncreasing(next, tids[1..]);
      var r := AddAll(AddTrack, next, tids[1..]);
      assert r[..|entries|] == r[..|next|][..|entries|];
      forall j | 0 <= j < |tids|
        ensures r[|entries| + j].trackId == tids[j]
      {
        if j == 0 {
          assert r[|entries|] == r[..|next|][|entries|];
        } else {
          assert tids[j] == tids[1..][j - 1];
        }
      }
    }
  }
}
