/**
  The command line (main.go): choosing between serving and importing, and
  the CSV import, which maps each row to a track, gathers the distinct
  voice, era, genre and kit names, and plans the catalog inserts.  Reading
  the CSV file, opening the database and serving are I/O and left out.
*/
module Cli {
  import opened Entity

  // ---------------------------------------------------------------------
  // Dispatch
  // ---------------------------------------------------------------------

  datatype Command = Serve | Import(inPath: string, outPath: string) | Exit(status: int)

  /** The command for the process arguments; `args[0]`, the program name, is always present. */
  function Dispatch(args: seq<string>): Command
    requires |args| >= 1
  {
    var argv := if |args| < 2 then args + ["serve"] else args;
    if argv[1] == "import" then
      if |args| < 4 then Exit(2) else Import(args[2], args[3])
    else if argv[1] == "serve" then Serve
    else Exit(2)
  }

  /** Serving is the default; import needs both paths; anything else exits with status 2. */
  lemma DispatchCases(args: seq<string>)
    requires |args| >= 1
    ensures Dispatch(args) == Serve <==> |args| < 2 || args[1] == "serve"
    ensures Dispatch(args).Import? <==> |args| >= 4 && args[1] == "import"
    ensures Dispatch(args).Import? ==> Dispatch(args) == Import(args[2], args[3])
    ensures Dispatch(args).Exit? <==> |args| >= 2 && args[1] != "serve" && (args[1] != "import" || |args| < 4)
    ensures Dispatch(args).Exit? ==> Dispatch(args).status == 2
  {
  }

  // ---------------------------------------------------------------------
  // Cell conversions
  // ---------------------------------------------------------------------

  /** Lower-casing, on ASCII letters only. */
  function LowerChar(c: char): char
  {
    if 'A' <= c <= 'Z' then (c as int - 'A' as int + 'a' as int) as char else c
  }

  function Lower(s: string): (r: string)
    ensures |r| == |s|
    ensures forall i :: 0 <= i < |s| ==> r[i] == LowerChar(s[i])
    ensures forall i :: 0 <= i < |r| ==> !('A' <= r[i] <= 'Z')
  {
    seq(|s|, i requires 0 <= i < |s| => LowerChar(s[i]))
  }

  /** Lower-casing twice is lower-casing once. */
  lemma LowerIdempotent(s: string)
    ensures Lower(Lower(s)) == Lower(s)
  {
  }

  /** The era codes of the import file and the era names they stand for. */
  const EraText: map<string, string> := map[
    "40" := "forties", "50" := "fifties", "60" := "sixties", "70" := "seventies",
    "80" := "eighties", "90" := "nineties", "0" := "oughts", "10" := "twenty-tens", "20" := "modern"]

  /** The era name of a code; an unknown code gives the empty name. */
  function EraName(code: string): (name: string)
    ensures name == "" <==> code !in EraText
  {
    if code in EraText then EraText[code] else ""
  }

  /** Different known codes name different eras. */
  lemma EraNamesDistinct(a: string, b: string)
    requires a in EraText && b in EraText && a != b
    ensures EraName(a) != EraName(b)
  {
  }

  // ---------------------------------------------------------------------
  // Decimal integers, as Go's strconv.Atoi reads them
  // ---------------------------------------------------------------------

  const MaxUint64: nat := 0xFFFF_FFFF_FFFF_FFFF
  const MaxInt64: int := 0x7FFF_FFFF_FFFF_FFFF
  const MinInt64: int := -0x8000_0000_0000_0000

  predicate IsDigit(c: char) { '0' <= c <= '9' }

  function DigitOf(c: char): nat
    requires IsDigit(c)
  {
    (c as int - '0' as int) as nat
  }

  datatype Scanned = Scanned(value: nat) | SyntaxError | RangeError

  /** The unsigned scan from position i with value n so far: a non-digit is a syntax error, passing 2^64 - 1 a range error, whichever comes first. */
  function ScanUint(s: string, i: nat, n: nat): Scanned
    requires i <= |s| && n <= MaxUint64
    decreases |s| - i
  {
    if i == |s| then Scanned(n)
    else if !IsDigit(s[i]) then SyntaxError
    else
      var n1 := n * 10 + DigitOf(s[i]);
      if n1 > MaxUint64 then RangeError else ScanUint(s, i + 1, n1)
  }

  /**
    A decimal integer with an optional sign; text that is not one reads as 0,
    and a value out of the 64-bit range reads as the nearest bound.
  */
  function Atoi(s: string): (n: int)
    ensures MinInt64 <= n <= MaxInt64
  {
    if s == [] then 0
    else
      var neg := s[0] == '-';
      var body := if s[0] == '+' || s[0] == '-' then s[1..] else s;
      if body == [] then 0
      else
        match ScanUint(body, 0, 0)
        case SyntaxError => 0
        case RangeError => if neg then MinInt64 else MaxInt64
        case Scanned(u) =>
          if !neg && u > MaxInt64 then MaxInt64
          else if neg && u > -MinInt64 then MinInt64
          else if neg then -(u as int) else u
  }

  /** The decimal digits of n, without leading zeros. */
  function Decimal(n: nat): (s: string)
    ensures |s| >= 1
    ensures forall i :: 0 <= i < |s| ==> IsDigit(s[i])
  {
    if n < 10 then ["0123456789"[n]] else Decimal(n / 10) + ["0123456789"[n % 10]]
  }

  /** The value of the digits from position i on, starting from n. */
  function Accumulate(s: string, i: nat, n: nat): nat
    requires i <= |s|
    requires forall j :: i <= j < |s| ==> IsDigit(s[j])
    decreases |s| - i
  {
    if i == |s| then n else Accumulate(s, i + 1, n * 10 + DigitOf(s[i]))
  }

  lemma {:induction false} AccumulateGrows(s: string, i: nat, n: nat)
    requires i <= |s|
    requires forall j :: i <= j < |s| ==> IsDigit(s[j])
    ensures Accumulate(s, i, n) >= n
    decreases |s| - i
  {
    if i < |s| {
      AccumulateGrows(s, i + 1, n * 10 + DigitOf(s[i]));
    }
  }

  /** Digits whose value fits scan to that value. */
  lemma {:induction false} ScanDigits(s: string, i: nat, n: nat)
    requires i <= |s| && n <= MaxUint64
    requires forall j :: i <= j < |s| ==> IsDigit(s[j])
    requires Accumulate(s, i, n) <= MaxUint64
    ensures ScanUint(s, i, n) == Scanned(Accumulate(s, i, n))
    decreases |s| - i
  {
    if i < |s| {
      var n1 := n * 10 + DigitOf(s[i]);
      AccumulateGrows(s, i + 1, n1);
      ScanDigits(s, i + 1, n1);
    }
  }

  lemma {:induction false} AccumulateSnoc(a: string, c: char, i: nat, n: nat)
    requires i <= |a| && IsDigit(c)
    requires forall j :: i <= j < |a| ==> IsDigit(a[j])
    ensures Accumulate(a + [c], i, n) == Accumulate(a, i, n) * 10 + DigitOf(c)
    decreases |a| - i
  {
    var s := a + [c];
    if i < |a| {
      assert s[i] == a[i];
      AccumulateSnoc(a, c, i + 1, n * 10 + DigitOf(a[i]));
    } else {
      assert s[i] == c;
    }
  }

  lemma {:induction false} AccumulateDecimal(n: nat)
    ensures Accumulate(Decimal(n), 0, 0) == n
  {
    if n >= 10 {
      AccumulateDecimal(n / 10);
      AccumulateSnoc(Decimal(n / 10), "0123456789"[n % 10], 0, 0);
    }
  }

  /** Reading back the decimal digits of any value in range gives the value, with or without a minus sign. */
  lemma AtoiDecimal(n: nat)
    requires n <= MaxInt64
    ensures Atoi(Decimal(n)) == n
    ensures Atoi("-" + Decimal(n)) == -(n as int)
  {
    AccumulateDecimal(n);
    ScanDigits(Decimal(n), 0, 0);
    assert ("-" + Decimal(n))[1..] == Decimal(n);
  }

  function Pow10(k: nat): (p: nat)
    ensures p >= 1
  {
    if k == 0 then 1 else 10 * Pow10(k - 1)
  }

  /** 10^19 is below 2^64. */
  lemma Pow10Nineteen()
    ensures Pow10(19) == 10_000_000_000_000_000_000 < MaxUint64
  {
    assert Pow10(1) == 10;
    assert Pow10(2) == 100;
    assert Pow10(3) == 1000;
    assert Pow10(4) == 10000;
    assert Pow10(5) == 100000;
    assert Pow10(6) == 1000000;
    assert Pow10(7) == 10000000;
    assert Pow10(8) == 100000000;
    assert Pow10(9) == 1000000000;
    assert Pow10(10) == 10000000000;
    assert Pow10(11) == 100000000000;
    assert Pow10(12) == 1000000000000;
    assert Pow10(13) == 10000000000000;
    assert Pow10(14) == 100000000000000;
    assert Pow10(15) == 1000000000000000;
    assert Pow10(16) == 10000000000000000;
    assert Pow10(17) == 100000000000000000;
    assert Pow10(18) == 1000000000000000000;
    assert Pow10(19) == 10000000000000000000;
  }

  lemma {:induction false} Pow10Monotone(a: nat, b: nat)
    requires a <= b
    ensures Pow10(a) <= Pow10(b)
    decreases b
  {
    if a < b {
      Pow10Monotone(a, b - 1);
    }
  }

  /** Within 19 characters no value can pass 2^64 - 1, so a non-digit always makes the text unreadable. */
  lemma {:induction false} ScanShortNonDigit(s: string, i: nat, n: nat, k: nat)
    requires i <= k < |s| <= 19 && !IsDigit(s[k])
    requires n < Pow10(i) <= Pow10(19) < MaxUint64
    ensures ScanUint(s, i, n) == SyntaxError
    decreases |s| - i
  {
    if i < k && IsDigit(s[i]) {
      Pow10Monotone(i + 1, 19);
      ScanShortNonDigit(s, i + 1, n * 10 + DigitOf(s[i]), k);
    }
  }

  /** A short tempo cell with anything other than digits after the sign reads as 0. */
  lemma AtoiNonNumeric(s: string, k: nat)
    requires 0 <= k < |s| <= 19 && !IsDigit(s[k])
    requires k > 0 || (s[0] != '+' && s[0] != '-')
    ensures Atoi(s) == 0
  {
    if s[0] == '+' || s[0] == '-' {
      var body := s[1..];
      assert body[k - 1] == s[k];
      Pow10Nineteen();
      ScanShortNonDigit(body, 0, 0, k - 1);
    } else {
      Pow10Nineteen();
      ScanShortNonDigit(s, 0, 0, k);
    }
  }

  // ---------------------------------------------------------------------
  // Rows to tracks
  // ---------------------------------------------------------------------

  /**
    The track a CSV row describes.  Cells are title, kit, tempo, voice,
    click, era, genre; missing cells leave the zero value and extra cells
    are ignored.
  */
  function CsvTrack(row: seq<string>): Track
  {
    ZeroTrack.(
      title := if |row| > 0 then Lower(row[0]) else "",
      kit := Named(0, if |row| > 1 then Lower(row[1]) else ""),
      tempo := if |row| > 2 then Atoi(row[2]) else 0,
      vox := Named(0, if |row| > 3 then Lower(row[3]) else ""),
      click := |row| > 4 && row[4] == "True",
      era := Named(0, if |row| > 5 then EraName(row[5]) else ""),
      genre := Named(0, if |row| > 6 then Lower(row[6]) else ""))
  }

  /** Only the first seven cells matter: a missing cell leaves its zero value, and click is set exactly by the text "True". */
  lemma CsvTrackCells(row: seq<string>)
    ensures |row| <= 2 ==> CsvTrack(row).tempo == 0
    ensures CsvTrack(row).click <==> |row| > 4 && row[4] == "True"
    ensures |row| <= 5 ==> CsvTrack(row).era.name == ""
    ensures |row| > 5 ==> (CsvTrack(row).era.name == "" <==> row[5] !in EraText)
    ensures |row| > 7 ==> CsvTrack(row) == CsvTrack(row[..7])
    ensures CsvTrack(row).id == 0 && CsvTrack(row).keyTone == "" && CsvTrack(row).lyrics == ZeroLyrics
    ensures CsvTrack([]) == ZeroTrack
  {
  }

  /** Extending a row past its seventh cell, or changing cells there, leaves the track as it was. */
  lemma CsvTrackIgnoresExtra(row: seq<string>, extra: seq<string>)
    requires |row| >= 7
    ensures CsvTrack(row + extra) == CsvTrack(row)
  {
    var r := row + extra;
    assert r[0] == row[0] && r[1] == row[1] && r[2] == row[2] && r[3] == row[3];
    assert r[4] == row[4] && r[5] == row[5] && r[6] == row[6];
  }

  /** The value a cell of column `col` contributes to that column's name set. */
  function CellName(col: nat, v: string): string
  {
    if col == 5 then EraName(v) else Lower(v)
  }

  /** The distinct names found in column `col` of the first `n` rows. */
  function CollectedIn(rows: seq<seq<string>>, n: nat, col: nat): set<string>
    requires n <= |rows|
  {
    set j | 0 <= j < n && col < |rows[j]| :: CellName(col, rows[j][col])
  }

  /** The distinct names found in column `col` of the rows. */
  function Collected(rows: seq<seq<string>>, col: nat): set<string>
  {
    CollectedIn(rows, |rows|, col)
  }

  /** The names a row adds to a column's name set. */
  function RowNames(row: seq<string>, col: nat): set<string>
  {
    if col < |row| then {CellName(col, row[col])} else {}
  }

  lemma CollectedStep(rows: seq<seq<string>>, n: nat, col: nat)
    requires n < |rows|
    ensures CollectedIn(rows, n + 1, col) == CollectedIn(rows, n, col) + RowNames(rows[n], col)
  {
    forall v | v in CollectedIn(rows, n + 1, col)
      ensures v in CollectedIn(rows, n, col) + RowNames(rows[n], col)
    {
      var j :| 0 <= j < n + 1 && col < |rows[j]| && v == CellName(col, rows[j][col]);
    }
  }

  /** What reading the CSV rows gathers: the tracks and the four name sets. */
  datatype Gathered = Gathered(songs: seq<Track>, vox: set<string>, eras: set<string>, genres: set<string>, kits: set<string>)

  /**
    Reads one row cell by cell into a track, adding the kit, voice, era and
    genre names it holds to the name sets.
  */
  method ReadRow(row: seq<string>, g: Gathered) returns (track: Track, g': Gathered)
    ensures track == CsvTrack(row)
    ensures g' == g.(kits := g.kits + RowNames(row, 1), vox := g.vox + RowNames(row, 3),
                     eras := g.eras + RowNames(row, 5), genres := g.genres + RowNames(row, 6))
  {
    track := ZeroTrack;
    g' := g;
    for i := 0 to |row|
      invariant track == CsvTrack(row[..i])
      invariant g'.songs == g.songs
      invariant g'.kits == g.kits + RowNames(row[..i], 1) && g'.vox == g.vox + RowNames(row[..i], 3)
      invariant g'.eras == g.eras + RowNames(row[..i], 5) && g'.genres == g.genres + RowNames(row[..i], 6)
    {
      var v := row[i];
      if i == 0 {
        track := track.(title := Lower(v));
      } else if i == 1 {
        v := Lower(v);
        g' := g'.(kits := g'.kits + {v});
        track := track.(kit := track.kit.(name := v));
      } else if i == 2 {
        track := track.(tempo := Atoi(v));
      } else if i == 3 {
        v := Lower(v);
        g' := g'.(vox := g'.vox + {v});
        track := track.(vox := track.vox.(name := v));
      } else if i == 4 {
        track := track.(click := v == "True");
      } else if i == 5 {
        v := EraName(v);
        g' := g'.(eras := g'.eras + {v});
        track := track.(era := track.era.(name := v));
      } else if i == 6 {
        v := Lower(v);
        g' := g'.(genres := g'.genres + {v});
        track := track.(genre := track.genre.(name := v));
      }
      assert row[..i + 1][..i] == row[..i];
    }
    assert row[..|row|] == row;
  }

  /** The tracks of the first `n` rows, in row order. */
  function TracksIn(rows: seq<seq<string>>, n: nat): (songs: seq<Track>)
    requires n <= |rows|
    ensures |songs| == n
    ensures forall j :: 0 <= j < n ==> songs[j] == CsvTrack(rows[j])
  {
    if n == 0 then [] else TracksIn(rows, n - 1) + [CsvTrack(rows[n - 1])]
  }

  /** Maps each row to a track, collecting the names of the kit, voice, era and genre columns. */
  method GatherRows(contents: seq<seq<string>>) returns (g: Gathered)
    ensures g.songs == TracksIn(contents, |contents|)
    ensures g.kits == Collected(contents, 1) && g.vox == Collected(contents, 3)
    ensures g.eras == Collected(contents, 5) && g.genres == Collected(contents, 6)
  {
    var songs: seq<Track> := [];
    var names := Gathered([], {}, {}, {}, {});
    for r := 0 to |contents|
      invariant songs == TracksIn(contents, r)
      invariant names.kits == CollectedIn(contents, r, 1) && names.vox == CollectedIn(contents, r, 3)
      invariant names.eras == CollectedIn(contents, r, 5) && names.genres == CollectedIn(contents, r, 6)
    {
      var row := contents[r];
      var track;
      track, names := ReadRow(row, names);
      songs := songs + [track];
      CollectedStep(contents, r, 1);
      CollectedStep(contents, r, 3);
      CollectedStep(contents, r, 5);
      CollectedStep(contents, r, 6);
    }
    g := names.(songs := songs);
  }

  // ---------------------------------------------------------------------
  // The catalog inserts
  // ---------------------------------------------------------------------

  /** The four kinds of name the catalog keeps, with the import column each comes from. */
  datatype Kind = VoxKind | EraKind | GenreKind | KitKind
  {
    function Column(): nat
    {
      match this
      case VoxKind => 3
      case EraKind => 5
      case GenreKind => 6
      case KitKind => 1
    }
  }

  datatype Insert = AddName(kind: Kind, name: string) | AddSong(track: Track)

  /** Every name of a set, each exactly once, in whatever order the set yields them. */
  method Enumerate(names: set<string>) returns (order: seq<string>)
    ensures |order| == |names|
    ensures forall v :: v in names <==> v in order
    ensures Distinct(order)
  {
    order := [];
    var left := names;
    while left != {}
      invariant left <= names
      invariant forall v :: v in names <==> v in order || v in left
      invariant forall v :: v in order ==> v !in left
      invariant Distinct(order)
      invariant |order| + |left| == |names|
      decreases left
    {
      var v :| v in left;
      order := order + [v];
      left := left - {v};
    }
  }

  predicate Distinct(s: seq<string>)
  {
    forall i, j :: 0 <= i < j < |s| ==> s[i] != s[j]
  }

  /** The names inserted with the given kind, in insert order. */
  function NamesOf(plan: seq<Insert>, k: Kind): seq<string>
  {
    if plan == [] then []
    else (if plan[0].AddName? && plan[0].kind == k then [plan[0].name] else []) + NamesOf(plan[1..], k)
  }

  /** The tracks inserted, in insert order. */
  function SongsOf(plan: seq<Insert>): seq<Track>
  {
    if plan == [] then []
    else (if plan[0].AddSong? then [plan[0].track] else []) + SongsOf(plan[1..])
  }

  lemma {:induction false} NamesAppend(a: seq<Insert>, b: seq<Insert>, k: Kind)
    ensures NamesOf(a + b, k) == NamesOf(a, k) + NamesOf(b, k)
  {
    if a != [] {
      assert (a + b)[1..] == a[1..] + b;
      NamesAppend(a[1..], b, k);
    } else {
      assert a + b == b;
    }
  }

  lemma {:induction false} SongsAppend(a: seq<Insert>, b: seq<Insert>)
    ensures SongsOf(a + b) == SongsOf(a) + SongsOf(b)
  {
    if a != [] {
      assert (a + b)[1..] == a[1..] + b;
      SongsAppend(a[1..], b);
    } else {
      assert a + b == b;
    }
  }

  function NameInserts(k: Kind, names: seq<string>): (ins: seq<Insert>)
    ensures |ins| == |names|
    ensures forall i :: 0 <= i < |names| ==> ins[i] == AddName(k, names[i])
  {
    seq(|names|, i requires 0 <= i < |names| => AddName(k, names[i]))
  }

  lemma {:induction false} NameInsertsFilter(k: Kind, names: seq<string>)
    ensures forall k' :: NamesOf(NameInserts(k, names), k') == if k' == k then names else []
    ensures SongsOf(NameInserts(k, names)) == []
    decreases |names|
  {
    if names != [] {
      assert NameInserts(k, names)[1..] == NameInserts(k, names[1..]);
      NameInsertsFilter(k, names[1..]);
      assert names == [names[0]] + names[1..];
    }
  }

  function SongInserts(songs: seq<Track>): (ins: seq<Insert>)
    ensures |ins| == |songs|
    ensures forall i :: 0 <= i < |songs| ==> ins[i] == AddSong(songs[i])
  {
    seq(|songs|, i requires 0 <= i < |songs| => AddSong(songs[i]))
  }

  lemma {:induction false} SongInsertsFilter(songs: seq<Track>)
    ensures forall k :: NamesOf(SongInserts(songs), k) == []
    ensures SongsOf(SongInserts(songs)) == songs
    decreases |songs|
  {
    if songs != [] {
      assert SongInserts(songs)[1..] == SongInserts(songs[1..]);
      SongInsertsFilter(songs[1..]);
      assert songs == [songs[0]] + songs[1..];
    }
  }

  /** The name inserts of the four kinds, in the order an import makes them. */
  function NameBlocks(vox: seq<string>, eras: seq<string>, genres: seq<string>, kits: seq<string>): seq<Insert>
  {
    NameInserts(VoxKind, vox) + NameInserts(EraKind, eras) + NameInserts(GenreKind, genres) + NameInserts(KitKind, kits)
  }

  /** The block of the given kind. */
  function BlockOf(k: Kind, vox: seq<string>, eras: seq<string>, genres: seq<string>, kits: seq<string>): seq<string>
  {
    match k
    case VoxKind => vox
    case EraKind => eras
    case GenreKind => genres
    case KitKind => kits
  }

  /** Each kind's names in the name blocks are that kind's block. */
  lemma NameBlocksFilter(vox: seq<string>, eras: seq<string>, genres: seq<string>, kits: seq<string>, k: Kind)
    ensures NamesOf(NameBlocks(vox, eras, genres, kits), k) == BlockOf(k, vox, eras, genres, kits)
  {
    var a := NameInserts(VoxKind, vox);
    var b := NameInserts(EraKind, eras);
    var c := NameInserts(GenreKind, genres);
    var d := NameInserts(KitKind, kits);
    NameInsertsFilter(VoxKind, vox);
    NameInsertsFilter(EraKind, eras);
    NameInsertsFilter(GenreKind, genres);
    NameInsertsFilter(KitKind, kits);
    NamesOfFour(a, b, c, d, k);
    match k
    case VoxKind => assert vox + [] + [] + [] == vox;
    case EraKind => assert [] + eras + [] + [] == eras;
    case GenreKind => assert [] + [] + genres + [] == genres;
    case KitKind => assert [] + [] + [] + kits == kits;
  }

  /** The names of four blocks in a row are the blocks' names in a row. */
  lemma NamesOfFour(a: seq<Insert>, b: seq<Insert>, c: seq<Insert>, d: seq<Insert>, k: Kind)
    ensures NamesOf(a + b + c + d, k) == NamesOf(a, k) + NamesOf(b, k) + NamesOf(c, k) + NamesOf(d, k)
  {
    NamesAppend(a, b, k);
    NamesAppend(a + b, c, k);
    NamesAppend(a + b + c, d, k);
  }

  /** The name blocks hold no song. */
  lemma NameBlocksNoSongs(vox: seq<string>, eras: seq<string>, genres: seq<string>, kits: seq<string>)
    ensures SongsOf(NameBlocks(vox, eras, genres, kits)) == []
    ensures forall i :: 0 <= i < |NameBlocks(vox, eras, genres, kits)| ==> NameBlocks(vox, eras, genres, kits)[i].AddName?
  {
    var a := NameInserts(VoxKind, vox);
    var b := NameInserts(EraKind, eras);
    var c := NameInserts(GenreKind, genres);
    var d := NameInserts(KitKind, kits);
    NameInsertsFilter(VoxKind, vox);
    NameInsertsFilter(EraKind, eras);
    NameInsertsFilter(GenreKind, genres);
    NameInsertsFilter(KitKind, kits);
    SongsAppend(a, b);
    SongsAppend(a + b, c);
    SongsAppend(a + b + c, d);
  }

  /** The plan of an import: every name block, then every song. */
  lemma PlanShape(names: seq<Insert>, songs: seq<Track>)
    requires forall i :: 0 <= i < |names| ==> names[i].AddName?
    ensures forall i, j :: 0 <= i < j < |names + SongInserts(songs)| && (names + SongInserts(songs))[i].AddSong?
              ==> (names + SongInserts(songs))[j].AddSong?
  {
  }

  /**
    The inserts an import performs: each distinct voice, era, genre and kit
    name once, then one song per row, in row order.
  */
  method ImportPlan(contents: seq<seq<string>>) returns (plan: seq<Insert>)
    ensures forall k :: Distinct(NamesOf(plan, k))
    ensures forall k, v :: v in NamesOf(plan, k) <==> v in Collected(contents, k.Column())
    ensures SongsOf(plan) == TracksIn(contents, |contents|)
    ensures forall i, j :: 0 <= i < j < |plan| && plan[i].AddSong? ==> plan[j].AddSong?
  {
    var g := GatherRows(contents);
    var vox := Enumerate(g.vox);
    var eras := Enumerate(g.eras);
    var genres := Enumerate(g.genres);
    var kits := Enumerate(g.kits);
    var names := NameBlocks(vox, eras, genres, kits);
    var songs := SongInserts(g.songs);
    plan := names + songs;
    forall k
      ensures Distinct(NamesOf(plan, k))
      ensures forall v :: v in NamesOf(plan, k) <==> v in Collected(contents, k.Column())
    {
      NamesAppend(names, songs, k);
      NameBlocksFilter(vox, eras, genres, kits, k);
      SongInsertsFilter(g.songs);
      assert NamesOf(plan, k) == BlockOf(k, vox, eras, genres, kits);
      match k {
        case VoxKind =>
        case EraKind =>
        case GenreKind =>
        case KitKind =>
      }
    }
    NameBlocksNoSongs(vox, eras, genres, kits);
    SongsAppend(names, songs);
    SongInsertsFilter(g.songs);
    PlanShape(names, g.songs);
  }
}
