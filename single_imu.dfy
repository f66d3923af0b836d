/** `single_imu_stroke_detector.py`: a standalone reader for the recorder's
    CSV files feeding the same detect / filter / slice pipeline as the
    server's analyser (modelled once, in `StrokeDetection`). */
module SingleImu {
  import opened Wrappers
  import opened Text
  import opened StrokeDetection

  // ---------------------------------------------------------------------------
  // What `csv.reader` yields

  /** The physical lines of the file: the pieces between newlines, without
      the empty piece after a final newline. */
  function FileLines(content: string): seq<string> {
    var pieces := Split(content, '\n');
    if pieces[|pieces| - 1] == [] then pieces[..|pieces| - 1] else pieces
  }

  /** `next(reader)` has a header row to skip exactly when the file is not empty. */
  lemma FileLinesEmpty(content: string)
    ensures FileLines(content) == [] <==> content == []
  {
    var pieces := Split(content, '\n');
    JoinSplit(content, '\n');
    if FileLines(content) == [] {
      assert pieces == [[]];
    }
  }

  /** One line as `csv.reader` returns it: no cells for an empty line
      (`\r\n` line ends included), else its comma-separated cells. */
  function RowOf(line: string): (row: seq<string>)
    ensures row == [] <==> line == [] || line == ['\r']
  {
    var body := if |line| > 0 && line[|line| - 1] == '\r' then line[..|line| - 1] else line;
    if body == [] then [] else Split(body, ',')
  }

  /** The rows after the header. */
  function DataRows(lines: seq<string>): (rows: seq<seq<string>>)
    requires |lines| >= 1
    ensures |rows| == |lines| - 1 && forall i :: 0 <= i < |rows| ==> rows[i] == RowOf(lines[i + 1])
  {
    seq(|lines| - 1, i requires 0 <= i < |lines| - 1 => RowOf(lines[i + 1]))
  }

  // ---------------------------------------------------------------------------
  // Where the six values are taken from

  /** `[item.strip() for item in row if item.strip()]`: blank cells are
      dropped before the positions are counted. */
  function NonBlankCells(row: seq<string>): (cells: seq<string>)
    ensures |cells| <= |row|
    ensures forall j :: 0 <= j < |cells| ==> cells[j] != []
    decreases |row|
  {
    if row == [] then []
    else (if Strip(row[0]) == [] then [] else [Strip(row[0])]) + NonBlankCells(row[1..])
  }

  /** `[item.strip() for item in row]`: every cell keeps its position. */
  function StrippedCells(row: seq<string>): (cells: seq<string>)
    ensures |cells| == |row| && forall j :: 0 <= j < |row| ==> cells[j] == Strip(row[j])
  {
    seq(|row|, j requires 0 <= j < |row| => Strip(row[j]))
  }

  /** The six strings picked from one row: `acc` from positions 3 to 5,
      `gyro` from 6 to 8. */
  datatype Picked = Picked(ax: string, ay: string, az: string, gx: string, gy: string, gz: string)

  /** How the loader can fail: `next` on an empty file (`StopIteration`),
      a non-empty row with fewer than nine cells to pick from (`IndexError`),
      a picked value `float` rejects (`ValueError`). */
  datatype LoadError = EmptyFile | ShortRow(row: nat) | NotANumber

  /** The pick loop over the first `k` rows, under the cell list `cellsOf`
      gives each row: empty rows are skipped and the first short row
      stops the load. */
  function PickedUpTo(rows: seq<seq<string>>, cellsOf: seq<string> -> seq<string>, k: nat): Result<seq<Picked>, LoadError>
    requires k <= |rows|
  {
    if k == 0 then Success([])
    else match PickedUpTo(rows, cellsOf, k - 1)
      case Failure(e) => Failure(e)
      case Success(picks) =>
        if rows[k - 1] == [] then Success(picks)
        else
          var c := cellsOf(rows[k - 1]);
          if |c| < 9 then Failure(ShortRow(k - 1))
          else Success(picks + [Picked(c[3], c[4], c[5], c[6], c[7], c[8])])
  }

  /** Once a row has stopped the load, later rows change nothing. */
  lemma {:induction false} PickedFailureStays(rows: seq<seq<string>>, cellsOf: seq<string> -> seq<string>, k: nat, m: nat)
    requires k <= m <= |rows| && PickedUpTo(rows, cellsOf, k).Failure?
    ensures PickedUpTo(rows, cellsOf, m) == PickedUpTo(rows, cellsOf, k)
    decreases m
  {
    if m > k {
      PickedFailureStays(rows, cellsOf, k, m - 1);
    }
  }

  /** The rows that contribute among the first `k`: the non-empty ones. */
  function FilledUpTo(rows: seq<seq<string>>, k: nat): (idx: seq<nat>)
    requires k <= |rows|
    ensures forall j :: 0 <= j < |idx| ==> idx[j] < k
  {
    if k == 0 then [] else FilledUpTo(rows, k - 1) + (if rows[k - 1] != [] then [k - 1] else [])
  }

  /** A successful pick loop takes one entry from every non-empty row, in
      order, from positions 3 to 8 of its cell list; a failed one names the
      first non-empty row whose cell list is shorter than nine. */
  lemma PickedUpToMeaning(rows: seq<seq<string>>, cellsOf: seq<string> -> seq<string>, k: nat)
    requires k <= |rows|
    ensures PickedUpTo(rows, cellsOf, k).Success? <==>
              forall i :: 0 <= i < k && rows[i] != [] ==> |cellsOf(rows[i])| >= 9
    ensures PickedUpTo(rows, cellsOf, k).Success? ==>
              var picks := PickedUpTo(rows, cellsOf, k).value;
              var idx := FilledUpTo(rows, k);
              && |picks| == |idx|
              && forall j :: 0 <= j < |idx| ==>
                   var c := cellsOf(rows[idx[j]]);
                   |c| >= 9 && picks[j] == Picked(c[3], c[4], c[5], c[6], c[7], c[8])
    ensures PickedUpTo(rows, cellsOf, k).Failure? ==>
              PickedUpTo(rows, cellsOf, k).error.ShortRow?
              && var r := PickedUpTo(rows, cellsOf, k).error.row;
              && r < k && rows[r] != [] && |cellsOf(rows[r])| < 9
              && forall i :: 0 <= i < r && rows[i] != [] ==> |cellsOf(rows[i])| >= 9
  {
    PickedSucceeds(rows, cellsOf, k);
    PickedValues(rows, cellsOf, k);
    PickedShortRow(rows, cellsOf, k);
  }

  /** The pick loop succeeds exactly when no non-empty row is short. */
  lemma {:induction false} PickedSucceeds(rows: seq<seq<string>>, cellsOf: seq<string> -> seq<string>, k: nat)
    requires k <= |rows|
    ensures PickedUpTo(rows, cellsOf, k).Success? <==>
              forall i :: 0 <= i < k && rows[i] != [] ==> |cellsOf(rows[i])| >= 9
    decreases k
  {
    if k > 0 {
      PickedSucceeds(rows, cellsOf, k - 1);
    }
  }

  /** A successful pick loop takes one entry from every non-empty row, in order. */
  lemma {:induction false} PickedValues(rows: seq<seq<string>>, cellsOf: seq<string> -> seq<string>, k: nat)
    requires k <= |rows|
    ensures PickedUpTo(rows, cellsOf, k).Success? ==>
              var picks := PickedUpTo(rows, cellsOf, k).value;
              var idx := FilledUpTo(rows, k);
              && |picks| == |idx|
              && forall j :: 0 <= j < |idx| ==>
                   var c := cellsOf(rows[idx[j]]);
                   |c| >= 9 && picks[j] == Picked(c[3], c[4], c[5], c[6], c[7], c[8])
    decreases k
  {
    if k > 0 {
      PickedValues(rows, cellsOf, k - 1);
    }
  }

  /** A failed pick loop names the first non-empty short row. */
  lemma {:induction false} PickedShortRow(rows: seq<seq<string>>, cellsOf: seq<string> -> seq<string>, k: nat)
    requires k <= |rows|
    ensures PickedUpTo(rows, cellsOf, k).Failure? ==>
              PickedUpTo(rows, cellsOf, k).error.ShortRow?
              && var r := PickedUpTo(rows, cellsOf, k).error.row;
              && r < k && rows[r] != [] && |cellsOf(rows[r])| < 9
              && forall i :: 0 <= i < r && rows[i] != [] ==> |cellsOf(rows[i])| >= 9
    decreases k
  {
    if k > 0 {
      PickedShortRow(rows, cellsOf, k - 1);
      PickedSucceeds(rows, cellsOf, k - 1);
    }
  }

  // ---------------------------------------------------------------------------
  // `np.array(..., float)`

  /** The data as two arrays of rows. */
  datatype Imu = Imu(acc: seq<Vec3>, gyro: seq<Vec3>)

  /** Three values under the number parser `num` (`float`). */
  function ParseVec(num: string -> Option<real>, x: string, y: string, z: string): Option<Vec3> {
    match (num(x), num(y), num(z))
    case (Some(a), Some(b), Some(c)) => Some(Vec3(a, b, c))
    case _ => None
  }

  /** The conversion of the first `k` picks: `None` once any value is not a number. */
  function ConvertedUpTo(picks: seq<Picked>, num: string -> Option<real>, k: nat): Option<Imu>
    requires k <= |picks|
  {
    if k == 0 then Some(Imu([], []))
    else match ConvertedUpTo(picks, num, k - 1)
      case None => None
      case Some(imu) =>
        var p := picks[k - 1];
        match (ParseVec(num, p.ax, p.ay, p.az), ParseVec(num, p.gx, p.gy, p.gz))
        case (Some(a), Some(g)) => Some(Imu(imu.acc + [a], imu.gyro + [g]))
        case _ => None
  }

  lemma {:induction false} ConvertedNoneStays(picks: seq<Picked>, num: string -> Option<real>, k: nat, m: nat)
    requires k <= m <= |picks| && ConvertedUpTo(picks, num, k).None?
    ensures ConvertedUpTo(picks, num, m).None?
    decreases m
  {
    if m > k {
      ConvertedNoneStays(picks, num, k, m - 1);
    }
  }

  /** A conversion that succeeds keeps one row per pick, each the parsed
      values of that pick; it fails exactly when some value does not parse. */
  lemma {:induction false} ConvertedMeaning(picks: seq<Picked>, num: string -> Option<real>, k: nat)
    requires k <= |picks|
    ensures ConvertedUpTo(picks, num, k).Some? <==>
              forall j :: 0 <= j < k ==> ParseVec(num, picks[j].ax, picks[j].ay, picks[j].az).Some?
                                         && ParseVec(num, picks[j].gx, picks[j].gy, picks[j].gz).Some?
    ensures ConvertedUpTo(picks, num, k).Some? ==>
              var imu := ConvertedUpTo(picks, num, k).value;
              && |imu.acc| == |imu.gyro| == k
              && forall j :: 0 <= j < k ==>
                   && Some(imu.acc[j]) == ParseVec(num, picks[j].ax, picks[j].ay, picks[j].az)
                   && Some(imu.gyro[j]) == ParseVec(num, picks[j].gx, picks[j].gy, picks[j].gz)
    decreases k
  {
    if k > 0 {
      ConvertedMeaning(picks, num, k - 1);
    }
  }

  // ---------------------------------------------------------------------------
  // The loader

  /** What `load_single_imu_csv` returns under the cell list `cellsOf`. */
  function LoadSpec(content: string, cellsOf: seq<string> -> seq<string>): Result<Imu, LoadError> {
    var lines := FileLines(content);
    if lines == [] then Failure(EmptyFile)
    else
      var rows := DataRows(lines);
      match PickedUpTo(rows, cellsOf, |rows|)
      case Failure(e) => Failure(e)
      case Success(picks) =>
        match ConvertedUpTo(picks, PyFloat, |picks|)
        case None => Failure(NotANumber)
        case Some(imu) => Success(imu)
  }

  /** The loader's row loop: the picks, or the first short row. */
  method PickRows(rows: seq<seq<string>>, cellsOf: seq<string> -> seq<string>) returns (r: Result<seq<Picked>, LoadError>)
    ensures r == PickedUpTo(rows, cellsOf, |rows|)
  {
    var picks: seq<Picked> := [];
    for k := 0 to |rows|
      invariant PickedUpTo(rows, cellsOf, k) == Success(picks)
    {
      if rows[k] != [] {
        var c := cellsOf(rows[k]);
        if |c| < 9 {
          PickedFailureStays(rows, cellsOf, k + 1, |rows|);
          return Failure(ShortRow(k));
        }
        picks := picks + [Picked(c[3], c[4], c[5], c[6], c[7], c[8])];
      }
    }
    r := Success(picks);
  }

  /** `np.array(acc_data, float), np.array(gyro_data, float)`. */
  method ConvertPicks(picks: seq<Picked>, num: string -> Option<real>) returns (r: Option<Imu>)
    ensures r == ConvertedUpTo(picks, num, |picks|)
  {
    var acc: seq<Vec3>, gyro: seq<Vec3> := [], [];
    for k := 0 to |picks|
      invariant ConvertedUpTo(picks, num, k) == Some(Imu(acc, gyro))
    {
      var a := ParseVec(num, picks[k].ax, picks[k].ay, picks[k].az);
      var g := ParseVec(num, picks[k].gx, picks[k].gy, picks[k].gz);
      if a.None? || g.None? {
        ConvertedNoneStays(picks, num, k + 1, |picks|);
        return None;
      }
      acc, gyro := acc + [a.value], gyro + [g.value];
    }
    r := Some(Imu(acc, gyro));
  }

  /** The loader under any cell list. */
  method LoadRows(content: string, cellsOf: seq<string> -> seq<string>) returns (r: Result<Imu, LoadError>)
    ensures r == LoadSpec(content, cellsOf)
  {
    var lines := FileLines(content);
    if lines == [] {
      return Failure(EmptyFile);
    }
    var rows := DataRows(lines);
    var picked := PickRows(rows, cellsOf);
    if picked.Failure? {
      return Failure(picked.error);
    }
    var converted := ConvertPicks(picked.value, PyFloat);
    if converted.None? {
      return Failure(NotANumber);
    }
    r := Success(converted.value);
  }

  /** `load_single_imu_csv` as written: positions are counted after the
      blank cells are dropped. */
  method LoadSingleImuCsvAsWritten(content: string) returns (r: Result<Imu, LoadError>)
    ensures r == LoadSpec(content, NonBlankCells)
  {
    r := LoadRows(content, NonBlankCells);
  }

  /** `load_single_imu_csv` as evidently intended: acc is read from the
      columns 3 to 5 and gyro from 6 to 8 of the row itself. */
  method LoadSingleImuCsv(content: string) returns (r: Result<Imu, LoadError>)
    ensures r == LoadSpec(content, StrippedCells)
  {
    r := LoadRows(content, StrippedCells);
  }

  /** The loader fails with `StopIteration` exactly on an empty file; a
      `IndexError` names the first non-empty row with too few cells. */
  lemma LoadErrors(content: string, cellsOf: seq<string> -> seq<string>)
    ensures LoadSpec(content, cellsOf) == Failure(EmptyFile) <==> content == []
    ensures LoadSpec(content, cellsOf).Failure? && LoadSpec(content, cellsOf).error.ShortRow? ==>
              var rows := DataRows(FileLines(content));
              var r := LoadSpec(content, cellsOf).error.row;
              && r < |rows| && rows[r] != [] && |cellsOf(rows[r])| < 9
              && forall i :: 0 <= i < r && rows[i] != [] ==> |cellsOf(rows[i])| >= 9
  {
    FileLinesEmpty(content);
    var lines := FileLines(content);
    if lines != [] {
      var rows := DataRows(lines);
      PickedUpToMeaning(rows, cellsOf, |rows|);
    }
  }

  /** A successful load has one acc row and one gyro row per non-empty data
      row, parsed from positions 3 to 5 and 6 to 8 of that row's cell list. */
  lemma LoadedRows(content: string, cellsOf: seq<string> -> seq<string>)
    requires LoadSpec(content, cellsOf).Success?
    ensures var imu := LoadSpec(content, cellsOf).value;
            var rows := DataRows(FileLines(content));
            var idx := FilledUpTo(rows, |rows|);
            && |imu.acc| == |imu.gyro| == |idx|
            && forall j :: 0 <= j < |idx| ==>
                 var c := cellsOf(rows[idx[j]]);
                 && |c| >= 9
                 && Some(imu.acc[j]) == ParseVec(PyFloat, c[3], c[4], c[5])
                 && Some(imu.gyro[j]) == ParseVec(PyFloat, c[6], c[7], c[8])
  {
    var rows := DataRows(FileLines(content));
    PickedUpToMeaning(rows, cellsOf, |rows|);
    var picks := PickedUpTo(rows, cellsOf, |rows|).value;
    ConvertedMeaning(picks, PyFloat, |picks|);
  }

  // ---------------------------------------------------------------------------
  // The column shift

  /** Without blank cells, dropping blanks changes nothing. */
  lemma {:induction false} NonBlankCellsOfFilled(row: seq<string>)
    requires forall j :: 0 <= j < |row| ==> Strip(row[j]) != []
    ensures NonBlankCells(row) == StrippedCells(row)
    decreases |row|
  {
    if row != [] {
      NonBlankCellsOfFilled(row[1..]);
      assert StrippedCells(row) == [Strip(row[0])] + StrippedCells(row[1..]);
    }
  }

  /** A row whose second cell (the device name) is blank and whose other
      cells are not: as written, the cell list is the row without that
      cell, so acc is read from the columns AY, AZ, GX and gyro from GY,
      GZ, AngX of the recorder's header, where the positional cell list
      reads them from AX to GZ. */
  lemma BlankNameShiftsColumns(row: seq<string>)
    requires |row| >= 10 && Strip(row[1]) == []
    requires forall j :: 0 <= j < |row| && j != 1 ==> Strip(row[j]) != []
    ensures NonBlankCells(row) == [Strip(row[0])] + StrippedCells(row)[2..]
    ensures NonBlankCells(row)[3..9] == StrippedCells(row)[4..10]
  {
    var rest := row[2..];
    forall j | 0 <= j < |rest|
      ensures Strip(rest[j]) != []
    {
      assert rest[j] == row[j + 2];
    }
    NonBlankCellsOfFilled(rest);
    SkipBlankSecond(row);
    StrippedCellsSuffix(row, 2);
    DropSecondShifts(NonBlankCells(row), StrippedCells(row), Strip(row[0]));
  }

  lemma SkipBlankSecond(row: seq<string>)
    requires |row| >= 2 && Strip(row[0]) != [] && Strip(row[1]) == []
    ensures NonBlankCells(row) == [Strip(row[0])] + NonBlankCells(row[2..])
  {
    assert row[1..][1..] == row[2..];
  }

  lemma StrippedCellsSuffix(row: seq<string>, k: nat)
    requires k <= |row|
    ensures StrippedCells(row[k..]) == StrippedCells(row)[k..]
  { }

  /** Dropping the second element moves every later one a place left. */
  lemma DropSecondShifts(cells: seq<string>, all: seq<string>, x: string)
    requires |all| >= 10 && cells == [x] + all[2..]
    ensures cells[3..9] == all[4..10]
  {
    forall j | 3 <= j < 9
      ensures cells[j] == all[j + 1]
    {
      assert cells[j] == all[2..][j - 1];
    }
  }

  // ---------------------------------------------------------------------------
  // `process_single_imu_csv`

  /** What `process_single_imu_csv` returns when the loader reads its cells
      with `cellsOf`: the loader's error, or the filtered timestamps and the
      slices around them. */
  function Process(content: string, cellsOf: seq<string> -> seq<string>, threshold: real, sliceLen: int): Result<Strokes, LoadError> {
    match LoadSpec(content, cellsOf)
    case Failure(e) => Failure(e)
    case Success(imu) => Success(Pipeline(imu.acc, imu.gyro, threshold, sliceLen))
  }

  /** The pipeline behind a loader given as its cell rule. */
  method ProcessRows(content: string, cellsOf: seq<string> -> seq<string>, threshold: real, sliceLen: int) returns (r: Result<Strokes, LoadError>)
    ensures r == Process(content, cellsOf, threshold, sliceLen)
  {
    var loaded := LoadRows(content, cellsOf);
    match loaded
    case Failure(e) =>
      return Failure(e);
    case Success(imu) =>
      var timestamps := DetectStrokeTimestamps(imu.gyro, imu.acc, threshold);
      timestamps := FilterTimestamps(timestamps, MinGap);
      var accSlices, gyroSlices := ExtractStrokeSlices(imu.acc, imu.gyro, timestamps, sliceLen);
      return Success(Strokes(timestamps, accSlices, gyroSlices));
  }

  /** `process_single_imu_csv` as written, over the loader that counts
      positions after dropping blank cells. */
  method ProcessSingleImuCsvAsWritten(content: string, threshold: real, sliceLen: int) returns (r: Result<Strokes, LoadError>)
    ensures r == Process(content, NonBlankCells, threshold, sliceLen)
  {
    r := ProcessRows(content, NonBlankCells, threshold, sliceLen);
  }

  /** `process_single_imu_csv` over the positional loader. */
  method ProcessSingleImuCsv(content: string, threshold: real, sliceLen: int) returns (r: Result<Strokes, LoadError>)
    ensures r == Process(content, StrippedCells, threshold, sliceLen)
  {
    r := ProcessRows(content, StrippedCells, threshold, sliceLen);
  }

  /** The result holds exactly the filtered detections, increasing, in
      range and at least 75 rows apart, with at most one slice pair per
      timestamp, every slice `sliceLen` consecutive rows of the data. */
  lemma ProcessShape(content: string, cellsOf: seq<string> -> seq<string>, threshold: real, sliceLen: int)
    requires Process(content, cellsOf, threshold, sliceLen).Success?
    ensures var imu := LoadSpec(content, cellsOf).value;
            var s := Process(content, cellsOf, threshold, sliceLen).value;
            && s.timestamps == Filtered(Detected(imu.gyro, imu.acc, threshold), MinGap)
            && Increasing(s.timestamps)
            && (forall t :: t in s.timestamps ==> 1 <= t < |imu.gyro|)
            && (forall j :: 0 <= j < |s.timestamps| - 1 ==> s.timestamps[j + 1] - s.timestamps[j] >= MinGap)
            && |s.accSlices| == |s.gyroSlices| <= |s.timestamps|
            && (sliceLen >= 0 ==> forall j :: 0 <= j < |s.accSlices| ==>
                  |s.accSlices[j]| == |s.gyroSlices[j]| == sliceLen)
  {
    var imu := LoadSpec(content, cellsOf).value;
    LoadedRows(content, cellsOf);
    var p := Pipeline(imu.acc, imu.gyro, threshold, sliceLen);
    PipelineShape(imu.acc, imu.gyro, threshold, sliceLen);
    if sliceLen >= 0 {
      SliceLengths(imu.acc, p.timestamps, sliceLen, |imu.acc|);
      SliceLengths(imu.gyro, p.timestamps, sliceLen, |imu.acc|);
    }
  }
}
