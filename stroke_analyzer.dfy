/** `TennisStrokeAnalyzer` of the backend: CSV text to accelerometer and
    gyroscope rows, the stroke detector, one estimated type per stroke
    window, the average stroke interval and the result dictionary. */
module StrokeAnalyzer {
  import opened Wrappers
  import opened Text
  import opened JsonValues
  import opened StrokeDetection
  import Recording

  // ---------------------------------------------------------------------------
  // Column mapping

  /** The six columns the analyser needs. */
  datatype Column = AX | AY | AZ | GX | GY | GZ {
    function Name(): string {
      match this
      case AX => "AX" case AY => "AY" case AZ => "AZ"
      case GX => "GX" case GY => "GY" case GZ => "GZ"
    }

    predicate IsGyro() {
      this == GX || this == GY || this == GZ
    }

    /** The position the recorder writes this value to (`AX` .. `GZ` are
        columns 3 to 8 of its rows). */
    function AppIndex(): nat {
      match this
      case AX => 3 case AY => 4 case AZ => 5
      case GX => 6 case GY => 7 case GZ => 8
    }
  }

  const ExpectedColumns: seq<Column> := [AX, AY, AZ, GX, GY, GZ]

  lemma ExpectedColumnsComplete()
    ensures forall e: Column :: e in ExpectedColumns[..|ExpectedColumns|]
  {
    assert ExpectedColumns[..|ExpectedColumns|] == ExpectedColumns;
    forall e: Column
      ensures e in ExpectedColumns
    {
      match e
      case AX => assert ExpectedColumns[0] == e;
      case AY => assert ExpectedColumns[1] == e;
      case AZ => assert ExpectedColumns[2] == e;
      case GX => assert ExpectedColumns[3] == e;
      case GY => assert ExpectedColumns[4] == e;
      case GZ => assert ExpectedColumns[5] == e;
    }
  }

  /** `expected in col_upper or col_upper in expected` */
  predicate MatchesUpper(colUpper: string, name: string) {
    Contains(colUpper, name) || Contains(name, colUpper)
  }

  /** The header cell `col` is taken for the column `e`. */
  predicate Matches(col: string, e: Column) {
    MatchesUpper(Upper(col), e.Name())
  }

  /** The last of the first `k` header cells that matches `e`: the mapping
      loop overwrites `column_mapping[e]` at every match. */
  function LastMatchUpTo(headers: seq<string>, e: Column, k: nat): (r: Option<nat>)
    requires k <= |headers|
    ensures r.Some? ==> r.value < k && Matches(headers[r.value], e)
                        && forall i :: r.value < i < k ==> !Matches(headers[i], e)
    ensures r.None? ==> forall i :: 0 <= i < k ==> !Matches(headers[i], e)
  {
    if k == 0 then None
    else if Matches(headers[k - 1], e) then Some(k - 1)
    else LastMatchUpTo(headers, e, k - 1)
  }

  /** The first of the first `k` header cells that matches `e`. */
  function FirstMatchUpTo(headers: seq<string>, e: Column, k: nat): (r: Option<nat>)
    requires k <= |headers|
    ensures r.Some? ==> r.value < k && Matches(headers[r.value], e)
                        && forall i :: 0 <= i < r.value ==> !Matches(headers[i], e)
    ensures r.None? ==> forall i :: 0 <= i < k ==> !Matches(headers[i], e)
  {
    if k == 0 then None
    else match FirstMatchUpTo(headers, e, k - 1)
      case Some(i) => Some(i)
      case None => if Matches(headers[k - 1], e) then Some(k - 1) else None
  }

  /** `mapping` has the key `e` exactly when `found` is a position, and maps
      it to that position. */
  predicate MapsTo(mapping: map<Column, nat>, e: Column, found: Option<nat>) {
    (e in mapping <==> found.Some?) && (e in mapping ==> mapping[e] == found.value)
  }

  /** The mapping loop of `_load_csv_from_string` as written: every match
      overwrites, so each column ends up at its LAST matching header cell. */
  method MapColumnsAsWritten(headers: seq<string>) returns (mapping: map<Column, nat>)
    ensures forall e :: MapsTo(mapping, e, LastMatchUpTo(headers, e, |headers|))
  {
    mapping := map[];
    for i := 0 to |headers|
      invariant forall e :: MapsTo(mapping, e, LastMatchUpTo(headers, e, i))
    {
      var colUpper := Upper(headers[i]);
      for j := 0 to |ExpectedColumns|
        invariant forall e :: MapsTo(mapping, e, if e in ExpectedColumns[..j] then LastMatchUpTo(headers, e, i + 1)
                                                 else LastMatchUpTo(headers, e, i))
      {
        var expected := ExpectedColumns[j];
        assert ExpectedColumns[..j + 1] == ExpectedColumns[..j] + [expected];
        if MatchesUpper(colUpper, expected.Name()) {
          mapping := mapping[expected := i];
        }
      }
      ExpectedColumnsComplete();
      var next := i + 1;
      forall e ensures MapsTo(mapping, e, LastMatchUpTo(headers, e, next)) {
        assert e in ExpectedColumns[..|ExpectedColumns|];
      }
    }
  }

  /** The mapping as evidently intended: the same matching rule, but the
      FIRST matching header cell wins, so a later cell whose name merely
      contains a column name (`AngX` contains `GX`) cannot take it over. */
  method MapColumns(headers: seq<string>) returns (mapping: map<Column, nat>)
    ensures forall e :: MapsTo(mapping, e, FirstMatchUpTo(headers, e, |headers|))
  {
    mapping := map[];
    for i := 0 to |headers|
      invariant forall e :: MapsTo(mapping, e, FirstMatchUpTo(headers, e, i))
    {
      var colUpper := Upper(headers[i]);
      for j := 0 to |ExpectedColumns|
        invariant forall e :: MapsTo(mapping, e, if e in ExpectedColumns[..j] then FirstMatchUpTo(headers, e, i + 1)
                                                 else FirstMatchUpTo(headers, e, i))
      {
        var expected := ExpectedColumns[j];
        assert ExpectedColumns[..j + 1] == ExpectedColumns[..j] + [expected];
        if expected !in mapping && MatchesUpper(colUpper, expected.Name()) {
          mapping := mapping[expected := i];
        }
      }
      ExpectedColumnsComplete();
    }
  }

  /** Which matching header cell a column takes: the last one, as the
      mapping loop is written, or the first one, as evidently intended. */
  datatype MatchRule = LastMatch | FirstMatch

  function MatchOf(rule: MatchRule, headers: seq<string>, e: Column): Option<nat> {
    if rule == FirstMatch then FirstMatchUpTo(headers, e, |headers|) else LastMatchUpTo(headers, e, |headers|)
  }

  /** The mapping loop under either rule. */
  method MapColumnsBy(rule: MatchRule, headers: seq<string>) returns (mapping: map<Column, nat>)
    ensures forall e :: MapsTo(mapping, e, MatchOf(rule, headers, e))
  {
    if rule == FirstMatch {
      mapping := MapColumns(headers);
    } else {
      mapping := MapColumnsAsWritten(headers);
    }
  }

  /** Where the six values of a row are read from. */
  datatype ColumnIndices = ColumnIndices(ax: nat, ay: nat, az: nat, gx: nat, gy: nat, gz: nat)

  /** The six positions under `rule`, or `None` when a required column is
      missing. */
  function ColumnsFound(rule: MatchRule, headers: seq<string>): Option<ColumnIndices> {
    if rule == FirstMatch then FirstColumns(headers) else LastColumns(headers)
  }

  function FirstColumns(headers: seq<string>): Option<ColumnIndices> {
    AllFound(FirstMatchUpTo(headers, AX, |headers|), FirstMatchUpTo(headers, AY, |headers|), FirstMatchUpTo(headers, AZ, |headers|),
             FirstMatchUpTo(headers, GX, |headers|), FirstMatchUpTo(headers, GY, |headers|), FirstMatchUpTo(headers, GZ, |headers|))
  }

  function LastColumns(headers: seq<string>): Option<ColumnIndices> {
    AllFound(LastMatchUpTo(headers, AX, |headers|), LastMatchUpTo(headers, AY, |headers|), LastMatchUpTo(headers, AZ, |headers|),
             LastMatchUpTo(headers, GX, |headers|), LastMatchUpTo(headers, GY, |headers|), LastMatchUpTo(headers, GZ, |headers|))
  }

  /** The six positions when every column was found. */
  function AllFound(ax: Option<nat>, ay: Option<nat>, az: Option<nat>, gx: Option<nat>, gy: Option<nat>, gz: Option<nat>): Option<ColumnIndices> {
    if ax.Some? && ay.Some? && az.Some? && gx.Some? && gy.Some? && gz.Some? then
      Some(ColumnIndices(ax.value, ay.value, az.value, gx.value, gy.value, gz.value))
    else None
  }

  // ---------------------------------------------------------------------------
  // Loading

  /** `csv_content.strip().split('\n')` */
  function Lines(content: string): (lines: seq<string>)
    ensures |lines| >= 1
  {
    Split(Strip(content), '\n')
  }

  /** `[v.strip() for v in line.split(',')]` */
  function Cells(line: string): (cells: seq<string>)
    ensures |cells| == |Split(line, ',')|
    ensures forall i :: 0 <= i < |cells| ==> cells[i] == Strip(Split(line, ',')[i])
  {
    var parts := Split(line, ',');
    seq(|parts|, i requires 0 <= i < |parts| => Strip(parts[i]))
  }

  /** `float(values[idx]) if idx < len(values) else 0.0`; `None` is the
      `ValueError` that makes the loader skip the row. */
  function CellValue(values: seq<string>, idx: nat): Option<real> {
    if idx < |values| then PyFloat(values[idx]) else Some(0.0)
  }

  datatype Sample = Sample(acc: Vec3, gyro: Vec3)

  /** One non-blank data line: its sample, or `None` when any of the six
      values fails to parse. */
  function ParseRow(line: string, cols: ColumnIndices): Option<Sample> {
    var values := Cells(line);
    var ax := CellValue(values, cols.ax);
    var ay := CellValue(values, cols.ay);
    var az := CellValue(values, cols.az);
    var gx := CellValue(values, cols.gx);
    var gy := CellValue(values, cols.gy);
    var gz := CellValue(values, cols.gz);
    if ax.Some? && ay.Some? && az.Some? && gx.Some? && gy.Some? && gz.Some? then
      Some(Sample(Vec3(ax.value, ay.value, az.value), Vec3(gx.value, gy.value, gz.value)))
    else None
  }

  /** `not line.strip()` */
  predicate Blank(line: string) {
    Strip(line) == []
  }

  /** What the parse loop takes from one data line under the columns
      `cols`: nothing from a blank line (`continue`) or from a line with an
      unparsable value (`except ValueError: continue`), else its sample. */
  function RowParser(cols: ColumnIndices): string -> Option<Sample> {
    line => if Blank(line) then None else ParseRow(line, cols)
  }

  /** The data line at `i` contributes a sample. */
  predicate Accepted(dataLines: seq<string>, parse: string -> Option<Sample>, i: nat)
    requires i < |dataLines|
  {
    parse(dataLines[i]).Some?
  }

  /** The samples the parse loop has collected from the first `k` data lines. */
  function ParsedUpTo(dataLines: seq<string>, parse: string -> Option<Sample>, k: nat): seq<Sample>
    requires k <= |dataLines|
  {
    if k == 0 then []
    else ParsedUpTo(dataLines, parse, k - 1)
         + (if Accepted(dataLines, parse, k - 1) then [parse(dataLines[k - 1]).value] else [])
  }

  /** The positions of the data lines that contribute, among the first `k`. */
  function AcceptedUpTo(dataLines: seq<string>, parse: string -> Option<Sample>, k: nat): (idx: seq<nat>)
    requires k <= |dataLines|
    ensures forall j :: 0 <= j < |idx| ==> idx[j] < k
  {
    if k == 0 then [] else AcceptedUpTo(dataLines, parse, k - 1) + (if Accepted(dataLines, parse, k - 1) then [k - 1] else [])
  }

  /** Lines the parser rejects are skipped; every other line gives exactly
      one sample, in order. */
  lemma {:induction false} ParsedUpToShape(dataLines: seq<string>, parse: string -> Option<Sample>, k: nat)
    requires k <= |dataLines|
    ensures |ParsedUpTo(dataLines, parse, k)| == |AcceptedUpTo(dataLines, parse, k)| <= k
    ensures forall j :: 0 <= j < |AcceptedUpTo(dataLines, parse, k)| ==>
              var i := AcceptedUpTo(dataLines, parse, k)[j];
              Accepted(dataLines, parse, i) && ParsedUpTo(dataLines, parse, k)[j] == parse(dataLines[i]).value
    ensures forall i: nat :: i in AcceptedUpTo(dataLines, parse, k) <==> i < k && Accepted(dataLines, parse, i)
  {
    if k > 0 {
      ParsedUpToShape(dataLines, parse, k - 1);
    }
  }

  /** What `_load_csv_from_string` returns under the mapping rule `rule`,
      as rows of both arrays: nothing for content of at most one line or
      with a required column missing, otherwise one sample per accepted
      data line. */
  function LoadSpec(content: string, rule: MatchRule): seq<Sample> {
    var lines := Lines(content);
    if |lines| <= 1 then []
    else match ColumnsFound(rule, Cells(lines[0]))
      case None => []
      case Some(cols) => ParsedUpTo(lines[1..], RowParser(cols), |lines| - 1)
  }

  function AccOf(samples: seq<Sample>): (acc: seq<Vec3>)
    ensures |acc| == |samples| && forall i :: 0 <= i < |samples| ==> acc[i] == samples[i].acc
  {
    seq(|samples|, i requires 0 <= i < |samples| => samples[i].acc)
  }

  function GyroOf(samples: seq<Sample>): (gyro: seq<Vec3>)
    ensures |gyro| == |samples| && forall i :: 0 <= i < |samples| ==> gyro[i] == samples[i].gyro
  {
    seq(|samples|, i requires 0 <= i < |samples| => samples[i].gyro)
  }

  /** The parse loop over the data lines, for any per-line parser. */
  method ParseDataLines(dataLines: seq<string>, parse: string -> Option<Sample>) returns (acc: seq<Vec3>, gyro: seq<Vec3>)
    ensures acc == AccOf(ParsedUpTo(dataLines, parse, |dataLines|))
    ensures gyro == GyroOf(ParsedUpTo(dataLines, parse, |dataLines|))
  {
    acc, gyro := [], [];
    for n := 0 to |dataLines|
      invariant acc == AccOf(ParsedUpTo(dataLines, parse, n))
      invariant gyro == GyroOf(ParsedUpTo(dataLines, parse, n))
    {
      var sample := parse(dataLines[n]);
      if sample.Some? {
        assert ParsedUpTo(dataLines, parse, n + 1) == ParsedUpTo(dataLines, parse, n) + [sample.value];
        acc := acc + [sample.value.acc];
        gyro := gyro + [sample.value.gyro];
      }
    }
  }

  /** `_load_csv_from_string` under the mapping rule `rule`. */
  method LoadCsvWith(content: string, rule: MatchRule) returns (acc: seq<Vec3>, gyro: seq<Vec3>)
    ensures acc == AccOf(LoadSpec(content, rule)) && gyro == GyroOf(LoadSpec(content, rule))
    ensures |acc| == |gyro|
  {
    var lines := Lines(content);
    if |lines| <= 1 {
      assert LoadSpec(content, rule) == [];
      return [], [];
    }
    var headers := Cells(lines[0]);
    var mapping := MapColumnsBy(rule, headers);
    assert MapsTo(mapping, AX, MatchOf(rule, headers, AX));
    assert MapsTo(mapping, AY, MatchOf(rule, headers, AY));
    assert MapsTo(mapping, AZ, MatchOf(rule, headers, AZ));
    assert MapsTo(mapping, GX, MatchOf(rule, headers, GX));
    assert MapsTo(mapping, GY, MatchOf(rule, headers, GY));
    assert MapsTo(mapping, GZ, MatchOf(rule, headers, GZ));
    if !(AX in mapping && AY in mapping && AZ in mapping && GX in mapping && GY in mapping && GZ in mapping) {
      LoadSpecMissing(content, rule, lines, headers);
      return [], [];
    }
    var cols := ColumnIndices(mapping[AX], mapping[AY], mapping[AZ], mapping[GX], mapping[GY], mapping[GZ]);
    assert ColumnsFound(rule, headers) == Some(cols);
    acc, gyro := ParseDataLines(lines[1..], RowParser(cols));
    LoadSpecFound(content, rule, lines, headers, cols);
  }

  /** `_load_csv_from_string` as written: the last matching cell wins. */
  method LoadCsvFromStringAsWritten(content: string) returns (acc: seq<Vec3>, gyro: seq<Vec3>)
    ensures acc == AccOf(LoadSpec(content, LastMatch)) && gyro == GyroOf(LoadSpec(content, LastMatch))
  {
    acc, gyro := LoadCsvWith(content, LastMatch);
  }

  /** `_load_csv_from_string` as evidently intended: the first matching
      cell wins. */
  method LoadCsvFromString(content: string) returns (acc: seq<Vec3>, gyro: seq<Vec3>)
    ensures acc == AccOf(LoadSpec(content, FirstMatch)) && gyro == GyroOf(LoadSpec(content, FirstMatch))
  {
    acc, gyro := LoadCsvWith(content, FirstMatch);
  }

  /** `LoadSpec` when a required column is missing. */
  lemma LoadSpecMissing(content: string, rule: MatchRule, lines: seq<string>, headers: seq<string>)
    requires lines == Lines(content) && |lines| > 1 && headers == Cells(lines[0])
    requires ColumnsFound(rule, headers).None?
    ensures LoadSpec(content, rule) == []
  { }

  /** `LoadSpec` when all six columns are found at `cols`. */
  lemma LoadSpecFound(content: string, rule: MatchRule, lines: seq<string>, headers: seq<string>, cols: ColumnIndices)
    requires lines == Lines(content) && |lines| > 1 && headers == Cells(lines[0])
    requires ColumnsFound(rule, headers) == Some(cols)
    ensures LoadSpec(content, rule) == ParsedUpTo(lines[1..], RowParser(cols), |lines[1..]|)
  {
    assert |lines[1..]| == |lines| - 1;
  }

  // ---------------------------------------------------------------------------
  // The recorder's header

  /** The header as the recorder writes it, upper-cased column by column. */
  const UpperHeaderColumns: seq<string> :=
    ["TIMESTAMP", "DEVICENAME", "MAC", "AX", "AY", "AZ", "GX", "GY", "GZ",
     "ANGX", "ANGY", "ANGZ", "HX", "HY", "HZ", "ELECTRIC", "TEMP"]

  /** A line whose comma-separated parts carry no surrounding blanks splits
      into exactly those parts. */
  lemma CellsUnpadded(line: string, parts: seq<string>)
    requires Split(line, ',') == parts
    requires forall k :: 0 <= k < |parts| ==> parts[k] == [] || (!IsSpace(parts[k][0]) && !IsSpace(parts[k][|parts[k]| - 1]))
    ensures Cells(line) == parts
  {
    forall k | 0 <= k < |parts|
      ensures Strip(parts[k]) == parts[k]
    {
      StripUnpadded(parts[k]);
    }
  }

  /** Splitting and stripping the recorder's header line gives its column names. */
  lemma AppHeaderCells()
    ensures Cells(Recording.Header) == Recording.HeaderColumns
  {
    Recording.HeaderColumnsSplit();
    HeaderColumnsUnpadded();
    CellsUnpadded(Recording.Header, Recording.HeaderColumns);
  }

  /** No column name of the recorder's header begins or ends with a blank. */
  lemma HeaderColumnsUnpadded()
    ensures forall k :: 0 <= k < |Recording.HeaderColumns| ==>
              Recording.HeaderColumns[k] == [] || (!IsSpace(Recording.HeaderColumns[k][0])
                                                   && !IsSpace(Recording.HeaderColumns[k][|Recording.HeaderColumns[k]| - 1]))
  {
    forall k | 0 <= k < |Recording.HeaderColumns|
      ensures Recording.HeaderColumns[k] != [] && !IsSpace(Recording.HeaderColumns[k][0])
              && !IsSpace(Recording.HeaderColumns[k][|Recording.HeaderColumns[k]| - 1])
    {
    }
  }

  lemma UpperAppHeader()
    ensures |UpperHeaderColumns| == |Recording.HeaderColumns|
    ensures forall k :: 0 <= k < |Recording.HeaderColumns| ==> Upper(Recording.HeaderColumns[k]) == UpperHeaderColumns[k]
  {
  }

  /** In the recorder's header, a column name matches its own column and,
      for the gyroscope, the angle column three places further on
      (`ANGX` contains `GX`), and nothing else. */
  lemma AppHeaderMatches()
    ensures forall k, e: Column :: 0 <= k < |Recording.HeaderColumns| ==>
              (Matches(Recording.HeaderColumns[k], e) <==> k == e.AppIndex() || (e.IsGyro() && k == e.AppIndex() + 3))
  {
    UpperAppHeader();
    forall k, e: Column | 0 <= k < |Recording.HeaderColumns|
      ensures Matches(Recording.HeaderColumns[k], e) <==> k == e.AppIndex() || (e.IsGyro() && k == e.AppIndex() + 3)
    {
      UpperMatches(k, e);
    }
  }

  /** Against a two-letter column name, a longer cell matches only by
      holding its two letters side by side, and a two-letter cell only by
      being that name. */
  lemma MatchesName(u: string, e: Column)
    ensures |u| > 2 ==>
              (MatchesUpper(u, e.Name()) <==> exists i :: 0 <= i < |u| - 1 && u[i] == e.Name()[0] && u[i + 1] == e.Name()[1])
    ensures |u| == 2 ==> (MatchesUpper(u, e.Name()) <==> u == e.Name())
  {
    assert e.Name() == [e.Name()[0], e.Name()[1]];
    ContainsPair(u, e.Name()[0], e.Name()[1]);
    ContainsLonger(e.Name(), u);
    if |u| == 2 {
      ContainsSameLength(u, e.Name());
      ContainsSameLength(e.Name(), u);
    }
  }

  lemma UpperMatches(k: nat, e: Column)
    requires k < |UpperHeaderColumns|
    ensures MatchesUpper(UpperHeaderColumns[k], e.Name()) <==> k == e.AppIndex() || (e.IsGyro() && k == e.AppIndex() + 3)
  {
    var u := UpperHeaderColumns[k];
    if k <= 2 || k >= 15 {
      NoAxisLetter(u, e);
    } else if 9 <= k <= 11 {
      AngleCellMatches(u, u[3], e);
    } else {
      MatchesName(u, e);
    }
  }

  /** A longer cell without any of the letters X, Y, Z matches no column. */
  lemma NoAxisLetter(u: string, e: Column)
    requires |u| > 2
    requires forall i :: 0 <= i < |u| ==> u[i] != 'X' && u[i] != 'Y' && u[i] != 'Z'
    ensures !MatchesUpper(u, e.Name())
  {
    MatchesName(u, e);
  }

  /** `ANGX`, `ANGY`, `ANGZ` match exactly the gyroscope column of their axis. */
  lemma AngleCellMatches(u: string, c: char, e: Column)
    requires u == ['A', 'N', 'G', c]
    ensures MatchesUpper(u, e.Name()) <==> e.Name() == ['G', c]
  {
    MatchesName(u, e);
    var n := e.Name();
    assert n == [n[0], n[1]] && n[1] != 'N' && n[1] != 'G';
    if n == ['G', c] {
      assert u[2] == n[0] && u[3] == n[1];
    }
  }

  /** As written, the mapping takes the gyroscope values of the recorder's
      own files from the angle columns `AngX`, `AngY`, `AngZ` (9 to 11)
      instead of `GX`, `GY`, `GZ` (6 to 8). */
  lemma AppHeaderGyroFromAngles()
    ensures forall e: Column ::
              LastMatchUpTo(Recording.HeaderColumns, e, |Recording.HeaderColumns|)
              == Some(if e.IsGyro() then e.AppIndex() + 3 else e.AppIndex())
  {
    forall e: Column
      ensures LastMatchUpTo(Recording.HeaderColumns, e, |Recording.HeaderColumns|)
              == Some(if e.IsGyro() then e.AppIndex() + 3 else e.AppIndex())
    {
      HeaderLastMatch(e);
    }
  }

  /** Where one column lands under the last-match rule. */
  lemma HeaderLastMatch(e: Column)
    ensures LastMatchUpTo(Recording.HeaderColumns, e, |Recording.HeaderColumns|)
            == Some(if e.IsGyro() then e.AppIndex() + 3 else e.AppIndex())
  {
    AppHeaderMatches();
    var r := LastMatchUpTo(Recording.HeaderColumns, e, |Recording.HeaderColumns|);
    var want := if e.IsGyro() then e.AppIndex() + 3 else e.AppIndex();
    assert Matches(Recording.HeaderColumns[want], e);
    assert r.Some?;
  }

  /** With the first match winning, every column of the recorder's header
      is found at its own position. */
  lemma AppHeaderFirstMatches()
    ensures forall e: Column :: FirstMatchUpTo(Recording.HeaderColumns, e, |Recording.HeaderColumns|) == Some(e.AppIndex())
  {
    var h := Recording.HeaderColumns;
    UpperAppHeader();
    forall e: Column
      ensures FirstMatchUpTo(h, e, |h|) == Some(e.AppIndex())
    {
      var p := e.AppIndex();
      forall i | 0 <= i < p
        ensures !Matches(h[i], e)
      {
        UpperMatches(i, e);
      }
      UpperMatches(p, e);
      FirstMatchIs(h, e, p);
    }
  }

  /** The first match is the matching cell with no match before it. */
  lemma FirstMatchIs(headers: seq<string>, e: Column, p: nat)
    requires p < |headers| && Matches(headers[p], e)
    requires forall i :: 0 <= i < p ==> !Matches(headers[i], e)
    ensures FirstMatchUpTo(headers, e, |headers|) == Some(p)
  {
    var r := FirstMatchUpTo(headers, e, |headers|);
    assert r.Some?;
  }

  /** With the first match winning, the recorder's files are read from
      exactly the columns the recorder writes the six values to. */
  lemma AppHeaderMapsMotionColumns()
    ensures FirstColumns(Cells(Recording.Header)) == Some(ColumnIndices(3, 4, 5, 6, 7, 8))
  {
    AppHeaderCells();
    AppHeaderFirstMatches();
    var h := Recording.HeaderColumns;
    assert FirstMatchUpTo(h, AX, |h|) == Some(AX.AppIndex());
    assert FirstMatchUpTo(h, AY, |h|) == Some(AY.AppIndex());
    assert FirstMatchUpTo(h, AZ, |h|) == Some(AZ.AppIndex());
    assert FirstMatchUpTo(h, GX, |h|) == Some(GX.AppIndex());
    assert FirstMatchUpTo(h, GY, |h|) == Some(GY.AppIndex());
    assert FirstMatchUpTo(h, GZ, |h|) == Some(GZ.AppIndex());
    FirstMatchesAtAppIndices(h);
  }

  lemma FirstMatchesAtAppIndices(h: seq<string>)
    requires FirstMatchUpTo(h, AX, |h|) == Some(3) && FirstMatchUpTo(h, AY, |h|) == Some(4)
    requires FirstMatchUpTo(h, AZ, |h|) == Some(5) && FirstMatchUpTo(h, GX, |h|) == Some(6)
    requires FirstMatchUpTo(h, GY, |h|) == Some(7) && FirstMatchUpTo(h, GZ, |h|) == Some(8)
    ensures FirstColumns(h) == Some(ColumnIndices(3, 4, 5, 6, 7, 8))
  {
  }

  /** As written, the recorder's files are read with acc from columns 3 to
      5 and the "gyro" values from the angle columns 9 to 11. */
  lemma AppHeaderAsWrittenColumns()
    ensures LastColumns(Cells(Recording.Header)) == Some(ColumnIndices(3, 4, 5, 9, 10, 11))
  {
    AppHeaderCells();
    HeaderColumnsAsWritten();
  }

  lemma HeaderColumnsAsWritten()
    ensures LastColumns(Recording.HeaderColumns) == Some(ColumnIndices(3, 4, 5, 9, 10, 11))
  {
    HeaderLastMatch(AX);
    HeaderLastMatch(AY);
    HeaderLastMatch(AZ);
    HeaderLastMatch(GX);
    HeaderLastMatch(GY);
    HeaderLastMatch(GZ);
    LastMatchesShifted(Recording.HeaderColumns);
  }

  lemma LastMatchesShifted(h: seq<string>)
    requires LastMatchUpTo(h, AX, |h|) == Some(3) && LastMatchUpTo(h, AY, |h|) == Some(4)
    requires LastMatchUpTo(h, AZ, |h|) == Some(5) && LastMatchUpTo(h, GX, |h|) == Some(9)
    requires LastMatchUpTo(h, GY, |h|) == Some(10) && LastMatchUpTo(h, GZ, |h|) == Some(11)
    ensures LastColumns(h) == Some(ColumnIndices(3, 4, 5, 9, 10, 11))
  {
  }

  // ---------------------------------------------------------------------------
  // Stroke types

  /** `_classify_stroke_type`'s four answers. */
  datatype StrokeType = LightShot | NormalShot | PowerShot | VeryPowerfulShot {
    function Label(): string {
      match this
      case LightShot => "轻击/短球"
      case NormalShot => "正常击球"
      case PowerShot => "强力击球"
      case VeryPowerfulShot => "非常强力击球"
    }

    function Rank(): nat {
      match this
      case LightShot => 0 case NormalShot => 1 case PowerShot => 2 case VeryPowerfulShot => 3
    }
  }

  /** `_classify_stroke_type` on the peak acceleration and rotation magnitudes. */
  function ClassifyStrokeType(peakAcc: real, peakRot: real): StrokeType {
    if peakAcc < 2.0 && peakRot < 200.0 then LightShot
    else if peakAcc < 5.0 && peakRot < 500.0 then NormalShot
    else if peakAcc < 8.0 then PowerShot
    else VeryPowerfulShot
  }

  /** The same decision on squared magnitudes, which needs no square root. */
  function ClassifySquared(acc2: real, rot2: real): StrokeType {
    if acc2 < 4.0 && rot2 < 40000.0 then LightShot
    else if acc2 < 25.0 && rot2 < 250000.0 then NormalShot
    else if acc2 < 64.0 then PowerShot
    else VeryPowerfulShot
  }

  /** The four labels are distinct, so the label names the type. */
  lemma LabelsDistinct(s: StrokeType, t: StrokeType)
    ensures s.Label() == t.Label() <==> s == t
  {
  }

  /** A stronger stroke never gets a weaker type. */
  lemma ClassifyMonotone(a: real, r: real, a': real, r': real)
    requires a <= a' && r <= r'
    ensures ClassifyStrokeType(a, r).Rank() <= ClassifyStrokeType(a', r').Rank()
  {
  }

  lemma PositiveProduct(x: real, y: real)
    requires x > 0.0 && y > 0.0
    ensures x * y > 0.0
  { }

  lemma NonNegativeProduct(x: real, y: real)
    requires x >= 0.0 && y >= 0.0
    ensures x * y >= 0.0
  { }

  /** On non-negative values, squaring keeps the order against a positive bound. */
  lemma SquareBelow(a: real, c: real)
    requires a >= 0.0 && c > 0.0
    ensures a < c <==> a * a < c * c
  {
    if a < c {
      PositiveProduct(c - a, c + a);
      assert c * c - a * a == (c - a) * (c + a);
      assert a * a < c * c;
    } else {
      NonNegativeProduct(a - c, a + c);
      assert a * a - c * c == (a - c) * (a + c);
      assert c * c <= a * a;
    }
  }

  /** Comparing squares against squared thresholds decides as the source
      does on the magnitudes. */
  lemma ClassifySquaredAgrees(a: real, r: real)
    requires a >= 0.0 && r >= 0.0
    ensures ClassifySquared(a * a, r * r) == ClassifyStrokeType(a, r)
  {
    SquareBelow(a, 2.0);
    SquareBelow(a, 5.0);
    SquareBelow(a, 8.0);
    SquareBelow(r, 200.0);
    SquareBelow(r, 500.0);
  }

  function Norm2(v: Vec3): (m: real)
    ensures m >= 0.0
  {
    v.x * v.x + v.y * v.y + v.z * v.z
  }

  /** `np.max(np.sum(a ** 2, axis=1))`: the largest squared magnitude. */
  function PeakSquared(s: seq<Vec3>): (m: real)
    requires |s| > 0
    ensures forall j :: 0 <= j < |s| ==> Norm2(s[j]) <= m
    ensures exists j :: 0 <= j < |s| && Norm2(s[j]) == m
    decreases |s|
  {
    if |s| == 1 then Norm2(s[0])
    else
      var rest := PeakSquared(s[1..]);
      assert forall j :: 1 <= j < |s| ==> s[j] == s[1..][j - 1];
      if Norm2(s[0]) >= rest then Norm2(s[0]) else rest
  }

  /** The estimated type of one stroke window. */
  function SliceType(accSlice: seq<Vec3>, gyroSlice: seq<Vec3>): StrokeType
    requires |accSlice| > 0 && |gyroSlice| > 0
  {
    ClassifySquared(PeakSquared(accSlice), PeakSquared(gyroSlice))
  }

  /** `SliceType` is `_classify_stroke_type` applied to the peak magnitudes
      `peak_acceleration` and `peak_rotation` (the square roots of the
      peak squared magnitudes). */
  lemma SliceTypeIsPeakClassification(accSlice: seq<Vec3>, gyroSlice: seq<Vec3>, peakAcc: real, peakRot: real)
    requires |accSlice| > 0 && |gyroSlice| > 0
    requires peakAcc >= 0.0 && peakAcc * peakAcc == PeakSquared(accSlice)
    requires peakRot >= 0.0 && peakRot * peakRot == PeakSquared(gyroSlice)
    ensures SliceType(accSlice, gyroSlice) == ClassifyStrokeType(peakAcc, peakRot)
  {
    ClassifySquaredAgrees(peakAcc, peakRot);
  }

  /** The types `_analyze_strokes` has computed for the first `k` slice
      pairs, or `None` once a pair held an empty slice: `np.sum(..., axis=1)`
      of the one-dimensional empty array raises, and the analyser's `except`
      turns that into a failure. */
  function ClassifiedUpTo(accSlices: seq<seq<Vec3>>, gyroSlices: seq<seq<Vec3>>, k: nat): Option<seq<StrokeType>>
    requires k <= |accSlices| && k <= |gyroSlices|
  {
    if k == 0 then Some([])
    else match ClassifiedUpTo(accSlices, gyroSlices, k - 1)
      case None => None
      case Some(types) =>
        if |accSlices[k - 1]| == 0 || |gyroSlices[k - 1]| == 0 then None
        else Some(types + [SliceType(accSlices[k - 1], gyroSlices[k - 1])])
  }

  /** The classification fails exactly when one of the pairs has an empty
      slice; otherwise pair `i` gets `SliceType` of its two slices. */
  lemma ClassifiedMeaning(accSlices: seq<seq<Vec3>>, gyroSlices: seq<seq<Vec3>>, k: nat)
    requires k <= |accSlices| && k <= |gyroSlices|
    ensures ClassifiedUpTo(accSlices, gyroSlices, k).None? <==>
              exists i :: 0 <= i < k && (|accSlices[i]| == 0 || |gyroSlices[i]| == 0)
    ensures ClassifiedUpTo(accSlices, gyroSlices, k).Some? ==>
              var types := ClassifiedUpTo(accSlices, gyroSlices, k).value;
              |types| == k
              && forall i :: 0 <= i < k ==> |accSlices[i]| > 0 && |gyroSlices[i]| > 0
                                            && types[i] == SliceType(accSlices[i], gyroSlices[i])
  {
    ClassifiedFails(accSlices, gyroSlices, k);
    ClassifiedTypes(accSlices, gyroSlices, k);
  }

  /** The classification of the first `k` pairs fails exactly when one of them has an empty slice. */
  lemma {:induction false} ClassifiedFails(accSlices: seq<seq<Vec3>>, gyroSlices: seq<seq<Vec3>>, k: nat)
    requires k <= |accSlices| && k <= |gyroSlices|
    ensures ClassifiedUpTo(accSlices, gyroSlices, k).None? <==>
              exists i :: 0 <= i < k && (|accSlices[i]| == 0 || |gyroSlices[i]| == 0)
  {
    if k > 0 {
      ClassifiedFails(accSlices, gyroSlices, k - 1);
    }
  }

  /** A successful classification of the first `k` pairs gives pair `i` the type of its slices. */
  lemma {:induction false} ClassifiedTypes(accSlices: seq<seq<Vec3>>, gyroSlices: seq<seq<Vec3>>, k: nat)
    requires k <= |accSlices| && k <= |gyroSlices|
    ensures ClassifiedUpTo(accSlices, gyroSlices, k).Some? ==>
              var types := ClassifiedUpTo(accSlices, gyroSlices, k).value;
              |types| == k
              && forall i :: 0 <= i < k ==> |accSlices[i]| > 0 && |gyroSlices[i]| > 0
                                            && types[i] == SliceType(accSlices[i], gyroSlices[i])
  {
    if k > 0 {
      ClassifiedTypes(accSlices, gyroSlices, k - 1);
    }
  }

  /** `_analyze_strokes`, reduced to the estimated type per stroke; `zip`
      pairs the slices up to the shorter list. */
  method AnalyzeStrokes(accSlices: seq<seq<Vec3>>, gyroSlices: seq<seq<Vec3>>) returns (types: Option<seq<StrokeType>>)
    ensures types == ClassifiedUpTo(accSlices, gyroSlices, Min(|accSlices|, |gyroSlices|))
  {
    if |accSlices| == 0 {
      return Some([]);
    }
    var pairs := Min(|accSlices|, |gyroSlices|);
    var analysis: seq<StrokeType> := [];
    for i := 0 to pairs
      invariant ClassifiedUpTo(accSlices, gyroSlices, i) == Some(analysis)
    {
      if |accSlices[i]| == 0 || |gyroSlices[i]| == 0 {
        ClassifiedMeaning(accSlices, gyroSlices, pairs);
        return None;
      }
      analysis := analysis + [SliceType(accSlices[i], gyroSlices[i])];
    }
    types := Some(analysis);
  }

  function Min(a: nat, b: nat): nat {
    if a <= b then a else b
  }

  // ---------------------------------------------------------------------------
  // Average interval

  function Sum(s: seq<int>): int
    decreases |s|
  {
    if s == [] then 0 else s[0] + Sum(s[1..])
  }

  /** `[timestamps[i] - timestamps[i-1] for i in range(1, len(timestamps))]` */
  function Intervals(ts: seq<int>): (d: seq<int>)
    ensures |d| == if |ts| == 0 then 0 else |ts| - 1
    ensures forall i :: 0 <= i < |d| ==> d[i] == ts[i + 1] - ts[i]
  {
    if |ts| == 0 then [] else seq(|ts| - 1, i requires 0 <= i < |ts| - 1 => ts[i + 1] - ts[i])
  }

  /** `_calculate_average_interval`, in seconds at 5 Hz: `None` is "N/A". */
  function AverageInterval(ts: seq<int>): Option<real> {
    if |ts| < 2 then None
    else Some(Sum(Intervals(ts)) as real / (|ts| - 1) as real / 5.0)
  }

  /** The text the result carries: "N/A", or the seconds formatted by
      `format1` (`%.1f`) followed by "秒". */
  function AverageIntervalText(ts: seq<int>, format1: real -> string): string {
    match AverageInterval(ts)
    case None => "N/A"
    case Some(v) => format1(v) + "秒"
  }

  lemma {:induction false} IntervalsTelescope(ts: seq<int>)
    requires |ts| >= 1
    ensures Sum(Intervals(ts)) == ts[|ts| - 1] - ts[0]
    decreases |ts|
  {
    var d := Intervals(ts);
    if |ts| == 1 {
      assert d == [];
    } else {
      var rest := ts[1..];
      IntervalsTelescope(rest);
      var e := Intervals(rest);
      assert |d[1..]| == |e|;
      forall i | 0 <= i < |e|
        ensures d[1..][i] == e[i]
      {
        assert d[i + 1] == ts[i + 2] - ts[i + 1];
        assert e[i] == rest[i + 1] - rest[i];
      }
      assert d[1..] == e;
      assert Sum(d) == d[0] + Sum(d[1..]);
      assert rest[|rest| - 1] == ts[|ts| - 1];
    }
  }

  lemma {:induction false} SumAtLeast(s: seq<int>, g: int)
    requires forall i :: 0 <= i < |s| ==> s[i] >= g
    ensures Sum(s) >= g * |s|
    decreases |s|
  {
    if s != [] {
      SumAtLeast(s[1..], g);
    }
  }

  /** The mean of the intervals is the span from the first to the last
      timestamp over the number of intervals; "N/A" exactly below two
      timestamps. */
  lemma AverageIntervalMeaning(ts: seq<int>)
    ensures AverageInterval(ts).None? <==> |ts| < 2
    ensures |ts| >= 2 ==> AverageInterval(ts) == Some((ts[|ts| - 1] - ts[0]) as real / (|ts| - 1) as real / 5.0)
  {
    if |ts| >= 2 {
      IntervalsTelescope(ts);
      var total := Sum(Intervals(ts));
      assert total == ts[|ts| - 1] - ts[0];
      assert AverageInterval(ts) == Some(total as real / (|ts| - 1) as real / 5.0);
    }
  }

  /** Timestamps at least `gap` apart average at least `gap / 5` seconds apart. */
  lemma AverageIntervalAtLeast(ts: seq<int>, gap: int)
    requires |ts| >= 2
    requires forall j :: 0 <= j < |ts| - 1 ==> ts[j + 1] - ts[j] >= gap
    ensures AverageInterval(ts).Some? && AverageInterval(ts).value >= gap as real / 5.0
  {
    var d := Intervals(ts);
    SumAtLeast(d, gap);
    var k := |ts| - 1;
    assert Sum(d) >= gap * k;
    MeanAtLeast(Sum(d), k, gap);
    var mean := Sum(d) as real / k as real;
    assert AverageInterval(ts).value == mean / 5.0;
  }

  /** A total of at least `g * k` over `k > 0` parts has a mean of at least `g`. */
  lemma MeanAtLeast(total: int, k: int, g: int)
    requires k > 0 && total >= g * k
    ensures total as real / k as real >= g as real
  {
    var t := total as real;
    var n := k as real;
    assert (g * k) as real == g as real * n;
    var q := t / n;
    assert q * n == t;
    if q < g as real {
      PositiveProduct(g as real - q, n);
      assert (g as real - q) * n == g as real * n - q * n;
    }
  }

  // ---------------------------------------------------------------------------
  // The analysis result

  /** What `analyze_stroke_from_csv_content` returns, without its clock
      readings and floating-point features. */
  datatype StrokeReport =
    | NoValidData
    | AnalysisFailed(reason: string)
    | Analyzed(timestamps: seq<int>, strokeTypes: seq<StrokeType>, totalDataPoints: nat, averageInterval: Option<real>)

  /** numpy's `AxisError` message for `np.sum(a ** 2, axis=1)` on an empty
      slice: `np.array([])` of the empty list `tolist()` gives is
      one-dimensional, so axis 1 does not exist. */
  const EmptySliceAxisError: string := "axis 1 is out of bounds for array of dimension 1"

  /** The analysis of loaded samples: nothing loaded, a failure raised by
      an empty window, or the filtered timestamps with one type per window. */
  function Analysis(samples: seq<Sample>, threshold: real, w: int): StrokeReport {
    if samples == [] then NoValidData
    else
      var p := Pipeline(AccOf(samples), GyroOf(samples), threshold, w);
      match ClassifiedUpTo(p.accSlices, p.gyroSlices, Min(|p.accSlices|, |p.gyroSlices|))
      case None => AnalysisFailed(EmptySliceAxisError)
      case Some(types) => Analyzed(p.timestamps, types, |samples|, AverageInterval(p.timestamps))
  }

  /** "No valid data" exactly when nothing was loaded. A positive window
      never fails; an empty window fails as soon as a stroke is found,
      since summing its empty slice along axis 1 raises. */
  lemma AnalysisOutcome(samples: seq<Sample>, threshold: real, w: int)
    ensures Analysis(samples, threshold, w) == NoValidData <==> samples == []
    ensures samples != [] && w > 0 ==> Analysis(samples, threshold, w).Analyzed?
    ensures samples != [] && w == 0 && Pipeline(AccOf(samples), GyroOf(samples), threshold, w).timestamps != [] ==>
              Analysis(samples, threshold, w) == AnalysisFailed(EmptySliceAxisError)
    ensures samples != [] && w == 0 && Pipeline(AccOf(samples), GyroOf(samples), threshold, w).timestamps == [] ==>
              Analysis(samples, threshold, w) == Analyzed([], [], |samples|, AverageInterval([]))
  {
    if samples != [] && w > 0 {
      PositiveWindowClassified(AccOf(samples), GyroOf(samples), threshold, w);
    }
    if samples != [] && w == 0 && Pipeline(AccOf(samples), GyroOf(samples), threshold, w).timestamps != [] {
      EmptyWindowFails(AccOf(samples), GyroOf(samples), threshold);
    }
  }

  /** With a positive window every slice has rows, so every stroke is classified. */
  lemma PositiveWindowClassified(acc: seq<Vec3>, gyro: seq<Vec3>, threshold: real, w: int)
    requires |acc| == |gyro| && w > 0
    ensures var p := Pipeline(acc, gyro, threshold, w);
            ClassifiedUpTo(p.accSlices, p.gyroSlices, Min(|p.accSlices|, |p.gyroSlices|)).Some?
  {
    var p := Pipeline(acc, gyro, threshold, w);
    PipelineShape(acc, gyro, threshold, w);
    SliceLengths(acc, p.timestamps, w, |acc|);
    SliceLengths(gyro, p.timestamps, w, |acc|);
    var m := Min(|p.accSlices|, |p.gyroSlices|);
    forall i | 0 <= i < m
      ensures |p.accSlices[i]| > 0 && |p.gyroSlices[i]| > 0
    {
      assert |p.accSlices[i]| == w && |p.gyroSlices[i]| == w;
    }
    ClassifiedMeaning(p.accSlices, p.gyroSlices, m);
  }

  /** With an empty window the first slice is empty. */
  lemma EmptyWindowFails(acc: seq<Vec3>, gyro: seq<Vec3>, threshold: real)
    requires |acc| == |gyro|
    requires Pipeline(acc, gyro, threshold, 0).timestamps != []
    ensures var p := Pipeline(acc, gyro, threshold, 0);
            ClassifiedUpTo(p.accSlices, p.gyroSlices, Min(|p.accSlices|, |p.gyroSlices|)).None?
  {
    var p := Pipeline(acc, gyro, threshold, 0);
    PipelineShape(acc, gyro, threshold, 0);
    SlicesUpToShape(acc, p.timestamps, 0, |acc|, |p.timestamps|);
    var t := p.timestamps[0];
    assert t in p.timestamps;
    assert 1 <= t < |gyro|;
    assert Fits(t, 0, |acc|);
    assert 0 in FitUpTo(p.timestamps, 0, |acc|, |p.timestamps|);
    assert |p.accSlices[0]| == 0;
    ClassifiedMeaning(p.accSlices, p.gyroSlices, Min(|p.accSlices|, |p.gyroSlices|));
  }

  /** What the source promises of a successful result: `strokes_detected`
      counts the 75-row filtered detections, which are increasing, in
      range and at least 75 rows apart, `total_data_points` is the number
      of loaded rows, there is at most one type per timestamp, and the
      average interval is at least 15 seconds once there are two strokes. */
  lemma AnalysisResultShape(samples: seq<Sample>, threshold: real, w: int)
    requires Analysis(samples, threshold, w).Analyzed?
    ensures var r := Analysis(samples, threshold, w);
            && r.timestamps == Filtered(Detected(GyroOf(samples), AccOf(samples), threshold), MinGap)
            && Increasing(r.timestamps)
            && (forall t :: t in r.timestamps ==> 1 <= t < |samples|)
            && (forall j :: 0 <= j < |r.timestamps| - 1 ==> r.timestamps[j + 1] - r.timestamps[j] >= MinGap)
            && r.totalDataPoints == |samples|
            && |r.strokeTypes| <= |r.timestamps|
            && (|r.timestamps| >= 2 ==> r.averageInterval.Some? && r.averageInterval.value >= 15.0)
  {
    AnalysisTimestamps(samples, threshold, w);
    AnalysisTypeCount(samples, threshold, w);
    AnalysisAverage(samples, threshold, w);
  }

  /** The timestamps of a successful analysis are the filtered detections,
      increasing, in range and at least 75 rows apart. */
  lemma AnalysisTimestamps(samples: seq<Sample>, threshold: real, w: int)
    requires Analysis(samples, threshold, w).Analyzed?
    ensures var ts := Analysis(samples, threshold, w).timestamps;
            && ts == Filtered(Detected(GyroOf(samples), AccOf(samples), threshold), MinGap)
            && Increasing(ts)
            && (forall t :: t in ts ==> 1 <= t < |samples|)
            && (forall j :: 0 <= j < |ts| - 1 ==> ts[j + 1] - ts[j] >= MinGap)
            && Analysis(samples, threshold, w).totalDataPoints == |samples|
  {
    AnalyzedParts(samples, threshold, w);
    PipelineShape(AccOf(samples), GyroOf(samples), threshold, w);
  }

  /** A successful analysis has at most one type per timestamp. */
  lemma AnalysisTypeCount(samples: seq<Sample>, threshold: real, w: int)
    requires Analysis(samples, threshold, w).Analyzed?
    ensures |Analysis(samples, threshold, w).strokeTypes| <= |Analysis(samples, threshold, w).timestamps|
  {
    var p := Pipeline(AccOf(samples), GyroOf(samples), threshold, w);
    AnalyzedParts(samples, threshold, w);
    PipelineShape(AccOf(samples), GyroOf(samples), threshold, w);
    ClassifiedTypes(p.accSlices, p.gyroSlices, Min(|p.accSlices|, |p.gyroSlices|));
  }

  /** Two or more strokes of a successful analysis average at least 15 seconds apart. */
  lemma AnalysisAverage(samples: seq<Sample>, threshold: real, w: int)
    requires Analysis(samples, threshold, w).Analyzed?
    ensures var r := Analysis(samples, threshold, w);
            |r.timestamps| >= 2 ==> r.averageInterval.Some? && r.averageInterval.value >= 15.0
  {
    var p := Pipeline(AccOf(samples), GyroOf(samples), threshold, w);
    AnalyzedParts(samples, threshold, w);
    if |p.timestamps| >= 2 {
      PipelineShape(AccOf(samples), GyroOf(samples), threshold, w);
      AverageIntervalAtLeast(p.timestamps, MinGap);
      assert MinGap as real / 5.0 == 15.0;
    }
  }

  /** The parts of a successful analysis, in terms of the pipeline. */
  lemma AnalyzedParts(samples: seq<Sample>, threshold: real, w: int)
    requires Analysis(samples, threshold, w).Analyzed?
    ensures var r := Analysis(samples, threshold, w);
            var p := Pipeline(AccOf(samples), GyroOf(samples), threshold, w);
            && r.timestamps == p.timestamps
            && r.totalDataPoints == |samples|
            && r.averageInterval == AverageInterval(p.timestamps)
            && Some(r.strokeTypes) == ClassifiedUpTo(p.accSlices, p.gyroSlices, Min(|p.accSlices|, |p.gyroSlices|))
  { }

  /** `analyze_stroke_from_csv_content` over the loader with mapping rule `rule`. */
  method AnalyzeWith(content: string, rule: MatchRule, threshold: real, sliceLen: int) returns (report: StrokeReport)
    ensures report == Analysis(LoadSpec(content, rule), threshold, sliceLen)
  {
    var acc, gyro := LoadCsvWith(content, rule);
    if |acc| == 0 {
      return NoValidData;
    }
    ghost var samples := LoadSpec(content, rule);
    assert acc == AccOf(samples) && gyro == GyroOf(samples);
    var timestamps := DetectStrokeTimestamps(gyro, acc, threshold);
    var filtered := FilterTimestamps(timestamps, MinGap);
    var accSlices, gyroSlices := ExtractStrokeSlices(acc, gyro, filtered, sliceLen);
    var analysis := AnalyzeStrokes(accSlices, gyroSlices);
    match analysis
    case None =>
      report := AnalysisFailed(EmptySliceAxisError);
    case Some(types) =>
      report := Analyzed(filtered, types, |acc|, AverageInterval(filtered));
  }

  /** `analyze_stroke_from_csv_content` as written: the loader lets the last
      matching header cell win. */
  method AnalyzeStrokeFromCsvContentAsWritten(content: string, threshold: real, sliceLen: int) returns (report: StrokeReport)
    ensures report == Analysis(LoadSpec(content, LastMatch), threshold, sliceLen)
  {
    report := AnalyzeWith(content, LastMatch, threshold, sliceLen);
  }

  /** `analyze_stroke_from_csv_content` over the first-match loader. */
  method AnalyzeStrokeFromCsvContent(content: string, threshold: real, sliceLen: int) returns (report: StrokeReport)
    ensures report == Analysis(LoadSpec(content, FirstMatch), threshold, sliceLen)
  {
    report := AnalyzeWith(content, FirstMatch, threshold, sliceLen);
  }

  /** The dictionary the analyser returns (its `timestamp` given as
      `isoNow`, `format1` being `%.1f`), as JSON. Each stroke entry keeps
      its number and its estimated type. */
  function ReportJson(report: StrokeReport, threshold: real, sliceLen: int, isoNow: string, format1: real -> string): JsonObject {
    match report
    case NoValidData =>
      map["success" := JBool(false), "error" := JString("CSV中没有有效数据"), "timestamp" := JString(isoNow)]
    case AnalysisFailed(reason) =>
      map["success" := JBool(false), "error" := JString("击球分析失败: " + reason), "timestamp" := JString(isoNow)]
    case Analyzed(ts, types, total, _) =>
      var info := map[
        "method" := JString("tennis_stroke_detection"),
        "threshold_used" := JNumber(threshold),
        "window_size" := JNumber(sliceLen as real),
        "version" := JString("1.0.0")];
      map["success" := JBool(true), "message" := JString("网球击球分析完成"),
          "data" := JObject(AnalyzedData(ts, types, total, format1)),
          "analysis_info" := JObject(info), "timestamp" := JString(isoNow)]
  }

  /** The `data` object of a successful result. */
  function AnalyzedData(ts: seq<int>, types: seq<StrokeType>, total: nat, format1: real -> string): JsonObject {
    var strokes := seq(|types|, i requires 0 <= i < |types| =>
                     JObject(map["stroke_id" := JNumber((i + 1) as real), "estimated_type" := JString(types[i].Label())]));
    var statistics := map[
      "total_data_points" := JNumber(total as real),
      "stroke_rate" := JString(NatToString(|ts|) + " strokes"),
      "data_duration_seconds" := JNumber(total as real / 5.0),
      "average_interval" := JString(AverageIntervalText(ts, format1))];
    map[
      "strokes_detected" := JNumber(|ts| as real),
      "timestamps" := JArray(seq(|ts|, i requires 0 <= i < |ts| => JNumber(ts[i] as real))),
      "stroke_analysis" := JArray(strokes),
      "statistics" := JObject(statistics)]
  }
}
