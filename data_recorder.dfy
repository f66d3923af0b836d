/** The recording buffer: one CSV header line followed by one line per
    sample, kept in memory while a recording runs. */
module Recording {
  import opened Wrappers
  import opened Text

  /** The readings a row asks the sensor for, in column order after the
      timestamp, the name and the MAC. */
  datatype SensorKey =
    | AccX | AccY | AccZ | GyroX | GyroY | GyroZ | AngleX | AngleY | AngleZ
    | MagX | MagY | MagZ | ElectricQuantityPercentage | Temperature

  const RowKeys: seq<SensorKey> :=
    [AccX, AccY, AccZ, GyroX, GyroY, GyroZ, AngleX, AngleY, AngleZ, MagX, MagY, MagZ, ElectricQuantityPercentage, Temperature]

  /** A sensor as the app sees it: an optional name and MAC, and the text
      the sensor currently reports for each key; a key it has no value for
      reads as nil. */
  datatype Device = Device(name: Option<string>, mac: Option<string>, readings: map<SensorKey, string>) {
    function Reading(k: SensorKey): Option<string> {
      if k in readings then Some(readings[k]) else None
    }
  }

  /** The header's column names in groups of four, one name per field of
      a row. */
  const LeadColumns: seq<string> := ["Timestamp", "DeviceName", "Mac", "AX"]
  const MotionColumns: seq<string> := ["AY", "AZ", "GX", "GY"]
  const AngleColumns: seq<string> := ["GZ", "AngX", "AngY", "AngZ"]
  const FieldColumns: seq<string> := ["HX", "HY", "HZ", "Electric"]

  const HeaderColumns: seq<string> := LeadColumns + MotionColumns + AngleColumns + FieldColumns + ["Temp"]

  /** The header line,
      `Timestamp,DeviceName,Mac,AX,AY,AZ,GX,GY,GZ,AngX,AngY,AngZ,HX,HY,HZ,Electric,Temp`,
      written as the joins of the four groups. */
  const Header: string :=
    "Timestamp,DeviceName,Mac,AX" + "," + "AY,AZ,GX,GY" + "," + "GZ,AngX,AngY,AngZ" + "," + "HX,HY,HZ,Electric" + "," + "Temp"

  /** The header is the column names joined by commas. */
  lemma HeaderIsJoin()
    ensures Header == Join(HeaderColumns, ",")
  {
    LeadJoin();
    MotionJoin();
    AngleJoin();
    FieldJoin();
    JoinFiveRuns(LeadColumns, MotionColumns, AngleColumns, FieldColumns, ["Temp"], ",");
  }

  lemma LeadJoin()
    ensures Join(LeadColumns, ",") == "Timestamp,DeviceName,Mac,AX"
  {
    JoinFour("Timestamp", "DeviceName", "Mac", "AX", ",");
  }

  lemma MotionJoin()
    ensures Join(MotionColumns, ",") == "AY,AZ,GX,GY"
  {
    JoinFour("AY", "AZ", "GX", "GY", ",");
  }

  lemma AngleJoin()
    ensures Join(AngleColumns, ",") == "GZ,AngX,AngY,AngZ"
  {
    JoinFour("GZ", "AngX", "AngY", "AngZ", ",");
  }

  lemma FieldJoin()
    ensures Join(FieldColumns, ",") == "HX,HY,HZ,Electric"
  {
    JoinFour("HX", "HY", "HZ", "Electric", ",");
  }

  lemma JoinFour(a: string, b: string, c: string, d: string, sep: string)
    ensures Join([a, b, c, d], sep) == a + sep + b + sep + c + sep + d
  {
    assert [c, d][1..] == [d];
    assert Join([c, d], sep) == c + sep + d;
    assert [b, c, d][1..] == [c, d];
    assert Join([b, c, d], sep) == b + sep + c + sep + d;
    assert [a, b, c, d][1..] == [b, c, d];
  }

  lemma JoinFiveRuns(a: seq<string>, b: seq<string>, c: seq<string>, d: seq<string>, e: seq<string>, sep: string)
    requires |a| >= 1 && |b| >= 1 && |c| >= 1 && |d| >= 1 && |e| >= 1
    ensures Join(a + b + c + d + e, sep)
         == Join(a, sep) + sep + Join(b, sep) + sep + Join(c, sep) + sep + Join(d, sep) + sep + Join(e, sep)
  {
    JoinAppend(a, b, sep);
    JoinAppend(a + b, c, sep);
    JoinAppend(a + b + c, d, sep);
    JoinAppend(a + b + c + d, e, sep);
  }

  /** The header has seventeen columns, as `split(',')` sees it. */
  lemma HeaderColumnsSplit()
    ensures |HeaderColumns| == 17
    ensures Split(Header, ',') == HeaderColumns
  {
    HeaderIsJoin();
    forall k | 0 <= k < |HeaderColumns| ensures ',' !in HeaderColumns[k] {
    }
    SplitJoin(HeaderColumns, ',');
  }

  lemma HeaderHasNoNewline()
    ensures '\n' !in Header
  {
    forall k | 0 <= k < |HeaderColumns| ensures '\n' !in HeaderColumns[k] {
    }
    JoinExcludes(HeaderColumns, ",", '\n');
    HeaderIsJoin();
  }

  /** The seventeen fields of the row `addDataRecord` writes: the formatted
      time, the name and MAC (empty when nil), then each reading ("0" when nil). */
  function RowFields(device: Device, timeText: string): (f: seq<string>)
    ensures |f| == |HeaderColumns| == 17
    ensures f[0] == timeText && f[1] == device.name.GetOr("") && f[2] == device.mac.GetOr("")
    ensures forall i :: 0 <= i < |RowKeys| ==> f[3 + i] == device.Reading(RowKeys[i]).GetOr("0")
  {
    [timeText, device.name.GetOr(""), device.mac.GetOr("")]
      + seq(|RowKeys|, i requires 0 <= i < |RowKeys| => device.Reading(RowKeys[i]).GetOr("0"))
  }

  function Row(device: Device, timeText: string): string {
    Join(RowFields(device, timeText), ",")
  }

  /** When no field holds a comma, splitting a row on commas gives back its
      seventeen fields, one under each header column. */
  lemma RowSplitsUnderHeader(device: Device, timeText: string)
    requires forall k :: 0 <= k < 17 ==> ',' !in RowFields(device, timeText)[k]
    ensures Split(Row(device, timeText), ',') == RowFields(device, timeText)
    ensures |Split(Row(device, timeText), ',')| == |Split(Header, ',')|
  {
    SplitJoin(RowFields(device, timeText), ',');
    HeaderColumnsSplit();
  }

  /** A buffer that begins with the header line. */
  predicate HeaderFirst(lines: seq<string>) {
    |lines| >= 1 && lines[0] == Header
  }

  predicate NoNewlines(lines: seq<string>) {
    forall k :: 0 <= k < |lines| ==> '\n' !in lines[k]
  }

  /** The saved or uploaded file name for a formatted start time. */
  datatype SavedFile = SavedFile(name: string, contents: string)

  /** Figures `getRecordingStats` reports. */
  datatype RecordingStats = RecordingStats(dataPoints: nat, duration: real, csvSize: nat)

  class DataRecorder {
    var isRecording: bool
    var startTime: Option<real>
    var recordedData: seq<string>
    /** Reset by start and clear, never read. */
    var recordCount: int

    constructor ()
      ensures !isRecording && startTime == None && recordedData == [] && recordCount == 0
    {
      isRecording := false;
      startTime := None;
      recordedData := [];
      recordCount := 0;
    }

    /** `startRecording`: whatever was buffered is dropped and the buffer
        holds the header alone. */
    method StartRecording(now: real)
      modifies this
      ensures isRecording && startTime == Some(now) && recordCount == 0
      ensures recordedData == [Header]
    {
      isRecording := true;
      startTime := Some(now);
      recordedData := [];
      recordCount := 0;
      recordedData := recordedData + [Header];
    }

    /** `stopRecording` only lowers the flag: the buffer and start time stay. */
    method StopRecording()
      modifies this`isRecording
      ensures !isRecording
    {
      isRecording := false;
    }

    /** `addDataRecord`: one row at the end while recording, nothing
        otherwise; earlier lines are never touched. */
    method AddDataRecord(device: Device, timeText: string)
      modifies this`recordedData
      ensures recordedData == if isRecording then old(recordedData) + [Row(device, timeText)] else old(recordedData)
      ensures isRecording ==> GetCurrentRecordCount() == old(GetCurrentRecordCount()) + 1
      ensures isRecording && old(recordedData) != [] ==> GetRecordCount() == old(GetRecordCount()) + 1
    {
      if !isRecording {
        return;
      }
      var record := Row(device, timeText);
      recordedData := recordedData + [record];
    }

    /** `saveDataToFile`: nothing to save without lines or a start time;
        otherwise the file is named after the formatted start time and holds
        the lines joined by newlines, unless the write fails. */
    method SaveDataToFile(formatStamp: real -> string, writeSucceeds: bool) returns (saved: Option<SavedFile>)
      ensures (recordedData == [] || startTime.None?) ==> saved.None?
      ensures saved.Some? <==> recordedData != [] && startTime.Some? && writeSucceeds
      ensures saved.Some? ==> saved.value.name == "sensor_data_" + formatStamp(startTime.value) + ".csv"
      ensures saved.Some? ==> GetCSVContent() == Some(saved.value.contents)
    {
      if recordedData == [] || startTime.None? {
        return None;
      }
      var fileName := "sensor_data_" + formatStamp(startTime.value) + ".csv";
      var dataString := Join(recordedData, "\n");
      if writeSucceeds {
        saved := Some(SavedFile(fileName, dataString));
      } else {
        saved := None;
      }
    }

    /** `getCSVContent`: nil exactly when the buffer is empty; a header-only
        buffer gives the header text. The text splits back into the lines. */
    function GetCSVContent(): (csv: Option<string>)
      reads this
      ensures csv.None? <==> recordedData == []
      ensures csv.Some? && NoNewlines(recordedData) ==> Split(csv.value, '\n') == recordedData
      ensures csv.Some? && NoNewlines(recordedData) ==> |Split(csv.value, '\n')| == GetRecordCount() + 1
    {
      if recordedData == [] then None
      else if NoNewlines(recordedData) then
        SplitJoin(recordedData, '\n');
        Some(Join(recordedData, "\n"))
      else Some(Join(recordedData, "\n"))
    }

    /** `getRecordCount`: the lines less the header, never negative. */
    function GetRecordCount(): (n: nat)
      reads this
      ensures n + 1 >= |recordedData| && n <= |recordedData|
      ensures recordedData != [] ==> n == |recordedData| - 1
    {
      if |recordedData| >= 1 then |recordedData| - 1 else 0
    }

    /** `getCurrentRecordCount`: every buffered line, header included. */
    function GetCurrentRecordCount(): (n: nat)
      reads this
      ensures n == GetRecordCount() + (if recordedData == [] then 0 else 1)
    {
      |recordedData|
    }

    /** `getRecordingDuration` at time `now`: zero unless recording with a
        start time. */
    function GetRecordingDuration(now: real): (d: real)
      reads this
      ensures !isRecording || startTime.None? ==> d == 0.0
      ensures isRecording && startTime.Some? ==> d + startTime.value == now
    {
      if startTime.Some? && isRecording then now - startTime.value else 0.0
    }

    /** `getRecordingStats`: data points are the record count, the size is
        the UTF-8 length of the CSV text (zero for an empty buffer). */
    function GetRecordingStats(now: real): (s: RecordingStats)
      reads this
      ensures s.dataPoints == GetRecordCount()
      ensures s.duration == GetRecordingDuration(now)
      ensures s.csvSize == if GetCSVContent().Some? then Utf8Length(GetCSVContent().value) else 0
      ensures GetCSVContent().Some? ==> |GetCSVContent().value| <= s.csvSize <= 4 * |GetCSVContent().value|
    {
      var text := Join(recordedData, "\n");
      Utf8LengthBounds(text);
      RecordingStats(if |recordedData| >= 1 then |recordedData| - 1 else 0, GetRecordingDuration(now), Utf8Length(text))
    }

    /** `clearData`: the buffer and start time are dropped; the recording
        flag is left as it is. */
    method ClearData()
      modifies this`recordedData, this`recordCount, this`startTime
      ensures recordedData == [] && recordCount == 0 && startTime == None
      ensures GetCSVContent().None? && GetRecordCount() == 0
    {
      recordedData := [];
      recordCount := 0;
      startTime := None;
    }
  }

  /** Rows added while recording are counted one for one: after a start and
      `k` rows the record count is `k` and the CSV text has a header and `k`
      row lines. */
  lemma {:induction false} RowsAfterStart(rows: seq<string>)
    requires NoNewlines(rows)
    ensures |Split(Join([Header] + rows, "\n"), '\n')| == |rows| + 1
    ensures Split(Join([Header] + rows, "\n"), '\n')[0] == Header
  {
    HeaderHasNoNewline();
    var lines := [Header] + rows;
    forall k | 0 <= k < |lines| ensures '\n' !in lines[k] {
      if k > 0 { assert lines[k] == rows[k - 1]; }
    }
    SplitJoin(lines, '\n');
  }
}
