/** The older app context: its own device list, the recording buffer it
    drives from the SDK's record callback, the text it shows about
    recordings and files, the every-third-sample analysis counter and the
    tennis analysis summary. SDK calls go to a log; the analysis dispatch
    goes to a log; file attributes and contents are parameters. */
module AppModel {
  import opened Wrappers
  import opened Text
  import opened JsonValues
  import opened Recording
  import opened ServerAnalysis
  import opened SensorManager

  // ---------------------------------------------------------------------------
  // Found devices

  /** `Bwt901ble(bluetoothBLE:)`: the sensor object wrapping a notification;
      a nil notification wraps to a sensor with neither name nor MAC. */
  function Wrap(ble: Option<Device>): (d: Device)
    ensures d.mac == (if ble.Some? then ble.value.mac else None)
  {
    ble.GetOr(Device(None, None, map[]))
  }

  /** `bluetoothBLE?.mac`: nil for a nil notification. */
  function NotifiedMac(ble: Option<Device>): Option<string> {
    if ble.Some? then ble.value.mac else None
  }

  /** Where a sample goes when the counter says to analyse it. */
  datatype Dispatch = ToServer(data: JsonObject) | ToOffline(data: JsonObject)

  /** The recording line of `getRecordingInfo`: "记录中 - ", the seconds,
      "秒 - ", the count and "个数据点". */
  function RecordingLine(duration: int, count: int): (line: string)
    ensures "记录中 - " <= line && Contains(line, IntToString(duration)) && Contains(line, IntToString(count))
  {
    LineParts("记录中 - ", IntToString(duration), "秒 - ", IntToString(count), "个数据点");
    "记录中 - " + IntToString(duration) + "秒 - " + IntToString(count) + "个数据点"
  }

  /** A line of five parts starts with the first and contains the second and the fourth. */
  lemma LineParts(a: string, b: string, c: string, d: string, e: string)
    ensures a <= a + b + c + d + e && Contains(a + b + c + d + e, b) && Contains(a + b + c + d + e, d)
  {
    ContainsMiddle(a, b, c + d + e);
    ContainsMiddle(a + b + c, d, e);
    assert a + b + (c + d + e) == a + b + c + d + e;
  }

  /** The line names one duration and one count: two lines agree only when
      both numbers do, so the status line can be read back. */
  lemma RecordingLineInjective(d1: int, n1: int, d2: int, n2: int)
    requires RecordingLine(d1, n1) == RecordingLine(d2, n2)
    ensures d1 == d2 && n1 == n2
  {
    MarkNotInInt(d1, '秒');
    MarkNotInInt(d2, '秒');
    FivePartsAgree("记录中 - ", IntToString(d1), "秒 - ", IntToString(n1), IntToString(d2), IntToString(n2), "个数据点", '秒');
    ParseIntRoundTrip(d1);
    ParseIntRoundTrip(d2);
    ParseIntRoundTrip(n1);
    ParseIntRoundTrip(n2);
  }

  /** Two lines `p + a + s + b + t` with the same fixed parts agree on `a`
      and `b` when `s` starts with a mark neither `a` holds. */
  lemma FivePartsAgree(p: string, a1: string, s: string, b1: string, a2: string, b2: string, t: string, c: char)
    requires p + a1 + s + b1 + t == p + a2 + s + b2 + t
    requires c !in a1 && c !in a2 && |s| > 0 && s[0] == c
    ensures a1 == a2 && b1 == b2
  {
    var x1, x2 := a1 + (s + b1 + t), a2 + (s + b2 + t);
    assert p + a1 + s + b1 + t == p + x1;
    assert p + a2 + s + b2 + t == p + x2;
    assert x1 == (p + x1)[|p|..];
    assert x2 == (p + x2)[|p|..];
    IndexBeforeMark(a1, s + b1 + t, c);
    IndexBeforeMark(a2, s + b2 + t, c);
    assert a1 == x1[..|a1|] && a2 == x2[..|a2|];
    var y1, y2 := x1[|a1|..], x2[|a2|..];
    assert y1 == s + b1 + t && y2 == s + b2 + t;
    assert b1 == y1[|s|..|y1| - |t|] && b2 == y2[|s|..|y2| - |t|];
  }

  /** A number's text holds only digits and `-`. */
  lemma MarkNotInInt(i: int, c: char)
    requires !IsDigit(c) && c != '-'
    ensures c !in IntToString(i)
  {
    var n: nat := if i < 0 then -i else i;
    assert AllDigits(NatToString(n));
  }

  /** The first `c` of `x + y` is the head of `y` when `x` has none. */
  lemma IndexBeforeMark(x: string, y: string, c: char)
    requires c !in x && |y| > 0 && y[0] == c
    ensures IndexOf(x + y, c) == |x|
  {
    assert (x + y)[|x|] == c;
  }

  /** Every `analysisFrequency`-th sample is analysed. */
  const AnalysisFrequency: nat := 3

  class AppContext {
    var deviceList: seq<Device>
    const dataRecorder: DataRecorder
    var serverAvailable: bool
    var analysisCounter: int
    var sdkCalls: seq<SdkCall>
    var dispatched: seq<Dispatch>

    /** MACs in the list are unique and the counter only counts up from 0. */
    ghost predicate Valid()
      reads this
    {
      UniqueMacs(deviceList) && analysisCounter >= 0
    }

    /** The context as `init` leaves it, with the server's reachability as
        the health check reported it. */
    constructor (serverReachable: bool)
      ensures Valid() && fresh(dataRecorder)
      ensures deviceList == [] && analysisCounter == 0 && sdkCalls == [] && dispatched == []
      ensures serverAvailable == serverReachable
      ensures !dataRecorder.isRecording && dataRecorder.recordedData == []
    {
      deviceList := [];
      dataRecorder := new DataRecorder();
      serverAvailable := serverReachable;
      analysisCounter := 0;
      sdkCalls := [];
      dispatched := [];
    }

    /** `isNotFound`: false exactly when a listed device has the
        notification's MAC; a nil notification matches a device whose MAC
        is nil. */
    method IsNotFound(ble: Option<Device>) returns (notFound: bool)
      ensures notFound <==> !Listed(deviceList, NotifiedMac(ble))
    {
      var i := 0;
      while i < |deviceList|
        invariant 0 <= i <= |deviceList|
        invariant forall k :: 0 <= k < i ==> deviceList[k].mac != NotifiedMac(ble)
      {
        if deviceList[i].mac == NotifiedMac(ble) {
          return false;
        }
        i := i + 1;
      }
      return true;
    }

    /** `onFoundBle`: the wrapped sensor is listed when its MAC is not. A
        nil notification is wrapped and listed too, unless a MAC-less
        sensor already is. */
    method OnFoundBle(ble: Option<Device>)
      requires Valid()
      modifies this`deviceList
      ensures Valid()
      ensures !Listed(old(deviceList), NotifiedMac(ble)) ==> deviceList == old(deviceList) + [Wrap(ble)]
      ensures Listed(old(deviceList), NotifiedMac(ble)) ==> deviceList == old(deviceList)
    {
      var notFound := IsNotFound(ble);
      if notFound {
        deviceList := deviceList + [Wrap(ble)];
      }
    }

    /** `removeAllDevice`: each listed sensor is closed in list order, then
        the list is emptied. */
    method RemoveAllDevice()
      requires Valid()
      modifies this`deviceList, this`sdkCalls
      ensures Valid()
      ensures deviceList == [] && sdkCalls == old(sdkCalls) + CloseCalls(old(deviceList))
    {
      var i := 0;
      while i < |deviceList|
        invariant 0 <= i <= |deviceList|
        invariant deviceList == old(deviceList)
        invariant sdkCalls == old(sdkCalls) + CloseCalls(deviceList[..i])
      {
        assert deviceList[..i + 1] == deviceList[..i] + [deviceList[i]];
        assert CloseCalls(deviceList[..i + 1]) == CloseCalls(deviceList[..i]) + [CloseDevice(deviceList[i].mac)];
        sdkCalls := sdkCalls + [CloseDevice(deviceList[i].mac)];
        i := i + 1;
      }
      assert deviceList[..i] == deviceList;
      deviceList := [];
    }

    /** `onRecord`: a row is buffered only while the buffer records. */
    method OnRecord(device: Device, timeText: string)
      modifies dataRecorder`recordedData
      ensures dataRecorder.recordedData == if dataRecorder.isRecording then old(dataRecorder.recordedData) + [Row(device, timeText)]
                                           else old(dataRecorder.recordedData)
    {
      if dataRecorder.isRecording {
        dataRecorder.AddDataRecord(device, timeText);
      }
    }

    /** `startDataRecording` */
    method StartDataRecording(now: real)
      modifies dataRecorder
      ensures dataRecorder.isRecording && dataRecorder.startTime == Some(now)
      ensures dataRecorder.recordedData == [Header]
      ensures dataRecorder.GetCurrentRecordCount() == 1 && dataRecorder.GetRecordCount() == 0
    {
      dataRecorder.StartRecording(now);
    }

    /** `stopDataRecording`: recording stops, then the buffer is saved. */
    method StopDataRecording(formatStamp: real -> string, writeSucceeds: bool) returns (saved: Option<SavedFile>)
      modifies dataRecorder`isRecording
      ensures !dataRecorder.isRecording
      ensures saved.Some? <==> dataRecorder.recordedData != [] && dataRecorder.startTime.Some? && writeSucceeds
      ensures saved.Some? ==> saved.value.name == "sensor_data_" + formatStamp(dataRecorder.startTime.value) + ".csv"
                              && Some(saved.value.contents) == dataRecorder.GetCSVContent()
    {
      dataRecorder.StopRecording();
      saved := dataRecorder.SaveDataToFile(formatStamp, writeSucceeds);
    }

    /** `getRecordingInfo` at time `now`. */
    function GetRecordingInfo(now: real): (info: string)
      reads this, dataRecorder
      ensures !dataRecorder.isRecording ==> info == "未记录"
      ensures dataRecorder.isRecording ==>
                info == "记录中 - " + IntToString(TruncateToInt(dataRecorder.GetRecordingDuration(now))) + "秒 - "
                        + IntToString(dataRecorder.GetRecordCount()) + "个数据点"
      ensures dataRecorder.isRecording ==>
                "记录中 - " <= info
                && Contains(info, IntToString(TruncateToInt(dataRecorder.GetRecordingDuration(now))))
                && Contains(info, IntToString(dataRecorder.GetRecordCount()))
    {
      if dataRecorder.isRecording then
        RecordingLine(TruncateToInt(dataRecorder.GetRecordingDuration(now)), dataRecorder.GetRecordCount())
      else "未记录"
    }

    /** `performRealTimeAnalysis`: the counter rises on every sample and
        every third sample is prepared and dispatched, to the server when it
        was reachable and to the offline analysis otherwise. */
    method PerformRealTimeAnalysis(device: Device, isOpen: bool, isoNow: string)
      requires Valid()
      modifies this`analysisCounter, this`dispatched
      ensures Valid()
      ensures analysisCounter == old(analysisCounter) + 1
      ensures analysisCounter % AnalysisFrequency != 0 ==> dispatched == old(dispatched)
      ensures analysisCounter % AnalysisFrequency == 0 ==>
                dispatched == old(dispatched) + [if serverAvailable then ToServer(PrepareSensorData(device, isOpen, isoNow))
                                                 else ToOffline(PrepareSensorData(device, isOpen, isoNow))]
    {
      analysisCounter := analysisCounter + 1;
      if analysisCounter % AnalysisFrequency == 0 {
        var sensorData := PrepareSensorData(device, isOpen, isoNow);
        if serverAvailable {
          dispatched := dispatched + [ToServer(sensorData)];
        } else {
          dispatched := dispatched + [ToOffline(sensorData)];
        }
      }
    }
  }

  /** How many of `calls` further samples are dispatched when the counter
      stands at `counter`: the samples that bring it to a multiple of three. */
  function DispatchesAfter(counter: nat, calls: nat): nat
    decreases calls
  {
    if calls == 0 then 0
    else DispatchesAfter(counter, calls - 1) + (if (counter + calls) % AnalysisFrequency == 0 then 1 else 0)
  }

  /** Over any run of samples, one in three is dispatched: the count is the
      number of multiples of three the counter passes. */
  lemma {:induction false} DispatchesAfterCount(counter: nat, calls: nat)
    ensures DispatchesAfter(counter, calls) == (counter + calls) / 3 - counter / 3
    decreases calls
  {
    if calls > 0 {
      DispatchesAfterCount(counter, calls - 1);
      var n := counter + calls;
      assert n / 3 == (n - 1) / 3 + (if n % 3 == 0 then 1 else 0);
    }
  }

  // ---------------------------------------------------------------------------
  // The analysis sample

  /** The text a key reads as in the sample: the reading or "0". */
  function SampleText(d: Device, k: SensorKey): string {
    d.Reading(k).GetOr("0")
  }

  /** `prepareSensorDataForAnalysis`: the nine motion readings as strings,
      the device's name, MAC (each "Unknown" when nil) and open state, and
      the formatted time. */
  function PrepareSensorData(d: Device, isOpen: bool, isoNow: string): (data: JsonObject)
    ensures ObjectAt(data, "sensor_data").Some?
    ensures CarriesSample(ObjectAt(data, "sensor_data").value, d)
    ensures ObjectAt(data, "device_info").Some?
    ensures var info := ObjectAt(data, "device_info").value;
            StringAt(info, "name") == Some(d.name.GetOr("Unknown")) && StringAt(info, "mac") == Some(d.mac.GetOr("Unknown"))
            && BoolAt(info, "connected") == Some(isOpen)
    ensures StringAt(data, "timestamp") == Some(isoNow)
  {
    map["sensor_data" := JObject(SampleObject(d)), "device_info" := JObject(DeviceInfo(d, isOpen)), "timestamp" := JString(isoNow)]
  }

  /** `sd` holds the nine motion readings of `d` as strings, under the
      sample's key names. */
  predicate CarriesSample(sd: JsonObject, d: Device) {
    && StringAt(sd, "acc_x") == Some(SampleText(d, AccX)) && StringAt(sd, "acc_y") == Some(SampleText(d, AccY))
    && StringAt(sd, "acc_z") == Some(SampleText(d, AccZ))
    && StringAt(sd, "gyro_x") == Some(SampleText(d, GyroX)) && StringAt(sd, "gyro_y") == Some(SampleText(d, GyroY))
    && StringAt(sd, "gyro_z") == Some(SampleText(d, GyroZ))
    && StringAt(sd, "angle_x") == Some(SampleText(d, AngleX)) && StringAt(sd, "angle_y") == Some(SampleText(d, AngleY))
    && StringAt(sd, "angle_z") == Some(SampleText(d, AngleZ))
  }

  /** The sample's `sensor_data`: the nine motion readings as strings. */
  function SampleObject(d: Device): (sd: JsonObject)
    ensures CarriesSample(sd, d)
  {
    map[
      "acc_x" := JString(SampleText(d, AccX)), "acc_y" := JString(SampleText(d, AccY)), "acc_z" := JString(SampleText(d, AccZ)),
      "gyro_x" := JString(SampleText(d, GyroX)), "gyro_y" := JString(SampleText(d, GyroY)), "gyro_z" := JString(SampleText(d, GyroZ)),
      "angle_x" := JString(SampleText(d, AngleX)), "angle_y" := JString(SampleText(d, AngleY)), "angle_z" := JString(SampleText(d, AngleZ))]
  }

  /** The sample's `device_info`: name and MAC ("Unknown" when nil) and the open state. */
  function DeviceInfo(d: Device, isOpen: bool): (info: JsonObject)
    ensures StringAt(info, "name") == Some(d.name.GetOr("Unknown")) && StringAt(info, "mac") == Some(d.mac.GetOr("Unknown"))
            && BoolAt(info, "connected") == Some(isOpen)
  {
    map["name" := JString(d.name.GetOr("Unknown")), "mac" := JString(d.mac.GetOr("Unknown")), "connected" := JBool(isOpen)]
  }

  /** A prepared sample always passes the offline analysis, which classifies
      the same acceleration figures the sensor manager shows. */
  lemma PreparedSampleClassifiesOffline(d: Device, isOpen: bool, isoNow: string)
    ensures var r := AnalyzeOffline(PrepareSensorData(d, isOpen, isoNow));
            r.OfflineClassified? && r.AnalysisType() == "offline_swift"
            && r.magnitudeSquared == SquaredMagnitude(ReadValue(d, AccX, "0", 0.0), ReadValue(d, AccY, "0", 0.0), ReadValue(d, AccZ, "0", 0.0))
  {
    var sd := ObjectAt(PrepareSensorData(d, isOpen, isoNow), "sensor_data").value;
    assert AccComponent(sd, "acc_x") == ReadValue(d, AccX, "0", 0.0);
    assert AccComponent(sd, "acc_y") == ReadValue(d, AccY, "0", 0.0);
    assert AccComponent(sd, "acc_z") == ReadValue(d, AccZ, "0", 0.0);
  }

  // ---------------------------------------------------------------------------
  // File information

  /** The file's size unit: bytes below 1 KiB, whole KiB below 1 MiB, whole
      MiB above, by integer division. */
  function SizeUnit(size: int): (r: (int, string))
    ensures size < 1024 ==> r == (size, "B")
    ensures 1024 <= size < 1024 * 1024 ==> r.1 == "KB" && 1 <= r.0 < 1024 && r.0 * 1024 <= size < (r.0 + 1) * 1024
    ensures 1024 * 1024 <= size ==> r.1 == "MB" && 1 <= r.0 && r.0 * 1048576 <= size < (r.0 + 1) * 1048576
  {
    if size < 1024 then (size, "B")
    else if size < 1024 * 1024 then (size / 1024, "KB")
    else (size / (1024 * 1024), "MB")
  }

  /** The size label `getFileInfo` shows. */
  function SizeLabel(size: int): string {
    IntToString(SizeUnit(size).0) + " " + SizeUnit(size).1
  }

  /** The label splits at its space into a number and a unit, and the number
      reads back as the one the unit was chosen with. */
  lemma SizeLabelReadsBack(size: int)
    ensures Split(SizeLabel(size), ' ') == [IntToString(SizeUnit(size).0), SizeUnit(size).1]
    ensures ParseNumber(Split(SizeLabel(size), ' ')[0]) == Some(SizeUnit(size).0 as real)
  {
    var n, unit := SizeUnit(size).0, SizeUnit(size).1;
    var digits := IntToString(n);
    assert forall j :: 0 <= j < |digits| ==> digits[j] != ' ' by {
      if n < 0 {
        assert digits == "-" + NatToString(-n);
        assert AllDigits(NatToString(-n));
      } else {
        assert AllDigits(digits);
      }
    }
    assert unit == "B" || unit == "KB" || unit == "MB";
    assert Join([digits, unit], " ") == SizeLabel(size);
    SplitJoin([digits, unit], ' ');
    ParseIntRoundTrip(n);
  }

  /** A character `CharacterSet.newlines` holds. */
  predicate IsNewline(c: char) {
    c == '\n' || c == '\U{000B}' || c == '\U{000C}' || c == '\r' || c == '\U{0085}' || c == '\U{2028}' || c == '\U{2029}'
  }

  /** The newline characters in `s`: one fewer than the pieces
      `components(separatedBy: .newlines)` cuts it into. */
  function NewlineCount(s: string): (n: nat)
    ensures n <= |s|
    decreases |s|
  {
    if s == [] then 0 else NewlineCount(s[..|s| - 1]) + (if IsNewline(s[|s| - 1]) then 1 else 0)
  }

  /** The line count `getFileInfo` reports: the pieces less one, never
      below zero. */
  function LineCount(content: string): (n: nat)
    ensures n == NewlineCount(content)
  {
    var pieces := NewlineCount(content) + 1;
    if pieces - 1 > 0 then pieces - 1 else 0
  }

  /** What reading a file's attributes yields: a throw, or the attributes
      with the size when it is an integer. */
  datatype FileAttributes = AttributesUnreadable | Readable(size: Option<int>)

  datatype FileInfo = FileInfo(name: string, sizeLabel: string, lineCount: nat)

  /** `getFileInfo`: "未知" and 0 until the attributes and the contents are
      read; a throw leaves whatever was set before it. */
  function GetFileInfo(fileName: string, attributes: FileAttributes, content: Option<string>): (info: FileInfo)
    ensures info.name == fileName
    ensures attributes.AttributesUnreadable? ==> info.sizeLabel == "未知" && info.lineCount == 0
    ensures attributes.Readable? && attributes.size.Some? ==> info.sizeLabel == SizeLabel(attributes.size.value)
    ensures attributes.Readable? && attributes.size.None? ==> info.sizeLabel == "未知"
    ensures attributes.Readable? && content.Some? ==> info.lineCount == NewlineCount(content.value)
    ensures content.None? ==> info.lineCount == 0
  {
    if attributes.AttributesUnreadable? then FileInfo(fileName, "未知", 0)
    else
      var sizeText := if attributes.size.Some? then SizeLabel(attributes.size.value) else "未知";
      FileInfo(fileName, sizeText, if content.Some? then LineCount(content.value) else 0)
  }

  /** A newline is a line break for the count. */
  lemma NewlineCountAppend(a: string, b: string)
    ensures NewlineCount(a + b) == NewlineCount(a) + NewlineCount(b)
    decreases |b|
  {
    if b == [] {
      assert a + b == a;
    } else {
      assert (a + b)[..|a + b| - 1] == a + b[..|b| - 1];
      NewlineCountAppend(a, b[..|b| - 1]);
    }
  }

  /** A saved recording whose lines hold no line breaks counts one line per
      row: the header is not counted. */
  lemma {:induction false} SavedLinesCount(lines: seq<string>)
    requires |lines| >= 1
    requires forall k, j :: 0 <= k < |lines| && 0 <= j < |lines[k]| ==> !IsNewline(lines[k][j])
    ensures LineCount(Join(lines, "\n")) == |lines| - 1
    decreases |lines|
  {
    NoBreaksNoNewlines(lines[0]);
    if |lines| > 1 {
      SavedLinesCount(lines[1..]);
      NewlineCountAppend(lines[0] + "\n", Join(lines[1..], "\n"));
      NewlineCountAppend(lines[0], "\n");
      assert NewlineCount("\n") == 1 by {
        assert "\n"[..0] == "";
      }
    }
  }

  lemma {:induction false} NoBreaksNoNewlines(s: string)
    requires forall j :: 0 <= j < |s| ==> !IsNewline(s[j])
    ensures NewlineCount(s) == 0
    decreases |s|
  {
    if s != [] {
      NoBreaksNoNewlines(s[..|s| - 1]);
    }
  }

  // ---------------------------------------------------------------------------
  // The tennis analysis summary

  /** A stroke the summary can describe has a type and a power. */
  predicate Describable(stroke: JsonObject) {
    StringAt(stroke, "estimated_type").Some? && RealAt(stroke, "stroke_power").Some?
  }

  /** The detail lines for `shown`, numbered from `first + 1` by position:
      an undescribable stroke is skipped, but its number is used up. */
  function StrokeLines(shown: seq<JsonObject>, first: nat, format1: real -> string): (lines: seq<string>)
    ensures |lines| <= |shown|
    ensures (forall i :: 0 <= i < |shown| ==> Describable(shown[i])) ==> |lines| == |shown|
    decreases |shown|
  {
    if shown == [] then []
    else
      var s := shown[0];
      var line := if Describable(s)
                  then ["\n  " + IntToString(first + 1) + ". " + StringAt(s, "estimated_type").value
                        + " (强度: " + format1(RealAt(s, "stroke_power").value) + ")"]
                  else [];
      line + StrokeLines(shown[1..], first + 1, format1)
  }

  function Concat(parts: seq<string>): string
    decreases |parts|
  {
    if parts == [] then "" else parts[0] + Concat(parts[1..])
  }

  /** The "击球详情" block: nothing without strokes; otherwise at most three
      described strokes and, beyond three, how many more there are. */
  function StrokeDetails(strokes: seq<JsonObject>, format1: real -> string): (details: string)
    ensures strokes == [] ==> details == ""
    ensures |strokes| > 3 ==> Contains(details, "还有" + IntToString(|strokes| - 3) + "次击球")
  {
    if strokes == [] then ""
    else
      var shown := if |strokes| > 3 then strokes[..3] else strokes;
      var head := "\n\n击球详情:" + Concat(StrokeLines(shown, 0, format1));
      if |strokes| > 3 then
        var more := "还有" + IntToString(|strokes| - 3) + "次击球";
        var lead := head + "\n  ... ";
        ContainsMiddle(lead, more, "");
        assert lead + more + "" == lead + more;
        lead + more
      else head
  }

  /** Whether `o[key] as? [Int]` succeeds: an array of whole numbers. */
  predicate IntegralItems(o: JsonObject, key: string) {
    key in o && o[key].JArray?
    && forall i :: 0 <= i < |o[key].items| ==> o[key].items[i].JNumber? && o[key].items[i].n.Floor as real == o[key].items[i].n
  }

  /** `data["timestamps"] as? [Int] ?? []` */
  function IntsAt(o: JsonObject, key: string): (r: seq<int>)
    ensures IntegralItems(o, key) ==> |r| == |o[key].items| && forall i :: 0 <= i < |r| ==> o[key].items[i] == JNumber(r[i] as real)
    ensures !IntegralItems(o, key) ==> r == []
  {
    if IntegralItems(o, key) then seq(|o[key].items|, i requires 0 <= i < |o[key].items| => o[key].items[i].n.Floor)
    else []
  }

  function IntStrings(xs: seq<int>): (r: seq<string>)
    ensures |r| == |xs| && forall i :: 0 <= i < |xs| ==> r[i] == IntToString(xs[i])
  {
    seq(|xs|, i requires 0 <= i < |xs| => IntToString(xs[i]))
  }

  /** The summary's fixed prefix, naming the analysed file. */
  function SummaryTitle(fileName: string): string {
    "🎾 网球击球分析完成 (" + fileName + ")\n\n检测到击球次数: "
  }

  /** The "统计信息" block, read from the object `stats`: a missing count
      shows 0, a missing duration 0.0, a missing interval "N/A". */
  function StatisticsBlock(stats: JsonObject, format1: real -> string): string {
    "\n\n统计信息:\n- 数据点总数: " + IntToString(IntAt(stats, "total_data_points").GetOr(0))
    + "\n- 数据时长: " + format1(RealAt(stats, "data_duration_seconds").GetOr(0.0)) + " 秒"
    + "\n- 平均间隔: " + StringAt(stats, "average_interval").GetOr("N/A")
  }

  /** The success summary with the statistics read from `stats`: the
      title, the stroke count, the timestamps, the statistics block, the
      stroke details and the completion time, in that order. */
  function SuccessSummary(result: JsonObject, data: JsonObject, stats: JsonObject, fileName: string, format1: real -> string): (text: string)
    ensures SummaryTitle(fileName) + IntToString(IntAt(data, "strokes_detected").GetOr(0)) + " 次" <= text
    ensures Contains(text, StatisticsBlock(stats, format1))
  {
    var strokes := IntToString(IntAt(data, "strokes_detected").GetOr(0));
    var timestamps := Join(IntStrings(IntsAt(data, "timestamps")), ", ");
    var details := match ObjectsAt(data, "stroke_analysis") case None => "" case Some(s) => StrokeDetails(s, format1);
    var head := SummaryTitle(fileName) + strokes + " 次" + "\n击球时间点: " + timestamps;
    var tail := details + "\n\n分析完成时间: " + StringAt(result, "timestamp").GetOr("");
    ContainsMiddle(head, StatisticsBlock(stats, format1), tail);
    head + StatisticsBlock(stats, format1) + tail
  }

  /** `handleTennisAnalysisResult` as written: an unsuccessful result shows
      its error or "未知错误"; a successful one without a data object says
      so; otherwise the summary reads the statistics from the data object
      itself. `format1` is `%.1f`. */
  function TennisSummary(result: JsonObject, fileName: string, format1: real -> string): (text: string)
    ensures BoolAt(result, "success") != Some(true) ==> text == "❌ 分析失败: " + StringAt(result, "error").GetOr(UnknownError)
    ensures BoolAt(result, "success") == Some(true) && ObjectAt(result, "data").None? ==> text == "✅ 分析完成，但数据结构异常"
    ensures BoolAt(result, "success") == Some(true) && ObjectAt(result, "data").Some? ==>
              var data := ObjectAt(result, "data").value;
              && SummaryTitle(fileName) + IntToString(IntAt(data, "strokes_detected").GetOr(0)) + " 次" <= text
              && Contains(text, StatisticsBlock(data, format1))
  {
    if BoolAt(result, "success") != Some(true) then "❌ 分析失败: " + StringAt(result, "error").GetOr(UnknownError)
    else match ObjectAt(result, "data")
      case None => "✅ 分析完成，但数据结构异常"
      case Some(data) => SuccessSummary(result, data, data, fileName, format1)
  }

  /** `handleTennisAnalysisResult` as evidently intended: the statistics
      are read from `data["statistics"]`, where the analyser puts them. */
  function TennisSummaryFromStatistics(result: JsonObject, fileName: string, format1: real -> string): (text: string)
    ensures BoolAt(result, "success") != Some(true) ==> text == "❌ 分析失败: " + StringAt(result, "error").GetOr(UnknownError)
    ensures BoolAt(result, "success") == Some(true) && ObjectAt(result, "data").None? ==> text == "✅ 分析完成，但数据结构异常"
    ensures BoolAt(result, "success") == Some(true) && ObjectAt(result, "data").Some? ==>
              var data := ObjectAt(result, "data").value;
              && SummaryTitle(fileName) + IntToString(IntAt(data, "strokes_detected").GetOr(0)) + " 次" <= text
              && Contains(text, StatisticsBlock(ObjectAt(data, "statistics").GetOr(map[]), format1))
  {
    if BoolAt(result, "success") != Some(true) then "❌ 分析失败: " + StringAt(result, "error").GetOr(UnknownError)
    else match ObjectAt(result, "data")
      case None => "✅ 分析完成，但数据结构异常"
      case Some(data) => SuccessSummary(result, data, ObjectAt(data, "statistics").GetOr(map[]), fileName, format1)
  }
}
