/** The Bluetooth sensor manager: scanning, the device list, the connected
    sensor, the 200 Hz sample tick, recording and the stop-and-upload step.
    Calls into the sensor SDK are recorded in a log rather than performed;
    timers become explicit tick methods; the network reply is a parameter. */
module SensorManager {
  import opened Wrappers
  import opened Text
  import opened JsonValues
  import opened Recording
  import opened ServerAnalysis

  /** The live IMU figures the session screen shows. */
  datatype ImuData = ImuData(
    accX: real, accY: real, accZ: real,
    gyroX: real, gyroY: real, gyroZ: real,
    angleX: real, angleY: real, angleZ: real,
    temperature: real, battery: real)

  const InitialImuData: ImuData := ImuData(0.0, 0.0, 0.0, 0.0, 0.0, 0.0, 0.0, 0.0, 0.0, 25.0, 100.0)

  /** The values written when no sensor is connected: a device lying flat.
      Temperature and battery are left as they were. */
  function AtRest(prev: ImuData): (r: ImuData)
    ensures r.temperature == prev.temperature && r.battery == prev.battery
    ensures r.accX == 0.01 && r.accY == 0.02 && r.accZ == 1.0
    ensures r.gyroX == 0.0 && r.gyroY == 0.0 && r.gyroZ == 0.0
    ensures r.angleX == 0.5 && r.angleY == -0.3 && r.angleZ == 1.2
  {
    prev.(accX := 0.01, accY := 0.02, accZ := 1.00,
          gyroX := 0.0, gyroY := 0.0, gyroZ := 0.0,
          angleX := 0.5, angleY := -0.3, angleZ := 1.2)
  }

  /** `Double(device.getDeviceData(key) ?? fallbackText) ?? fallback` */
  function ReadValue(d: Device, k: SensorKey, fallbackText: string, fallback: real): (v: real)
    ensures d.Reading(k).None? && SwiftDouble(fallbackText) == Some(fallback) ==> v == fallback
    ensures d.Reading(k).Some? && SwiftDouble(d.Reading(k).value).None? ==> v == fallback
    ensures d.Reading(k).Some? && SwiftDouble(d.Reading(k).value).Some? ==> v == SwiftDouble(d.Reading(k).value).value
  {
    SwiftDouble(d.Reading(k).GetOr(fallbackText)).GetOr(fallback)
  }

  /** The figures read from a connected sensor: a reading that is missing or
      not a number gives 0, or 25 for the temperature and 100 for the battery. */
  function ImuFromDevice(d: Device): ImuData {
    ImuData(
      ReadValue(d, AccX, "0", 0.0), ReadValue(d, AccY, "0", 0.0), ReadValue(d, AccZ, "0", 0.0),
      ReadValue(d, GyroX, "0", 0.0), ReadValue(d, GyroY, "0", 0.0), ReadValue(d, GyroZ, "0", 0.0),
      ReadValue(d, AngleX, "0", 0.0), ReadValue(d, AngleY, "0", 0.0), ReadValue(d, AngleZ, "0", 0.0),
      ReadValue(d, Temperature, "25", 25.0), ReadValue(d, ElectricQuantityPercentage, "100", 100.0))
  }

  /** A sensor that reports nothing reads as level with the default
      temperature and battery. */
  lemma SilentDeviceReadsDefaults(name: Option<string>, mac: Option<string>)
    ensures ImuFromDevice(Device(name, mac, map[])) == InitialImuData
  {
    ParseIntRoundTrip(0);
    ParseIntRoundTrip(25);
    ParseIntRoundTrip(100);
    assert IntToString(0) == "0";
    assert NatToString(25) == NatToString(2) + [DigitChar(5)];
    assert IntToString(25) == "25";
    assert NatToString(100) == NatToString(10) + [DigitChar(0)];
    assert NatToString(10) == NatToString(1) + [DigitChar(0)];
    assert IntToString(100) == "100";
  }

  // ---------------------------------------------------------------------------
  // Duration text

  /** Swift's `Int(x)` for a `Double`: truncation toward zero. */
  function TruncateToInt(x: real): (i: int)
    ensures x >= 0.0 ==> i == x.Floor
    ensures x < 0.0 ==> i == -((-x).Floor)
  {
    if x >= 0.0 then x.Floor else -((-x).Floor)
  }

  /** Swift's `/` on `Int`: the quotient truncated toward zero. */
  function TruncDiv(a: int, b: int): int
    requires b > 0
  {
    if a >= 0 then a / b else -((-a) / b)
  }

  /** Swift's `%` on `Int`: the remainder takes the sign of the dividend. */
  function TruncMod(a: int, b: int): (r: int)
    requires b > 0
    ensures a == b * TruncDiv(a, b) + r
    ensures a >= 0 ==> 0 <= r < b
    ensures a < 0 ==> -b < r <= 0
  {
    a - b * TruncDiv(a, b)
  }

  /** `%02d`: two digits at least, zero-padded; a sign counts as a digit. */
  function Pad2(n: int): (s: string)
    ensures n >= 0 ==> |s| >= 2 && AllDigits(s)
  {
    if 0 <= n < 10 then "0" + NatToString(n) else IntToString(n)
  }

  /** `formatDuration`: minutes and seconds as `MM:SS`. */
  function FormatDuration(duration: real): string {
    var t := TruncateToInt(duration);
    Pad2(TruncDiv(t, 60)) + ":" + Pad2(TruncMod(t, 60))
  }

  lemma Pad2ReadsBack(n: nat)
    ensures ParseNumber(Pad2(n)) == Some(n as real)
  {
    if n < 10 {
      DigitsValueLeadingZero(NatToString(n));
      NatToStringRoundTrip(n);
      ParseDigits(Pad2(n));
    } else {
      ParseIntRoundTrip(n);
    }
  }

  /** The text of a non-negative duration reads back as whole minutes and
      seconds below 60 that add up to the whole seconds elapsed. */
  lemma FormatDurationReadsBack(duration: real)
    requires duration >= 0.0
    ensures |Split(FormatDuration(duration), ':')| == 2
    ensures var parts := Split(FormatDuration(duration), ':');
            var minutes := ParseNumber(parts[0]);
            var seconds := ParseNumber(parts[1]);
            minutes.Some? && seconds.Some? && 0.0 <= seconds.value < 60.0
            && minutes.value * 60.0 + seconds.value == duration.Floor as real
  {
    var t := duration.Floor;
    var m, s := TruncDiv(t, 60), TruncMod(t, 60);
    assert 0 <= m;
    var p0, p1 := Pad2(m), Pad2(s);
    assert FormatDuration(duration) == Join([p0, p1], ":");
    forall k | 0 <= k < 2 ensures ':' !in [p0, p1][k] {
      var p := [p0, p1][k];
      assert AllDigits(p);
      assert forall j :: 0 <= j < |p| ==> p[j] != ':';
    }
    SplitJoin([p0, p1], ':');
    Pad2ReadsBack(m);
    Pad2ReadsBack(s);
  }

  // ---------------------------------------------------------------------------
  // The manager

  /** The SDK calls the manager makes, in order. */
  datatype SdkCall = StartScan | StopScan | OpenDevice(mac: Option<string>) | CloseDevice(mac: Option<string>)

  function CloseCalls(devices: seq<Device>): (calls: seq<SdkCall>)
    ensures |calls| == |devices|
    ensures forall i :: 0 <= i < |devices| ==> calls[i] == CloseDevice(devices[i].mac)
  {
    seq(|devices|, i requires 0 <= i < |devices| => CloseDevice(devices[i].mac))
  }

  /** No two listed devices share a MAC (a nil MAC included). */
  predicate UniqueMacs(list: seq<Device>) {
    forall i, j :: 0 <= i < j < |list| ==> list[i].mac != list[j].mac
  }

  predicate Listed(list: seq<Device>, mac: Option<string>) {
    exists i :: 0 <= i < |list| && list[i].mac == mac
  }

  const ManagerDomain: string := "BluetoothSensorManager"

  class BluetoothSensorManager {
    var isConnected: bool
    var imuData: ImuData
    var deviceList: seq<Device>
    var isRecording: bool
    var recordingDuration: real
    var recordedDataCount: int
    var isScanning: bool
    var currentDevice: Option<Device>
    const dataRecorder: DataRecorder
    var recordingStartTime: Option<real>
    /** Whether the one-second duration timer is scheduled. */
    var recordingTimerActive: bool
    /** Whether the 5 ms sample timer is scheduled. */
    var dataStreamActive: bool
    var sdkCalls: seq<SdkCall>

    /** What every public method keeps: MACs are unique, a connection has a
        device, the recording flag, start time and duration timer move
        together with the buffer's flag, and a running recording's buffer
        starts with the header. */
    ghost predicate Valid()
      reads this, dataRecorder
    {
      && UniqueMacs(deviceList)
      && (isConnected ==> currentDevice.Some?)
      && (isRecording <==> recordingStartTime.Some?)
      && (isRecording <==> recordingTimerActive)
      && (isRecording ==> dataRecorder.isRecording && |dataRecorder.recordedData| >= 1
                          && HeaderFirst(dataRecorder.recordedData))
      && (!isRecording ==> recordingDuration == 0.0 && !dataRecorder.isRecording)
    }

    constructor ()
      ensures Valid() && fresh(dataRecorder)
      ensures !isConnected && !isRecording && !isScanning && currentDevice.None?
      ensures deviceList == [] && recordedDataCount == 0 && imuData == InitialImuData
      ensures dataRecorder.recordedData == [] && sdkCalls == []
    {
      isConnected := false;
      imuData := InitialImuData;
      deviceList := [];
      isRecording := false;
      recordingDuration := 0.0;
      recordedDataCount := 0;
      isScanning := false;
      currentDevice := None;
      dataRecorder := new DataRecorder();
      recordingStartTime := None;
      recordingTimerActive := false;
      dataStreamActive := false;
      sdkCalls := [];
    }

    function CurrentDeviceName(): (s: string)
      reads this
      ensures currentDevice.None? || currentDevice.value.name.None? ==> s == "未连接设备"
      ensures currentDevice.Some? && currentDevice.value.name.Some? ==> s == currentDevice.value.name.value
    {
      if currentDevice.Some? && currentDevice.value.name.Some? then currentDevice.value.name.value else "未连接设备"
    }

    function CurrentDeviceMac(): (s: string)
      reads this
      ensures currentDevice.None? || currentDevice.value.mac.None? ==> s == "未知MAC"
      ensures currentDevice.Some? && currentDevice.value.mac.Some? ==> s == currentDevice.value.mac.value
    {
      if currentDevice.Some? && currentDevice.value.mac.Some? then currentDevice.value.mac.value else "未知MAC"
    }

    /** `removeAllDevices`: every listed device is closed, in list order,
        and the list is emptied. */
    method RemoveAllDevices()
      requires Valid()
      modifies this`deviceList, this`sdkCalls
      ensures Valid()
      ensures deviceList == [] && sdkCalls == old(sdkCalls) + CloseCalls(old(deviceList))
    {
      var i := 0;
      while i < |deviceList|
        invariant 0 <= i <= |deviceList|
        invariant deviceList == old(deviceList)
        invariant sdkCalls == old(sdkCalls) + CloseCalls(deviceList[..i])
      {
        assert deviceList[..i + 1] == deviceList[..i] + [deviceList[i]];
        assert CloseCalls(deviceList[..i + 1]) == CloseCalls(deviceList[..i]) + [CloseDevice(deviceList[i].mac)];
        sdkCalls := sdkCalls + [CloseDevice(deviceList[i].mac)];
        i := i + 1;
      }
      assert deviceList[..i] == deviceList;
      deviceList := [];
    }

    /** `startScanning`: a no-op while scanning; otherwise the list is
        cleared (closing its devices) and a scan starts. The automatic stop
        three seconds later is a separate call of `StopScanning`. */
    method StartScanning()
      requires Valid()
      modifies this`deviceList, this`sdkCalls, this`isScanning
      ensures Valid()
      ensures old(isScanning) ==> deviceList == old(deviceList) && sdkCalls == old(sdkCalls) && isScanning
      ensures !old(isScanning) ==> isScanning && deviceList == [] && sdkCalls == old(sdkCalls) + CloseCalls(old(deviceList)) + [StartScan]
    {
      if isScanning {
        return;
      }
      RemoveAllDevices();
      sdkCalls := sdkCalls + [StartScan];
      isScanning := true;
    }

    /** `stopScanning`: a no-op unless scanning. */
    method StopScanning()
      requires Valid()
      modifies this`sdkCalls, this`isScanning
      ensures Valid() && !isScanning
      ensures sdkCalls == if old(isScanning) then old(sdkCalls) + [StopScan] else old(sdkCalls)
    {
      if !isScanning {
        return;
      }
      sdkCalls := sdkCalls + [StopScan];
      isScanning := false;
    }

    /** `connectToDevice`: when the SDK opens the device it becomes the
        current one and the sample timer starts; when opening throws,
        nothing else changes. The register configuration that follows
        half a second later is SDK traffic and is not modelled. */
    method ConnectToDevice(device: Device, openSucceeds: bool)
      requires Valid()
      modifies this`sdkCalls, this`currentDevice, this`isConnected, this`dataStreamActive
      ensures Valid()
      ensures sdkCalls == old(sdkCalls) + [OpenDevice(device.mac)]
      ensures openSucceeds ==> currentDevice == Some(device) && isConnected && dataStreamActive
      ensures !openSucceeds ==> currentDevice == old(currentDevice) && isConnected == old(isConnected)
                                && dataStreamActive == old(dataStreamActive)
    {
      sdkCalls := sdkCalls + [OpenDevice(device.mac)];
      if !openSucceeds {
        return;
      }
      currentDevice := Some(device);
      isConnected := true;
      dataStreamActive := true;
    }

    /** `disconnect`: the current device, if any, is closed; afterwards there
        is no current device, no connection and no sample timer. */
    method Disconnect()
      requires Valid()
      modifies this`sdkCalls, this`currentDevice, this`isConnected, this`dataStreamActive
      ensures Valid()
      ensures currentDevice.None? && !isConnected && !dataStreamActive
      ensures sdkCalls == if old(currentDevice).Some? then old(sdkCalls) + [CloseDevice(old(currentDevice).value.mac)] else old(sdkCalls)
    {
      if currentDevice.Some? {
        sdkCalls := sdkCalls + [CloseDevice(currentDevice.value.mac)];
      }
      currentDevice := None;
      isConnected := false;
      dataStreamActive := false;
    }

    /** One tick of the sample timer, with the readings the sensor reports
        now. With a device the figures are read and, while recording, a row
        is buffered; without one the at-rest figures are written and no row
        is buffered. Either way the counter rises by one while recording. */
    method UpdateData(readings: map<SensorKey, string>, timeText: string)
      requires Valid()
      modifies this`imuData, this`recordedDataCount, dataRecorder`recordedData
      ensures Valid()
      ensures recordedDataCount == old(recordedDataCount) + (if isRecording then 1 else 0)
      ensures currentDevice.Some? ==> imuData == ImuFromDevice(currentDevice.value.(readings := readings))
      ensures currentDevice.Some? && isRecording ==>
                dataRecorder.recordedData == old(dataRecorder.recordedData) + [Row(currentDevice.value.(readings := readings), timeText)]
      ensures currentDevice.None? || !isRecording ==> dataRecorder.recordedData == old(dataRecorder.recordedData)
      ensures currentDevice.None? ==> imuData == AtRest(old(imuData))
    {
      if currentDevice.Some? {
        var live := currentDevice.value.(readings := readings);
        imuData := ImuFromDevice(live);
        if isRecording {
          dataRecorder.AddDataRecord(live, timeText);
          recordedDataCount := recordedDataCount + 1;
        }
      } else {
        imuData := AtRest(imuData);
        if isRecording {
          recordedDataCount := recordedDataCount + 1;
        }
      }
    }

    /** `startRecording`: a no-op while recording; otherwise the flag, the
        start time, a zero counter, a fresh header-only buffer and the
        duration timer. */
    method StartRecording(now: real)
      requires Valid()
      modifies this`isRecording, this`recordingStartTime, this`recordedDataCount, this`recordingTimerActive, dataRecorder
      ensures Valid() && isRecording
      ensures old(isRecording) ==> recordedDataCount == old(recordedDataCount) && recordingStartTime == old(recordingStartTime)
                                   && dataRecorder.recordedData == old(dataRecorder.recordedData)
      ensures !old(isRecording) ==> recordedDataCount == 0 && recordingStartTime == Some(now)
                                    && dataRecorder.recordedData == [Header] && dataRecorder.GetRecordCount() == 0
    {
      if isRecording {
        return;
      }
      isRecording := true;
      recordingStartTime := Some(now);
      recordedDataCount := 0;
      dataRecorder.StartRecording(now);
      recordingTimerActive := true;
    }

    /** One tick of the one-second duration timer. */
    method RecordingTimerTick(now: real)
      requires Valid()
      modifies this`recordingDuration
      ensures Valid()
      ensures recordingDuration == if recordingTimerActive && recordingStartTime.Some?
                                   then now - recordingStartTime.value else old(recordingDuration)
    {
      if recordingTimerActive && recordingStartTime.Some? {
        recordingDuration := now - recordingStartTime.value;
      }
    }

    /** `stopRecording`: a no-op unless recording; otherwise the flag drops,
        the duration resets to 0 and the start time to nil. Buffer and
        counter are kept for the upload. */
    method StopRecording()
      requires Valid()
      modifies this`isRecording, this`recordingTimerActive, this`recordingDuration, this`recordingStartTime, dataRecorder`isRecording
      ensures Valid() && !isRecording && recordingDuration == 0.0 && recordingStartTime.None?
      ensures !dataRecorder.isRecording
    {
      if !isRecording {
        return;
      }
      isRecording := false;
      dataRecorder.StopRecording();
      recordingTimerActive := false;
      recordingDuration := 0.0;
      recordingStartTime := None;
    }

    /** The dictionary `uploadRecordingDataDirectly` posts. */
    function UploadPayload(csvContent: string, isoNow: string, now: real): (p: JsonObject)
      reads this, dataRecorder
      ensures StringAt(p, "csv_content") == Some(csvContent)
      ensures IntAt(p, "data_points") == Some(recordedDataCount)
      ensures RealAt(p, "recording_duration") == Some(recordingDuration)
      ensures StringAt(p, "device_name") == Some(CurrentDeviceName()) && StringAt(p, "device_mac") == Some(CurrentDeviceMac())
    {
      var stats := dataRecorder.GetRecordingStats(now);
      map[
        "device_name" := JString(CurrentDeviceName()),
        "device_mac" := JString(CurrentDeviceMac()),
        "recording_duration" := JNumber(recordingDuration),
        "data_points" := JNumber(recordedDataCount as real),
        "csv_content" := JString(csvContent),
        "timestamp" := JString(isoNow),
        "stats" := JObject(map[
          "data_points" := JNumber(stats.dataPoints as real),
          "duration" := JNumber(stats.duration),
          "csv_size" := JNumber(stats.csvSize as real)])]
    }

    /** `uploadRecordingDataDirectly`: fails with code 201 when the buffer is
        empty; otherwise posts the payload and hands on the server call's
        result unchanged, failures included. */
    method UploadRecordingDataDirectly(reply: Reply, isoNow: string, now: real)
      returns (payload: Option<JsonObject>, result: Result<JsonObject, AnalysisError>)
      ensures payload.None? <==> dataRecorder.recordedData == []
      ensures payload.None? ==> result == Failure(NSError(ManagerDomain, 201, "无法获取CSV内容"))
      ensures payload.Some? ==> payload.value == UploadPayload(dataRecorder.GetCSVContent().value, isoNow, now)
                                && result == InterpretPostReply(UploadRecordingData, reply)
    {
      var csv := dataRecorder.GetCSVContent();
      if csv.None? {
        return None, Failure(NSError(ManagerDomain, 201, "无法获取CSV内容"));
      }
      payload := Some(UploadPayload(csv.value, isoNow, now));
      result := InterpretPostReply(UploadRecordingData, reply);
    }

    /** `stopRecordingAndUpload`: without a recording it fails with code 202
        and changes nothing. Otherwise recording stops first, so the payload
        carries a zero duration, and the upload's result, failure or not, is
        handed on: no offline result replaces a failure. */
    method StopRecordingAndUpload(reply: Reply, isoNow: string, now: real)
      returns (payload: Option<JsonObject>, result: Result<JsonObject, AnalysisError>)
      requires Valid()
      modifies this`isRecording, this`recordingTimerActive, this`recordingDuration, this`recordingStartTime, dataRecorder`isRecording
      ensures Valid() && !isRecording
      ensures !old(isRecording) ==> payload.None? && result == Failure(NSError(ManagerDomain, 202, "没有正在进行的录制"))
                                    && recordingDuration == old(recordingDuration) && recordingStartTime == old(recordingStartTime)
      ensures old(isRecording) ==> payload.Some? && result == InterpretPostReply(UploadRecordingData, reply)
      ensures old(isRecording) ==> RealAt(payload.value, "recording_duration") == Some(0.0)
                                   && IntAt(payload.value, "data_points") == Some(recordedDataCount)
                                   && StringAt(payload.value, "csv_content") == Some(Join(dataRecorder.recordedData, "\n"))
    {
      if !isRecording {
        return None, Failure(NSError(ManagerDomain, 202, "没有正在进行的录制"));
      }
      StopRecording();
      payload, result := UploadRecordingDataDirectly(reply, isoNow, now);
    }

    /** `onFoundBle`: a found sensor is listed unless one with the same MAC
        already is; a nil notification is ignored. */
    method OnFoundBle(ble: Option<Device>)
      requires Valid()
      modifies this`deviceList
      ensures Valid()
      ensures ble.Some? && !Listed(old(deviceList), ble.value.mac) ==> deviceList == old(deviceList) + [ble.value]
      ensures ble.None? || Listed(old(deviceList), ble.value.mac) ==> deviceList == old(deviceList)
    {
      if ble.Some? && !Listed(deviceList, ble.value.mac) {
        deviceList := deviceList + [ble.value];
      }
    }

    /** `onDisconnected`: only the connection flag drops; the current device
        and the sample timer stay. */
    method OnDisconnected()
      requires Valid()
      modifies this`isConnected
      ensures Valid() && !isConnected
    {
      isConnected := false;
    }

    /** `onRecord`: the SDK's record callback buffers a row while the buffer
        records, without touching the per-tick counter. */
    method OnRecord(device: Device, timeText: string)
      requires Valid()
      modifies dataRecorder`recordedData
      ensures Valid()
      ensures dataRecorder.recordedData == if dataRecorder.isRecording then old(dataRecorder.recordedData) + [Row(device, timeText)]
                                           else old(dataRecorder.recordedData)
    {
      if dataRecorder.isRecording {
        dataRecorder.AddDataRecord(device, timeText);
      }
    }
  }
}
