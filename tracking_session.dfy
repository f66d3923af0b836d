/** The live session screen: it starts recording once when it appears, and
    on exit stops the recording and uploads it, showing a simulated progress
    bar and then the server's answer. Main-queue hops and timers become
    explicit methods: `DeliverUploadResult` runs a queued completion,
    `ShowResultAfterDelay` the one-second delay before the alert,
    `ProgressTick` one firing of the half-second progress timer. */
module TrackingSession {
  import opened Wrappers
  import opened Text
  import opened JsonValues
  import opened Recording
  import opened ServerAnalysis
  import opened SensorManager

  /** `error.localizedDescription` for the errors an upload can end with. */
  function LocalizedDescription(e: AnalysisError): string {
    match e
    case NSError(_, _, message) => message
    case PassedThrough(description) => description
  }

  const SavedLocallyMessage: string := "Data saved locally. Please try again later."

  /** The result the screen keeps after a failed upload. */
  function FailureResult(e: AnalysisError): (r: JsonObject)
    ensures BoolAt(r, "success") == Some(false)
    ensures StringAt(r, "error") == Some(LocalizedDescription(e))
    ensures StringAt(r, "message") == Some(SavedLocallyMessage)
  {
    map["success" := JBool(false), "error" := JString(LocalizedDescription(e)), "message" := JString(SavedLocallyMessage)]
  }

  // ---------------------------------------------------------------------------
  // The simulated progress

  /** The three status bands of the progress text. */
  datatype Band = Preparing | Uploading | Processing {
    function Rank(): nat {
      match this
      case Preparing => 0
      case Uploading => 1
      case Processing => 2
    }
    function Text(): string {
      match this
      case Preparing => "Preparing data... "
      case Uploading => "Uploading to server... "
      case Processing => "Processing analysis... "
    }
  }

  function BandOf(percent: int): (b: Band)
    ensures b == Preparing <==> percent < 30
    ensures b == Uploading <==> 30 <= percent < 70
    ensures b == Processing <==> 70 <= percent
  {
    if percent < 30 then Preparing else if percent < 70 then Uploading else Processing
  }

  /** The bands follow one another as the percentage grows. */
  lemma BandMonotone(p: int, q: int)
    requires p <= q
    ensures BandOf(p).Rank() <= BandOf(q).Rank()
  {
  }

  function ProgressStatus(percent: int): (s: string)
    ensures BandOf(percent).Text() <= s
  {
    BandOf(percent).Text() + IntToString(percent) + "%"
  }

  /** The status text names its band and its percentage: the band's text is
      followed by digits that read back as the percentage, then `%`. */
  lemma ProgressStatusReadsBack(percent: nat)
    ensures var s := ProgressStatus(percent);
            var t := BandOf(percent).Text();
            s[|t|..|s| - 1] == NatToString(percent) && s[|s| - 1] == '%'
            && ParseNumber(s[|t|..|s| - 1]) == Some(percent as real)
  {
    var s := ProgressStatus(percent);
    var t := BandOf(percent).Text();
    assert s == t + NatToString(percent) + "%";
    assert s[|t|..|s| - 1] == NatToString(percent);
    ParseIntRoundTrip(percent);
  }

  /** The percentage the bar shows after `k` timer ticks from 0:
      `Int(uploadProgress * 100)`, where `uploadProgress` is 0.1 added `k`
      times in IEEE doubles. The eighth sum, 0.7999999999999999, still
      scales to 80.0; the ninth, 0.8999999999999999, truncates to 89; the
      tenth, 0.9999999999999999, to 99. */
  function TickPercent(k: int): (p: int)
    requires 1 <= k <= 10
    ensures 10 * (k - 1) < p <= 10 * k
    ensures p == 10 * k <==> k <= 8
  {
    [10, 20, 30, 40, 50, 60, 70, 80, 89, 99][k - 1]
  }

  /** Ticks 1-2 read "Preparing", 3-6 "Uploading" and 7-10 "Processing",
      the bar rises on every tick and never reads 100%. */
  lemma TickBands(k: int)
    requires 1 <= k <= 10
    ensures BandOf(TickPercent(k)) == if k <= 2 then Preparing else if k <= 6 then Uploading else Processing
    ensures k < 10 ==> TickPercent(k) < TickPercent(k + 1)
    ensures TickPercent(k) < 100
  {
  }

  // ---------------------------------------------------------------------------
  // The alert

  /** The stroke count the alert shows: `analysis.data.strokes_detected` when
      it is an integer, else 0. */
  function AlertStrokes(result: JsonObject): (n: int)
    ensures ObjectAt(result, "analysis").None? ==> n == 0
    ensures ObjectAt(result, "analysis").Some? && ObjectAt(ObjectAt(result, "analysis").value, "data").None? ==> n == 0
    ensures ObjectAt(result, "analysis").Some? && ObjectAt(ObjectAt(result, "analysis").value, "data").Some? ==>
              var data := ObjectAt(ObjectAt(result, "analysis").value, "data").value;
              && (IntAt(data, "strokes_detected").Some? ==> n == IntAt(data, "strokes_detected").value)
              && (IntAt(data, "strokes_detected").None? ==> n == 0)
  {
    match ObjectAt(result, "analysis")
    case None => 0
    case Some(analysis) =>
      match ObjectAt(analysis, "data")
      case None => 0
      case Some(data) => IntAt(data, "strokes_detected").GetOr(0)
  }

  const StrokesLabel: string := "\n\nDetected strokes: "
  const UploadedLine: string := "\nUpload successful!"

  /** The alert's message text. */
  function AlertMessage(result: Option<JsonObject>): (text: string)
    ensures result.None? ==> text == "No results available"
    ensures result.Some? && StringAt(result.value, "message").Some? ==>
              text == StringAt(result.value, "message").value + StrokesLabel + IntToString(AlertStrokes(result.value)) + UploadedLine
    ensures result.Some? && StringAt(result.value, "message").None? ==>
              text == "Analysis completed" + StrokesLabel + IntToString(AlertStrokes(result.value)) + UploadedLine
  {
    match result
    case None => "No results available"
    case Some(r) =>
      StringAt(r, "message").GetOr("Analysis completed") + StrokesLabel + IntToString(AlertStrokes(r)) + UploadedLine
  }

  /** The alert after a failed upload still reports success: it shows the
      saved-locally message, zero strokes and "Upload successful!". */
  lemma FailedUploadAlertClaimsSuccess(e: AnalysisError)
    ensures AlertStrokes(FailureResult(e)) == 0
    ensures AlertMessage(Some(FailureResult(e))) == SavedLocallyMessage + StrokesLabel + "0" + UploadedLine
  {
    var r := FailureResult(e);
    assert "analysis" !in r;
    assert AlertStrokes(r) == 0;
    assert IntToString(0) == "0";
  }

  /** The stroke count a server reply carries reaches the alert. */
  lemma AlertShowsServerStrokes(result: JsonObject, data: JsonObject, n: int)
    requires ObjectAt(result, "analysis").Some? && ObjectAt(ObjectAt(result, "analysis").value, "data") == Some(data)
    requires "strokes_detected" in data && data["strokes_detected"] == JNumber(n as real)
    ensures AlertStrokes(result) == n
  {
  }

  // ---------------------------------------------------------------------------
  // The screen

  class TrackingSessionView {
    const sensorManager: BluetoothSensorManager
    var hasAutoStarted: bool
    var isUploading: bool
    /** `uploadProgress` as the number of 0.1 steps added since the reset to
        0; 10 also stands for the 1.0 set when the upload completes. Only
        ten steps fit below 0.9 in doubles, the ninth sum being just under it. */
    var uploadTenths: int
    var uploadStatus: string
    var uploadResult: Option<JsonObject>
    var showUploadResult: bool
    var shouldUploadOnExit: bool
    /** Whether the screen asked to be dismissed. */
    var dismissed: bool
    /** Whether the progress timer is scheduled. */
    var progressTimerActive: bool
    /** Completions of stop-and-upload waiting for the main queue. */
    var pendingResults: seq<Result<JsonObject, AnalysisError>>
    /** Whether the one-second delay before the alert is running. */
    var alertScheduled: bool

    ghost predicate Valid()
      reads this, sensorManager, sensorManager.dataRecorder
    {
      && sensorManager.Valid()
      && 0 <= uploadTenths <= 10
    }

    constructor (manager: BluetoothSensorManager)
      requires manager.Valid()
      ensures Valid() && sensorManager == manager
      ensures !hasAutoStarted && !isUploading && uploadTenths == 0 && uploadResult.None? && !showUploadResult
      ensures shouldUploadOnExit && !dismissed && !progressTimerActive && pendingResults == [] && !alertScheduled
    {
      sensorManager := manager;
      hasAutoStarted := false;
      isUploading := false;
      uploadTenths := 0;
      uploadStatus := "";
      uploadResult := None;
      showUploadResult := false;
      shouldUploadOnExit := true;
      dismissed := false;
      progressTimerActive := false;
      pendingResults := [];
      alertScheduled := false;
    }

    /** `autoStartRecording`: only the first call acts, and it starts a
        recording only when connected and not already recording. */
    method AutoStartRecording(now: real)
      requires Valid()
      modifies this`hasAutoStarted, sensorManager`isRecording, sensorManager`recordingStartTime
      modifies sensorManager`recordedDataCount, sensorManager`recordingTimerActive, sensorManager.dataRecorder
      ensures Valid() && hasAutoStarted
      ensures old(hasAutoStarted) || !old(sensorManager.isConnected) || old(sensorManager.isRecording) ==>
                sensorManager.isRecording == old(sensorManager.isRecording)
                && sensorManager.recordedDataCount == old(sensorManager.recordedDataCount)
                && sensorManager.dataRecorder.recordedData == old(sensorManager.dataRecorder.recordedData)
      ensures !old(hasAutoStarted) && old(sensorManager.isConnected) && !old(sensorManager.isRecording) ==>
                sensorManager.isRecording && sensorManager.recordingStartTime == Some(now)
                && sensorManager.recordedDataCount == 0 && sensorManager.dataRecorder.recordedData == [Header]
    {
      if hasAutoStarted {
        return;
      }
      if sensorManager.isConnected && !sensorManager.isRecording {
        sensorManager.StartRecording(now);
      }
      hasAutoStarted := true;
    }

    /** `startUploadProcess`: the bar resets, the recording is stopped and
        its upload's completion is queued, and the progress timer starts. */
    method StartUploadProcess(reply: Reply, isoNow: string, now: real)
      requires Valid()
      modifies this`isUploading, this`uploadTenths, this`uploadStatus, this`pendingResults, this`progressTimerActive
      modifies sensorManager`isRecording, sensorManager`recordingTimerActive, sensorManager`recordingDuration, sensorManager`recordingStartTime, sensorManager.dataRecorder`isRecording
      ensures Valid()
      ensures isUploading && uploadTenths == 0 && uploadStatus == "Stopping recording..." && progressTimerActive
      ensures !sensorManager.isRecording
      ensures |pendingResults| == |old(pendingResults)| + 1 && pendingResults[..|old(pendingResults)|] == old(pendingResults)
      ensures old(sensorManager.isRecording) ==> pendingResults[|old(pendingResults)|] == InterpretPostReply(UploadRecordingData, reply)
    {
      isUploading := true;
      uploadTenths := 0;
      uploadStatus := "Stopping recording...";
      var payload, result := sensorManager.StopRecordingAndUpload(reply, isoNow, now);
      pendingResults := pendingResults + [result];
      progressTimerActive := true;
    }

    /** `exitSessionWithUpload`, from the close button or "End Session &
        Upload": without a recording the screen only dismisses; otherwise the
        upload starts. Either way no recording runs afterwards, so a second
        exit can only dismiss. */
    method ExitSessionWithUpload(reply: Reply, isoNow: string, now: real)
      requires Valid()
      modifies this`isUploading, this`uploadTenths, this`uploadStatus, this`pendingResults, this`progressTimerActive, this`dismissed
      modifies sensorManager`isRecording, sensorManager`recordingTimerActive, sensorManager`recordingDuration, sensorManager`recordingStartTime, sensorManager.dataRecorder`isRecording
      ensures Valid() && !sensorManager.isRecording
      ensures !old(sensorManager.isRecording) ==>
                dismissed && pendingResults == old(pendingResults) && isUploading == old(isUploading) && uploadTenths == old(uploadTenths)
                && uploadStatus == old(uploadStatus) && progressTimerActive == old(progressTimerActive)
      ensures old(sensorManager.isRecording) ==>
                isUploading && uploadTenths == 0 && uploadStatus == "Stopping recording..." && progressTimerActive
                && dismissed == old(dismissed) && pendingResults == old(pendingResults) + [InterpretPostReply(UploadRecordingData, reply)]
    {
      if !sensorManager.isRecording {
        dismissed := true;
        return;
      }
      StartUploadProcess(reply, isoNow, now);
    }

    /** The main-queue completion of the oldest queued upload: the bar
        fills, the status says how it went, the result (or a failure result
        holding the error text) is kept and the alert is scheduled. */
    method DeliverUploadResult()
      requires Valid()
      modifies this`isUploading, this`uploadTenths, this`uploadStatus, this`uploadResult, this`pendingResults, this`alertScheduled
      ensures Valid()
      ensures old(pendingResults) == [] ==> pendingResults == [] && isUploading == old(isUploading)
                                            && uploadResult == old(uploadResult) && alertScheduled == old(alertScheduled)
      ensures old(pendingResults) != [] ==> pendingResults == old(pendingResults)[1..] && !isUploading && uploadTenths == 10
                                            && alertScheduled
      ensures old(pendingResults) != [] && old(pendingResults)[0].Success? ==>
                uploadStatus == "✅ Upload complete!" && uploadResult == Some(old(pendingResults)[0].value)
      ensures old(pendingResults) != [] && old(pendingResults)[0].Failure? ==>
                uploadStatus == "❌ Upload failed" && uploadResult == Some(FailureResult(old(pendingResults)[0].error))
    {
      if pendingResults == [] {
        return;
      }
      var result := pendingResults[0];
      pendingResults := pendingResults[1..];
      isUploading := false;
      uploadTenths := 10;
      match result {
        case Success(response) =>
          uploadStatus := "✅ Upload complete!";
          uploadResult := Some(response);
        case Failure(e) =>
          uploadStatus := "❌ Upload failed";
          uploadResult := Some(FailureResult(e));
      }
      alertScheduled := true;
    }

    /** The end of the one-second delay: the alert shows. */
    method ShowResultAfterDelay()
      modifies this`showUploadResult, this`alertScheduled
      ensures showUploadResult == (old(showUploadResult) || old(alertScheduled)) && !alertScheduled
    {
      if alertScheduled {
        showUploadResult := true;
        alertScheduled := false;
      }
    }

    /** One firing of the progress timer: it stops once the upload is over;
        otherwise, while the double sum is below 0.9, the bar moves up a
        tenth and the status names the band and the shown percentage. */
    method ProgressTick()
      requires Valid()
      modifies this`uploadTenths, this`uploadStatus, this`progressTimerActive
      ensures Valid()
      ensures !isUploading ==> !progressTimerActive && uploadTenths == old(uploadTenths) && uploadStatus == old(uploadStatus)
      ensures isUploading && old(uploadTenths) < 10 ==>
                uploadTenths == old(uploadTenths) + 1 && uploadStatus == ProgressStatus(TickPercent(uploadTenths))
      ensures isUploading && old(uploadTenths) >= 10 ==> uploadTenths == old(uploadTenths) && uploadStatus == old(uploadStatus)
      ensures isUploading ==> progressTimerActive == old(progressTimerActive)
    {
      if !isUploading {
        progressTimerActive := false;
        return;
      }
      if uploadTenths < 10 {
        uploadTenths := uploadTenths + 1;
        var percent := TickPercent(uploadTenths);
        uploadStatus := ProgressStatus(percent);
      }
    }

    /** `handleViewDisappear`: nothing while uploading; a recording is
        uploaded when the screen should upload on exit and only stopped when
        it should not. */
    method HandleViewDisappear(reply: Reply, isoNow: string, now: real)
      requires Valid()
      modifies this`isUploading, this`uploadTenths, this`uploadStatus, this`pendingResults, this`progressTimerActive
      modifies sensorManager`isRecording, sensorManager`recordingTimerActive, sensorManager`recordingDuration, sensorManager`recordingStartTime, sensorManager.dataRecorder`isRecording
      ensures Valid()
      ensures old(isUploading) || !old(sensorManager.isRecording) ==>
                pendingResults == old(pendingResults) && sensorManager.isRecording == old(sensorManager.isRecording)
                && isUploading == old(isUploading)
      ensures old(isUploading) || !old(sensorManager.isRecording) || !shouldUploadOnExit ==>
                uploadTenths == old(uploadTenths) && uploadStatus == old(uploadStatus)
                && progressTimerActive == old(progressTimerActive)
      ensures !old(isUploading) && old(sensorManager.isRecording) && shouldUploadOnExit ==>
                isUploading && uploadTenths == 0 && uploadStatus == "Stopping recording..." && progressTimerActive
                && !sensorManager.isRecording
                && pendingResults == old(pendingResults) + [InterpretPostReply(UploadRecordingData, reply)]
      ensures !old(isUploading) && old(sensorManager.isRecording) && !shouldUploadOnExit ==>
                !isUploading && !sensorManager.isRecording && pendingResults == old(pendingResults)
    {
      if isUploading {
        return;
      }
      if sensorManager.isRecording && shouldUploadOnExit {
        StartUploadProcess(reply, isoNow, now);
      } else if sensorManager.isRecording {
        sensorManager.StopRecording();
      }
    }

    /** The "Disconnect" button: no upload on exit, the recording (if any)
        stops, the sensor disconnects and the screen dismisses. */
    method DisconnectAction()
      requires Valid()
      modifies this`shouldUploadOnExit, this`dismissed, sensorManager`isRecording, sensorManager`recordingTimerActive, sensorManager`recordingDuration, sensorManager`recordingStartTime, sensorManager.dataRecorder`isRecording
      modifies sensorManager`sdkCalls, sensorManager`currentDevice, sensorManager`isConnected, sensorManager`dataStreamActive
      ensures Valid()
      ensures !shouldUploadOnExit && dismissed
      ensures !sensorManager.isRecording && !sensorManager.isConnected && sensorManager.currentDevice.None?
      ensures sensorManager.dataRecorder.recordedData == old(sensorManager.dataRecorder.recordedData)
      ensures sensorManager.sdkCalls == if old(sensorManager.currentDevice).Some?
                                        then old(sensorManager.sdkCalls) + [CloseDevice(old(sensorManager.currentDevice).value.mac)]
                                        else old(sensorManager.sdkCalls)
    {
      shouldUploadOnExit := false;
      if sensorManager.isRecording {
        sensorManager.StopRecording();
      }
      sensorManager.Disconnect();
      dismissed := true;
    }

    /** Either alert button: the result is dropped and the screen dismisses. */
    method DismissAlert()
      modifies this`uploadResult, this`showUploadResult, this`dismissed
      ensures uploadResult.None? && !showUploadResult && dismissed
    {
      uploadResult := None;
      showUploadResult := false;
      dismissed := true;
    }
  }
}
