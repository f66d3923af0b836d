# Tennis sensor recording and stroke detection, modelled in Dafny

This project models the logic at the centre of a tennis-training system.
An iOS app records a Bluetooth IMU sensor (a WitMotion BWT901 at 200 Hz)
into an in-memory CSV buffer. It uploads the recording to a Flask
backend. The backend finds the strokes in that recording.

The model covers five pieces:

- **The recording buffer** (`Recording.DataRecorder`): a header line of 17
  columns followed by one row per sample. It has start, stop and clear
  operations, derived counts and statistics, and CSV text.
- **The sensor manager and the session screen** (`SensorManager`,
  `TrackingSession`): scanning, the device list kept unique by MAC,
  connection, the 200 Hz sample tick, recording, stop-and-upload, and the
  session screen's exit, upload, progress and alert logic.
- **The older app context** (`AppModel`): its device list, its every-third-sample
  analysis counter, its recording and file information strings, and the
  summary it shows for a tennis analysis.
- **The client's server decisions** (`ServerAnalysis`): the URLs, the health
  check, the success/error rule shared by the three POST calls, the
  offline motion classifier and the tennis request body.
- **The backend analyser** (`StrokeAnalyzer`, `StrokeDetection`) and its
  standalone copy (`SingleImu`). The chain is: CSV text, column mapping,
  row parsing, threshold-and-sign-change detection, filtering with a
  minimum gap of 75 rows, fixed-width windows, one stroke type per window,
  and the result dictionary (`AnalysisSummary` ties that dictionary to the
  app's summary).

Each class that the source updates in place is a Dafny `class` with
`modifies` clauses. Its methods state the whole new state.

Each loop of the Python code is a `method` with a `while` or `for` loop. The
method is proved equal to a specification function over a prefix of its
input. Lemmas state what those functions mean: the indices are strictly
increasing and in range, the output is a subsequence at least 75 rows
apart, and every window is in bounds.

The sensor SDK, the timers, the network and the clock are not called:
- SDK calls are appended to a log (`sdkCalls`);
- each timer firing or queued completion is one method call;
- a server reply is a parameter of type `Reply`;
- times, formatted times and `%.1f` formatting are parameters.

Sensor values are `real`. Magnitudes are compared through their squares,
so no square root is needed.

The detector, the filter and the slicer of
`backend/analyzers/tennis_stroke_analyzer.py` and
`backend/single_imu_stroke_detector.py` compute the same thing. They
differ only in what the model leaves out: the default threshold is `300`
in one and `300.0` in the other, and one slicer keeps numpy arrays and can
plot where the other converts each slice with `tolist()`. They are
modelled once, in `StrokeDetection`, so the two files compute the
same functions by construction. The two `DataRecorder` copies in
`BluetoothSensorManager.swift` and `BleExampleApp.swift` are likewise one
class. The BleExampleApp copy lacks only `getCSVContent`,
`getCurrentRecordCount`, `getRecordingStats` and `clearData`.

Where the model and the stated design disagree, the model follows the code:
- the analyser maps `GX`/`GY`/`GZ` of the app's own header to the angle
  columns;
- the standalone loader shifts columns when a cell is blank;
- the app reads the analysis statistics from the wrong level of the
  result.

These three are listed under "Findings". Each has an as-written member and
a corrected member. The loaders and pipelines that the rest of the model
uses are the corrected ones.

## Model

| member | source | states |
|---|---|---|
| Recording.HeaderColumnsSplit | IOS_frontend/BleExample/TennisAnalysis/BluetoothSensorManager.swift:505-507 | The header line splits on commas into exactly the 17 column names. |
| Recording.HeaderIsJoin | IOS_frontend/BleExample/TennisAnalysis/BluetoothSensorManager.swift:505-507 | The header line is the 17 column names joined by commas. |
| Recording.HeaderHasNoNewline | IOS_frontend/BleExample/TennisAnalysis/BluetoothSensorManager.swift:505-507 | The header contains no newline, so it stays one line of the CSV text. |
| Recording.RowFields | IOS_frontend/BleExample/TennisAnalysis/BluetoothSensorManager.swift:519-545 | A row has 17 fields: time text, name or "", MAC or "", and then each of the 14 readings in header order, with "0" for a missing reading. |
| Recording.RowSplitsUnderHeader | IOS_frontend/BleExample/TennisAnalysis/BluetoothSensorManager.swift:524-545 | When no field holds a comma, a row splits back into its fields, one under each header column. |
| Recording.DataRecorder.constructor | IOS_frontend/BleExample/TennisAnalysis/BluetoothSensorManager.swift:484-496 | A new recorder is not recording, has no start time and has an empty buffer. |
| Recording.DataRecorder.StartRecording | IOS_frontend/BleExample/TennisAnalysis/BluetoothSensorManager.swift:499-510 | It sets the flag and start time and drops the old buffer. The buffer is then exactly the header. |
| Recording.DataRecorder.StopRecording | IOS_frontend/BleExample/TennisAnalysis/BluetoothSensorManager.swift:513-516 | Only the flag drops; nothing else may change. |
| Recording.DataRecorder.AddDataRecord | IOS_frontend/BleExample/TennisAnalysis/BluetoothSensorManager.swift:519-545 | While recording, exactly one row is appended at the end; otherwise the buffer is unchanged. Earlier lines are never touched. While recording, the line count rises by one, and so does the record count once a header is buffered. |
| Recording.DataRecorder.SaveDataToFile | IOS_frontend/BleExample/BleExampleApp.swift:183-206 | It returns None when the buffer is empty or there is no start time. It saves exactly when both exist and the write succeeds. The name is "sensor_data_" + formatted start + ".csv" and the contents are the CSV text. |
| Recording.DataRecorder.GetCSVContent | IOS_frontend/BleExample/TennisAnalysis/BluetoothSensorManager.swift:574-579 | nil if and only if the buffer is empty, so a header-only buffer gives text. The text splits back into the buffered lines, which number the record count + 1. |
| Recording.DataRecorder.GetRecordCount | IOS_frontend/BleExample/TennisAnalysis/BluetoothSensorManager.swift:582-584 | max(0, lines - 1): never negative, the line count less the header. |
| Recording.DataRecorder.GetCurrentRecordCount | IOS_frontend/BleExample/TennisAnalysis/BluetoothSensorManager.swift:587-589 | Every buffered line: the record count plus the header, when there is one. |
| Recording.DataRecorder.GetRecordingDuration | IOS_frontend/BleExample/BleExampleApp.swift:214-217 | 0 unless recording with a start time; otherwise now minus the start time. |
| Recording.DataRecorder.GetRecordingStats | IOS_frontend/BleExample/TennisAnalysis/BluetoothSensorManager.swift:598-604 | data_points is the record count and duration is the recording duration. csv_size is the UTF-8 length of the newline-joined buffer, between 1 and 4 bytes per character. |
| Recording.DataRecorder.ClearData | IOS_frontend/BleExample/TennisAnalysis/BluetoothSensorManager.swift:607-611 | The buffer and start time are dropped and the flag is untouched. Afterwards the CSV text is nil and the record count is 0. |
| Recording.RowsAfterStart | IOS_frontend/BleExample/BleExampleApp.swift:134-145 | After a start and k rows, the CSV text has k + 1 lines and starts with the header. |
| SensorManager.AtRest | IOS_frontend/BleExample/TennisAnalysis/BluetoothSensorManager.swift:270-280 | Without a device the figures are those of a level sensor: acceleration 0.01, 0.02, 1.00; rotation 0, 0, 0; angles 0.5, -0.3, 1.2. Temperature and battery are kept. |
| SensorManager.ReadValue | IOS_frontend/BleExample/TennisAnalysis/BluetoothSensorManager.swift:250-263 | A reading that parses as a number gives that number. A missing reading gives the fallback value, and so does one that is not a number. |
| SensorManager.SilentDeviceReadsDefaults | IOS_frontend/BleExample/TennisAnalysis/BluetoothSensorManager.swift:250-263 | A sensor that reports nothing reads as all zeros, 25 degrees and 100% battery. |
| SensorManager.TruncateToInt | IOS_frontend/BleExample/TennisAnalysis/BluetoothSensorManager.swift:329-330 | Int(x) truncates toward zero. |
| SensorManager.Pad2ReadsBack | IOS_frontend/BleExample/TennisAnalysis/BluetoothSensorManager.swift:331 | %02d of a non-negative number reads back as that number. |
| SensorManager.FormatDurationReadsBack | IOS_frontend/BleExample/TennisAnalysis/BluetoothSensorManager.swift:328-332 | MM:SS splits into minutes, and seconds below 60, with minutes * 60 + seconds equal to the whole seconds. |
| SensorManager.CloseCalls | IOS_frontend/BleExample/TennisAnalysis/BluetoothSensorManager.swift:226-228 | One close call per listed device, in list order. |
| SensorManager.BluetoothSensorManager.constructor | IOS_frontend/BleExample/TennisAnalysis/BluetoothSensorManager.swift:17-56 | Not connected, not recording, not scanning, no device, empty list and buffer, zero counter. Valid holds. |
| SensorManager.BluetoothSensorManager.CurrentDeviceName | IOS_frontend/BleExample/TennisAnalysis/BluetoothSensorManager.swift:215-217 | The device's name, or "未连接设备" when there is no device or the device has no name. |
| SensorManager.BluetoothSensorManager.CurrentDeviceMac | IOS_frontend/BleExample/TennisAnalysis/BluetoothSensorManager.swift:220-222 | The device's MAC, or "未知MAC" when there is no device or the device has no MAC. |
| SensorManager.BluetoothSensorManager.RemoveAllDevices | IOS_frontend/BleExample/TennisAnalysis/BluetoothSensorManager.swift:225-230 | Every listed device is closed in order, and the list ends empty. |
| SensorManager.BluetoothSensorManager.StartScanning | IOS_frontend/BleExample/TennisAnalysis/BluetoothSensorManager.swift:65-78 | A no-op while scanning. Otherwise the list is cleared (its devices closed), a scan starts, and the scanning flag is set. |
| SensorManager.BluetoothSensorManager.StopScanning | IOS_frontend/BleExample/TennisAnalysis/BluetoothSensorManager.swift:81-87 | A no-op unless scanning; afterwards the manager is never scanning. |
| SensorManager.BluetoothSensorManager.ConnectToDevice | IOS_frontend/BleExample/TennisAnalysis/BluetoothSensorManager.swift:90-110 | The open is attempted. On success the device becomes current, connected and streaming. On a throw the current device and the connection flag are unchanged. |
| SensorManager.BluetoothSensorManager.Disconnect | IOS_frontend/BleExample/TennisAnalysis/BluetoothSensorManager.swift:203-212 | The current device, if any, is closed. Afterwards there is no device, no connection and no sample timer. |
| SensorManager.BluetoothSensorManager.UpdateData | IOS_frontend/BleExample/TennisAnalysis/BluetoothSensorManager.swift:247-287 | The counter rises by 1 if and only if recording. A row is buffered only with a device while recording. Without a device the at-rest figures are written. |
| SensorManager.BluetoothSensorManager.StartRecording | IOS_frontend/BleExample/TennisAnalysis/BluetoothSensorManager.swift:290-305 | A no-op while recording. Otherwise: recording, start time now, counter 0, and a header-only buffer with a record count of 0. |
| SensorManager.BluetoothSensorManager.RecordingTimerTick | IOS_frontend/BleExample/TennisAnalysis/BluetoothSensorManager.swift:299-302 | The duration becomes now minus the start time while the timer runs. |
| SensorManager.BluetoothSensorManager.StopRecording | IOS_frontend/BleExample/TennisAnalysis/BluetoothSensorManager.swift:308-325 | Afterwards: not recording, duration 0, no start time, and the buffer's flag down. The buffer and the counter are kept. |
| SensorManager.BluetoothSensorManager.UploadPayload | IOS_frontend/BleExample/TennisAnalysis/BluetoothSensorManager.swift:353-361 | The payload carries the CSV text, the per-tick counter (not the buffer's row count), the current duration, and the device's name and MAC. |
| SensorManager.BluetoothSensorManager.UploadRecordingDataDirectly | IOS_frontend/BleExample/TennisAnalysis/BluetoothSensorManager.swift:335-370 | An empty buffer fails with code 201. Otherwise the payload is posted and the server call's result is handed on unchanged. |
| SensorManager.BluetoothSensorManager.StopRecordingAndUpload | IOS_frontend/BleExample/TennisAnalysis/BluetoothSensorManager.swift:409-424 | Without a recording it fails with code 202 and changes nothing. Otherwise it stops first, so recording_duration is 0. The upload's result, failure included, is passed through; there is no offline fallback. |
| SensorManager.BluetoothSensorManager.OnFoundBle | IOS_frontend/BleExample/TennisAnalysis/BluetoothSensorManager.swift:430-436 | A found sensor is appended if and only if no listed device has its MAC, so MACs stay unique. A nil notification changes nothing. |
| SensorManager.BluetoothSensorManager.OnDisconnected | IOS_frontend/BleExample/TennisAnalysis/BluetoothSensorManager.swift:446-449 | Only the connection flag drops. |
| SensorManager.BluetoothSensorManager.OnRecord | IOS_frontend/BleExample/TennisAnalysis/BluetoothSensorManager.swift:455-460 | A row is buffered while the buffer records, and the per-tick counter is not touched. So the counter and the record count can drift apart. |
| AppModel.Wrap | IOS_frontend/BleExample/BleExampleApp.swift:685 | The wrapped sensor has the notification's MAC, and nil for a nil notification. |
| AppModel.AppContext.constructor | IOS_frontend/BleExample/BleExampleApp.swift:614-663 | Empty list, zero counter, an idle empty recorder, and server availability as the health check reported it. |
| AppModel.AppContext.IsNotFound | IOS_frontend/BleExample/BleExampleApp.swift:691-698 | True if and only if no listed device has the notification's MAC (nil equals nil). |
| AppModel.AppContext.OnFoundBle | IOS_frontend/BleExample/BleExampleApp.swift:682-687 | The wrapped sensor is appended exactly when its MAC is not listed; otherwise the list is unchanged. MACs stay unique. |
| AppModel.AppContext.RemoveAllDevice | IOS_frontend/BleExample/BleExampleApp.swift:745-750 | Each listed sensor is closed in order, and the list ends empty. |
| AppModel.AppContext.OnRecord | IOS_frontend/BleExample/BleExampleApp.swift:761-774 | A row is appended only while recording. |
| AppModel.AppContext.StartDataRecording | IOS_frontend/BleExample/BleExampleApp.swift:984-986 | Afterwards the buffer is exactly the header: current count 1, record count 0, start time now. |
| AppModel.AppContext.StopDataRecording | IOS_frontend/BleExample/BleExampleApp.swift:989-995 | Recording stops. A file is saved exactly when there are lines and a start time and the write succeeds. It is named after the start time and holds the CSV text. |
| AppModel.AppContext.GetRecordingInfo | IOS_frontend/BleExample/BleExampleApp.swift:1003-1011 | "未记录" when not recording. Otherwise exactly "记录中 - ", the duration truncated toward zero to whole seconds in decimal, "秒 - ", the record count and "个数据点". |
| AppModel.RecordingLineInjective | IOS_frontend/BleExample/BleExampleApp.swift:1005-1007 | Two recording lines are equal only when their durations and their counts are, so the line determines both numbers. |
| AppModel.AppContext.PerformRealTimeAnalysis | IOS_frontend/BleExample/BleExampleApp.swift:1103-1121 | The counter rises by 1 on every call. The sample is dispatched, to the server or offline as availability says, exactly when the counter is a multiple of 3. |
| AppModel.DispatchesAfterCount | IOS_frontend/BleExample/BleExampleApp.swift:1104-1107 | Over any run of calls, the number dispatched is the number of multiples of 3 the counter passes. |
| AppModel.PrepareSensorData | IOS_frontend/BleExample/BleExampleApp.swift:1124-1146 | The dictionary's `sensor_data` holds all nine acceleration, gyroscope and angle readings as strings ("0" when missing), and it contains the name and MAC ("Unknown" when nil), the open state and the time. |
| AppModel.PreparedSampleClassifiesOffline | IOS_frontend/BleExample/BleExampleApp.swift:1124-1146 | A prepared sample always passes the offline analysis. It is classified from the same acceleration figures the sensor manager reads. |
| AppModel.SizeUnit | IOS_frontend/BleExample/BleExampleApp.swift:1069-1076 | Below 1024 the size itself, in B. Below 1 MiB the whole KiB, by integer division. Otherwise the whole MiB. |
| AppModel.SizeLabelReadsBack | IOS_frontend/BleExample/BleExampleApp.swift:1070-1076 | The label splits at its space into the number and the unit, and the number reads back. |
| AppModel.LineCount | IOS_frontend/BleExample/BleExampleApp.swift:1081-1082 | max(0, pieces - 1) is the number of newline characters. |
| AppModel.GetFileInfo | IOS_frontend/BleExample/BleExampleApp.swift:1061-1089 | "未知" and 0 until the attributes and contents are read. The size label comes from an integer size. The line count comes from the contents. |
| AppModel.SavedLinesCount | IOS_frontend/BleExample/BleExampleApp.swift:1080-1082 | For a saved recording, the line count shown is the number of data rows: the header is not counted. |
| AppModel.StrokeLines | IOS_frontend/BleExample/BleExampleApp.swift:1276-1281 | At most one line per shown stroke, and exactly one per stroke when every stroke has a type and a power. |
| AppModel.StrokeDetails | IOS_frontend/BleExample/BleExampleApp.swift:1274-1285 | Empty without strokes. With more than 3 strokes it contains "还有(n-3)次击球". |
| AppModel.SuccessSummary | IOS_frontend/BleExample/BleExampleApp.swift:1287-1299 | The text starts with the title and the stroke count, and contains the statistics block read from the given object. |
| AppModel.TennisSummary | IOS_frontend/BleExample/BleExampleApp.swift:1266-1311 | As written. A failure shows the error, or "未知错误" when there is none. A success without a data object shows the fixed notice. Otherwise the text has the title and count and reads the statistics from `data` itself. |
| AppModel.TennisSummaryFromStatistics | IOS_frontend/BleExample/BleExampleApp.swift:1266-1311 | As `TennisSummary`, but the statistics are read from `data["statistics"]`. |
| ServerAnalysis.RouteURL | IOS_frontend/TennisAnalysis/ServerAnalysisManager.swift:33 | Every endpoint URL extends the base URL. |
| ServerAnalysis.BaseURLValue | IOS_frontend/TennisAnalysis/ServerAnalysisManager.swift:16-20 | The base URL is "http://10.32.112.180:5000/api"; /health and /recordings/upload sit under it. |
| ServerAnalysis.RouteURLInjective | IOS_frontend/TennisAnalysis/ServerAnalysisManager.swift:33 | Different endpoints have different URLs. |
| ServerAnalysis.TestConnection | IOS_frontend/TennisAnalysis/ServerAnalysisManager.swift:38-55 | Reachable if and only if an HTTP response with status 200 arrives. Each failure has its message, and another status's message contains the code. |
| ServerAnalysis.InterpretPostReply | IOS_frontend/TennisAnalysis/ServerAnalysisManager.swift:98-127 | Success if and only if the parsed JSON object's success casts to `true`, and then the result is that object. A transport error and a parser error are passed through unchanged. Missing data gives the call's no-data error. The manager's own errors carry the call's domain and its no-data or rejection code. |
| ServerAnalysis.RejectedReplyCarriesServerError | IOS_frontend/TennisAnalysis/ServerAnalysisManager.swift:120-127 | A parsed reply that is not accepted fails with the rejection code. It carries the server's error text, or "未知错误". |
| ServerAnalysis.PostReplyIgnoresStatus | IOS_frontend/TennisAnalysis/ServerAnalysisManager.swift:219-237 | The HTTP status plays no part in a POST call's result. |
| ServerAnalysis.PostRuleSharedByAllCalls | IOS_frontend/TennisAnalysis/ServerAnalysisManager.swift:291-336 | The three calls succeed on the same replies with the same object, and fail with the same server error text. |
| ServerAnalysis.StatusAndSuccessIndependent | IOS_frontend/TennisAnalysis/ServerAnalysisManager.swift:115 | A 500 reply with success true succeeds. A 200 reply with success false fails. |
| ServerAnalysis.NumericSuccessBridges | IOS_frontend/TennisAnalysis/ServerAnalysisManager.swift:115 | A reply whose success is a number is accepted if and only if that number is 1, as the NSNumber cast to Bool does. |
| ServerAnalysis.ClassifySquared | IOS_frontend/TennisAnalysis/ServerAnalysisManager.swift:156-165 | On the squared magnitude: Still if and only if below 0.04; Moving if and only if at least 1.0. |
| ServerAnalysis.ClassifySquaredAgrees | IOS_frontend/TennisAnalysis/ServerAnalysisManager.swift:156-165 | Banding the square by 0.04 and 1.0 equals banding the magnitude by 0.2 and 1.0. |
| ServerAnalysis.ClassifyMonotone | IOS_frontend/TennisAnalysis/ServerAnalysisManager.swift:159-165 | More acceleration never gives a calmer state. |
| ServerAnalysis.AccComponent | IOS_frontend/TennisAnalysis/ServerAnalysisManager.swift:152-154 | A missing, non-string or unparsable component reads as 0. |
| ServerAnalysis.AccComponentReadsIntegers | IOS_frontend/TennisAnalysis/ServerAnalysisManager.swift:152-154 | A component written as an integer string reads back as that integer. |
| ServerAnalysis.AnalyzeOffline | IOS_frontend/TennisAnalysis/ServerAnalysisManager.swift:141-175 | Success if and only if sensor_data is a dictionary. analysis_type is "offline_swift" on success and "offline_fallback" otherwise. On success the squared magnitude is the sum of the squares of acc_x, acc_y and acc_z as read from their strings, and the state classifies it. |
| ServerAnalysis.OfflineUnreadableIsStill | IOS_frontend/TennisAnalysis/ServerAnalysisManager.swift:152-165 | A sample with no readable components is still, with magnitude 0. |
| ServerAnalysis.OfflineClassifiesIntegerSample | IOS_frontend/TennisAnalysis/ServerAnalysisManager.swift:141-175 | A sample whose acc_x, acc_y and acc_z are integer strings is classified by the sum of their squares. |
| ServerAnalysis.TennisRequestBody | IOS_frontend/TennisAnalysis/ServerAnalysisManager.swift:194-198 | The body has exactly the keys csv_content, threshold and slice_len. |
| ServerAnalysis.TennisRequestBodyRoundTrip | IOS_frontend/TennisAnalysis/ServerAnalysisManager.swift:178-198 | Reading the body back gives the three arguments. |
| TrackingSession.FailureResult | IOS_frontend/BleExample/TennisAnalysis/TrackingSessionView.swift:355-359 | success false, with the error's text and the saved-locally message. |
| TrackingSession.BandOf | IOS_frontend/BleExample/TennisAnalysis/TrackingSessionView.swift:405-411 | Preparing if and only if below 30%. Uploading if and only if at least 30% and below 70%. Processing otherwise. |
| TrackingSession.BandMonotone | IOS_frontend/BleExample/TennisAnalysis/TrackingSessionView.swift:405-411 | The bands follow one another as the percentage grows. |
| TrackingSession.ProgressStatus | IOS_frontend/BleExample/TennisAnalysis/TrackingSessionView.swift:405-411 | The status text starts with its band's text. |
| TrackingSession.ProgressStatusReadsBack | IOS_frontend/BleExample/TennisAnalysis/TrackingSessionView.swift:402-411 | After the band the text carries the percentage's digits, which read back, followed by "%". |
| TrackingSession.AlertStrokes | IOS_frontend/BleExample/TennisAnalysis/TrackingSessionView.swift:272-277 | 0 without an analysis object or without its data object. Otherwise `strokes_detected` when it is an integer, else 0. |
| TrackingSession.AlertMessage | IOS_frontend/BleExample/TennisAnalysis/TrackingSessionView.swift:271-289 | "No results available" without a result. Otherwise exactly the result's message (or "Analysis completed" when it has none), then "\n\nDetected strokes: ", the stroke count in decimal, and "\nUpload successful!". |
| TrackingSession.FailedUploadAlertClaimsSuccess | IOS_frontend/BleExample/TennisAnalysis/TrackingSessionView.swift:281-286 | After a failed upload the alert still says "Upload successful!", with 0 strokes. |
| TrackingSession.AlertShowsServerStrokes | IOS_frontend/BleExample/TennisAnalysis/TrackingSessionView.swift:273-276 | An integer analysis.data.strokes_detected is the count shown. |
| TrackingSession.TrackingSessionView.constructor | IOS_frontend/BleExample/TennisAnalysis/TrackingSessionView.swift:16-24 | Not started, not uploading, progress 0, no result, and uploading on exit. |
| TrackingSession.TrackingSessionView.AutoStartRecording | IOS_frontend/BleExample/TennisAnalysis/TrackingSessionView.swift:294-310 | Only the first call acts, and afterwards hasAutoStarted holds. It starts a recording only when connected and not recording; otherwise the recording is unchanged. It may change only the recording fields of the manager and the recorder. |
| TrackingSession.TrackingSessionView.StartUploadProcess | IOS_frontend/BleExample/TennisAnalysis/TrackingSessionView.swift:332-371 | Uploading, progress 0, "Stopping recording...". The recording stops, the upload's completion is queued, and the progress timer starts. Of the manager only the recording state may change. |
| TrackingSession.TrackingSessionView.ExitSessionWithUpload | IOS_frontend/BleExample/TennisAnalysis/TrackingSessionView.swift:320-329 | Without a recording it only dismisses, and the queue, bar, status and timer are unchanged. Otherwise it starts the upload: uploading, the bar at 0, the status "Stopping recording...", the progress timer running and the upload's result queued. Either way no recording runs afterwards, so a second exit cannot start a second upload. |
| TrackingSession.TrackingSessionView.DeliverUploadResult | IOS_frontend/BleExample/TennisAnalysis/TrackingSessionView.swift:339-366 | Not uploading, progress 1.0, and the alert scheduled. A success keeps the response. A failure keeps a result with success false and the error text. |
| TrackingSession.TrackingSessionView.ShowResultAfterDelay | IOS_frontend/BleExample/TennisAnalysis/TrackingSessionView.swift:349-351 | The alert shows once the scheduled delay ends. |
| TrackingSession.TrackingSessionView.ProgressTick | IOS_frontend/BleExample/TennisAnalysis/TrackingSessionView.swift:393-413 | The timer stops once the upload is over. While the double sum is below 0.9, which lasts ten ticks, the bar rises a tenth and the status names the band and the percentage the source shows. After that nothing changes. |
| TrackingSession.TickPercent | IOS_frontend/BleExample/TennisAnalysis/TrackingSessionView.swift:400-402 | Tick k shows a percentage above 10(k-1) and at most 10k. It is exactly 10k for the first eight ticks only: the ninth shows 89 and the tenth 99. |
| TrackingSession.TickBands | IOS_frontend/BleExample/TennisAnalysis/TrackingSessionView.swift:400-411 | Ticks 1-2 say "Preparing", 3-6 "Uploading" and 7-10 "Processing". The percentage rises on every tick and never reads 100. |
| TrackingSession.TrackingSessionView.HandleViewDisappear | IOS_frontend/BleExample/TennisAnalysis/TrackingSessionView.swift:374-390 | Nothing while uploading or when not recording. Recording with upload-on-exit, the upload starts: uploading, the bar at 0, the status "Stopping recording...", the timer running and the result queued. Recording without it, the recording only stops, and the bar, status and timer are unchanged. |
| TrackingSession.TrackingSessionView.DisconnectAction | IOS_frontend/BleExample/TennisAnalysis/TrackingSessionView.swift:226-232 | No upload on exit. Afterwards: not recording, disconnected, no device, the buffer unchanged, dismissed. The SDK is asked to close the connected device, if any. Only the recording and connection fields of the manager may change. |
| TrackingSession.TrackingSessionView.DismissAlert | IOS_frontend/BleExample/TennisAnalysis/TrackingSessionView.swift:261-269 | The result is dropped, the alert hides and the screen dismisses. |
| StrokeDetection.Sign | backend/analyzers/tennis_stroke_analyzer.py:221-222 | np.sign: 1, -1 or 0 exactly as the value is positive, negative or zero. |
| StrokeDetection.DetectedUpToShape | backend/analyzers/tennis_stroke_analyzer.py:209-238 | The indices found in the first k rows are strictly increasing. t is among them if and only if 1 <= t <= k and row t - 1 is a stroke: a gyro jump above the threshold on some axis, with sign changes of both gyro and acc in the clipped window. |
| StrokeDetection.DetectStrokeTimestamps | backend/analyzers/tennis_stroke_analyzer.py:209-238 | The loop computes the detected indices. They are strictly increasing. t is included if and only if 1 <= t < n and the stroke rule holds at t - 1. |
| StrokeDetection.FilteredMeaning | backend/analyzers/tennis_stroke_analyzer.py:240-250 | The output is the subsequence at the kept positions. Empty if and only if the input is empty. It starts with the first element. Element i is kept if and only if its gap to its input predecessor is at least min_gap. On non-decreasing input, consecutive outputs are at least min_gap apart. |
| StrokeDetection.FilterTimestamps | backend/analyzers/tennis_stroke_analyzer.py:240-250 | The loop computes the filtered subsequence and is no longer than its input. |
| StrokeDetection.PyBound | backend/analyzers/tennis_stroke_analyzer.py:258-262 | A Python slice bound is clipped into [0, n], and an in-range bound is kept. |
| StrokeDetection.SlicesUpToShape | backend/analyzers/tennis_stroke_analyzer.py:252-270 | One slice per timestamp whose clipped window has exactly window_size rows, in order. Timestamp i is kept if and only if its window fits. |
| StrokeDetection.NegativeWindowKeepsRows | backend/analyzers/tennis_stroke_analyzer.py:259-268 | A negative window size can still pass the fit test: window -4 at timestamp 1 on six rows keeps rows 3 and 4, because Python counts the end bound -1 from the end. |
| StrokeDetection.FitsIff | backend/analyzers/tennis_stroke_analyzer.py:260-264 | For an even window, a window fits if and only if half <= t and t + half <= n. |
| StrokeDetection.OddWindowNoSlices | backend/analyzers/tennis_stroke_analyzer.py:260-264 | An odd window_size yields no slices. |
| StrokeDetection.SlicesInBounds | backend/analyzers/tennis_stroke_analyzer.py:258-268 | Every kept slice is the in-bounds run src[t - half .. t - half + w]. |
| StrokeDetection.SliceLengths | backend/analyzers/tennis_stroke_analyzer.py:263-268 | Every kept slice has exactly window_size rows. |
| StrokeDetection.ExtractStrokeSlices | backend/analyzers/tennis_stroke_analyzer.py:252-270 | The loop computes both slice lists. Their counts are equal and at most the number of timestamps. None exist for an odd window. Every slice has window_size rows. |
| StrokeDetection.PipelineShape | backend/analyzers/tennis_stroke_analyzer.py:47-58 | The reported timestamps are detected strokes: increasing, in [1, n-1] and at least 75 apart. There is at most one slice pair per timestamp. |
| StrokeAnalyzer.LastMatchUpTo | backend/analyzers/tennis_stroke_analyzer.py:121-129 | The last matching header cell, or None exactly when no cell matches. |
| StrokeAnalyzer.FirstMatchUpTo | backend/analyzers/tennis_stroke_analyzer.py:121-129 | The first matching header cell, or None exactly when no cell matches. |
| StrokeAnalyzer.MapColumnsAsWritten | backend/analyzers/tennis_stroke_analyzer.py:121-129 | As written, the loop maps each column to the last header cell that matches it by substring either way. |
| StrokeAnalyzer.MapColumns | backend/analyzers/tennis_stroke_analyzer.py:121-129 | Corrected: the same matching rule, but the first match wins. |
| StrokeAnalyzer.Cells | backend/analyzers/tennis_stroke_analyzer.py:116 | One stripped cell per comma-separated part. |
| StrokeAnalyzer.ParsedUpToShape | backend/analyzers/tennis_stroke_analyzer.py:159-200 | Rejected lines are skipped, whether blank or holding an unparsable value. Every other line gives exactly one sample, in order. |
| StrokeAnalyzer.ParseDataLines | backend/analyzers/tennis_stroke_analyzer.py:159-200 | The loop computes the acc and gyro rows of the accepted lines. |
| StrokeAnalyzer.MapColumnsBy | backend/analyzers/tennis_stroke_analyzer.py:121-129 | The mapping loop under either rule: each column maps to the last or the first matching header cell. |
| StrokeAnalyzer.LoadCsvWith | backend/analyzers/tennis_stroke_analyzer.py:101-207 | For a given mapping rule, the method computes the loader's specification `LoadSpec`: no samples when the content has at most one line or a required column is missing, and otherwise the accepted data lines parsed at the found columns. acc and gyro have equal length. |
| StrokeAnalyzer.LoadCsvFromStringAsWritten | backend/analyzers/tennis_stroke_analyzer.py:101-207 | As written: the loader with the last-match mapping. |
| StrokeAnalyzer.LoadCsvFromString | backend/analyzers/tennis_stroke_analyzer.py:101-207 | Corrected: the loader with the first-match mapping. |
| StrokeAnalyzer.AppHeaderCells | backend/analyzers/tennis_stroke_analyzer.py:116 | The recorder's header splits and strips into its 17 column names. |
| StrokeAnalyzer.AppHeaderMatches | backend/analyzers/tennis_stroke_analyzer.py:124-127 | In the recorder's header, a cell matches a column if and only if it is that column's own cell or, for GX/GY/GZ, the angle cell three places later. |
| StrokeAnalyzer.AppHeaderGyroFromAngles | backend/analyzers/tennis_stroke_analyzer.py:121-129 | As written, the recorder's GX/GY/GZ are taken from AngX/AngY/AngZ (9-11), and AX/AY/AZ from 3-5. |
| StrokeAnalyzer.AppHeaderFirstMatches | backend/analyzers/tennis_stroke_analyzer.py:121-129 | With the first match winning, each column is found at its own position. |
| StrokeAnalyzer.AppHeaderMapsMotionColumns | backend/analyzers/tennis_stroke_analyzer.py:121-140 | Corrected: the recorder's files are read from columns 3 to 8. |
| StrokeAnalyzer.AppHeaderAsWrittenColumns | backend/analyzers/tennis_stroke_analyzer.py:121-140 | As written: the recorder's files are read with acc from columns 3 to 5 and "gyro" from the angle columns 9 to 11. |
| StrokeAnalyzer.LabelsDistinct | backend/analyzers/tennis_stroke_analyzer.py:305-317 | The four labels are distinct, so the label names exactly one type. |
| StrokeAnalyzer.ClassifyMonotone | backend/analyzers/tennis_stroke_analyzer.py:305-317 | Larger peaks never give a weaker type. |
| StrokeAnalyzer.ClassifySquaredAgrees | backend/analyzers/tennis_stroke_analyzer.py:305-317 | Comparing squared peaks with squared thresholds (2.0/200, 5.0/500, 8.0) decides as the source does. |
| StrokeAnalyzer.PeakSquared | backend/analyzers/tennis_stroke_analyzer.py:284-288 | The largest squared magnitude: an upper bound attained by some row. |
| StrokeAnalyzer.SliceTypeIsPeakClassification | backend/analyzers/tennis_stroke_analyzer.py:284-295 | A window's type is the classification of its peak magnitudes. |
| StrokeAnalyzer.ClassifiedMeaning | backend/analyzers/tennis_stroke_analyzer.py:272-303 | Classification fails if and only if some pair has an empty slice. Otherwise there is one type per pair, that of its peaks. |
| StrokeAnalyzer.AnalyzeStrokes | backend/analyzers/tennis_stroke_analyzer.py:272-303 | The loop computes the types over the zipped pairs. |
| StrokeAnalyzer.Intervals | backend/analyzers/tennis_stroke_analyzer.py:323-325 | One difference per consecutive pair. |
| StrokeAnalyzer.AverageIntervalMeaning | backend/analyzers/tennis_stroke_analyzer.py:319-329 | "N/A" if and only if there are fewer than 2 timestamps. Otherwise the span over the count of intervals, divided by 5 Hz. |
| StrokeAnalyzer.AverageIntervalAtLeast | backend/analyzers/tennis_stroke_analyzer.py:319-329 | Timestamps at least gap apart average at least gap / 5 seconds. |
| StrokeAnalyzer.AnalysisOutcome | backend/analyzers/tennis_stroke_analyzer.py:37-99 | Success false ("no valid data") if and only if nothing loaded. A positive window always analyses. An empty window with no stroke analyses to no types, and with a stroke it fails with numpy's AxisError for axis 1 of the one-dimensional empty array. |
| StrokeAnalyzer.PositiveWindowClassified | backend/analyzers/tennis_stroke_analyzer.py:272-303 | With a positive window every stroke is classified. |
| StrokeAnalyzer.EmptyWindowFails | backend/analyzers/tennis_stroke_analyzer.py:284-288 | With window 0 and a stroke, the classification fails. |
| StrokeAnalyzer.AnalysisResultShape | backend/analyzers/tennis_stroke_analyzer.py:47-91 | The timestamps are the detections filtered with min_gap 75: increasing, between 1 and n - 1, and at least 75 rows apart. total_data_points = number of loaded rows. At most one type per timestamp. With 2 or more strokes the average interval is at least 15 s. |
| StrokeAnalyzer.AnalyzeWith | backend/analyzers/tennis_stroke_analyzer.py:19-99 | For a given mapping rule, the method computes the analysis of the loaded samples. |
| StrokeAnalyzer.AnalyzeStrokeFromCsvContentAsWritten | backend/analyzers/tennis_stroke_analyzer.py:19-99 | As written: the analysis over the last-match loader. |
| StrokeAnalyzer.AnalyzeStrokeFromCsvContent | backend/analyzers/tennis_stroke_analyzer.py:19-99 | Corrected: the analysis over the first-match loader. |
| AnalysisSummary.ReportDataReadBack | backend/analyzers/tennis_stroke_analyzer.py:69-91 | Reading the result back: success is true, strokes_detected is the number of timestamps, and `timestamps` reads back as them. The three statistics are absent from `data`. |
| AnalysisSummary.ReportStatisticsReadBack | backend/analyzers/tennis_stroke_analyzer.py:76-81 | `data["statistics"]` holds the loaded row count, the duration at 5 Hz and the average-interval text. |
| AnalysisSummary.SummaryDropsStatistics | IOS_frontend/BleExample/BleExampleApp.swift:1293-1296 | As written, the app's summary of every successful analysis shows 0 data points, a 0 duration and "N/A". |
| AnalysisSummary.SummaryShowsStatistics | IOS_frontend/BleExample/BleExampleApp.swift:1293-1296 | Corrected, the summary shows the stroke count, the row count, the duration and the average interval the analyser computed. |
| SingleImu.FileLinesEmpty | backend/single_imu_stroke_detector.py:14-16 | The file has no lines if and only if it is empty. |
| SingleImu.RowOf | backend/single_imu_stroke_detector.py:18-20 | csv.reader gives an empty row if and only if the line is empty or a lone carriage return. |
| SingleImu.NonBlankCells | backend/single_imu_stroke_detector.py:22 | As written: the stripped non-blank cells, no more than the row has. |
| SingleImu.PickedUpToMeaning | backend/single_imu_stroke_detector.py:18-30 | Success if and only if every non-empty row has at least 9 cells. Then there is one pick per non-empty row, from cells 3-5 and 6-8. A failure names the first short non-empty row. |
| SingleImu.ConvertedMeaning | backend/single_imu_stroke_detector.py:32 | The conversion succeeds if and only if every picked value parses. Then each row is the parsed triple. |
| SingleImu.PickRows | backend/single_imu_stroke_detector.py:18-30 | The loop computes the picks or the first short row. |
| SingleImu.ConvertPicks | backend/single_imu_stroke_detector.py:32 | The loop computes the conversion. |
| SingleImu.LoadRows | backend/single_imu_stroke_detector.py:10-32 | The method computes the loader's specification for a given cell list. |
| SingleImu.LoadSingleImuCsvAsWritten | backend/single_imu_stroke_detector.py:10-32 | As written: positions are counted after blank cells are dropped. |
| SingleImu.LoadSingleImuCsv | backend/single_imu_stroke_detector.py:10-32 | Corrected: positions are counted over all stripped cells. |
| SingleImu.LoadErrors | backend/single_imu_stroke_detector.py:16-27 | StopIteration if and only if the file is empty. An IndexError names the first non-empty row with fewer than 9 cells. |
| SingleImu.LoadedRows | backend/single_imu_stroke_detector.py:18-32 | A successful load has one acc row and one gyro row per non-empty data row, parsed from cells 3-5 and 6-8. |
| SingleImu.BlankNameShiftsColumns | backend/single_imu_stroke_detector.py:22-27 | As written, a blank DeviceName moves every later cell one place left. acc then comes from AY, AZ, GX and gyro from GY, GZ, AngX. |
| SingleImu.ProcessRows | backend/single_imu_stroke_detector.py:125-147 | For a given cell rule, the method computes the loader's error, or the detect/filter(75)/slice pipeline on the loaded rows. |
| SingleImu.ProcessSingleImuCsvAsWritten | backend/single_imu_stroke_detector.py:125-147 | As written: the pipeline on the loader that counts positions after blank cells are dropped. |
| SingleImu.ProcessSingleImuCsv | backend/single_imu_stroke_detector.py:125-147 | Corrected: the pipeline on the positional loader. |
| SingleImu.ProcessShape | backend/single_imu_stroke_detector.py:125-147 | For either cell rule: exactly the filtered detections, increasing, in range and at least 75 apart. At most one slice pair per timestamp, and for a non-negative slice_len each slice is slice_len rows long. |

## Left out

- WitSDK device calls: calibration, register writes and baud-rate changes are foreign SDK calls. The model records open and close requests in a log and does not perform them.
- Timers, the refresh thread and dispatch queues: a timer firing or a queued completion is a method call (`UpdateData`, `RecordingTimerTick`, `ProgressTick`, `DeliverUploadResult`, `ShowResultAfterDelay`). Scheduling and interleaving are not modelled.
- The second `connectToDevice` on a connected manager replaces the sample timer without invalidating the old one. Only one timer flag is modelled.
- URLSession, JSON serialisation and HTTP: a reply is a value (`Reply`). The URL guards on the constant addresses (error codes 100, 300 and 400) can never fail and are not modelled.
- File system: the file write is the parameter `writeSucceeds`. File attributes and contents are parameters. Listing, reading and deleting files are not modelled, and neither is `backend/app.py`.
- Clocks and formatting: times are `real` seconds passed in. DateFormatter and ISO 8601 text are string parameters, and `%.1f` is the function parameter `format1`.
- Floating point: sensor values are real numbers, so IEEE rounding, `inf`, `nan` and hexadecimal floats are not modelled. `sqrt` is replaced by comparisons of squares.
- Number parsing covers ASCII decimal text only: Python's `_` digit separators and non-ASCII digits are not modelled.
- The analyser's per-stroke float features (peak acceleration, average and peak rotation, stroke power and duration) are not in the modelled result dictionary. As a result the app's per-stroke detail lines, which need `stroke_power`, are not derived from analyser output.
- processing_time_ms and the analyser's logging, plotting and matplotlib branches.
- TrackingSession.TrackingSessionView.ProgressTick: the bar is counted in ticks. The percentage each tick shows is a table of the IEEE double sums of 0.1 (80% at the eighth tick, 89% at the ninth, 99% at the tenth), not derived from a model of double rounding.
- NSNumber bridging: `as? Int` and `as? Double` are modelled as "a JSON number with an integral value" and "a JSON number". They do not model that JSON `true` and `false` also cast to 1 and 0, nor the 64-bit range of `Int`. `as? Bool` is modelled with its bridging of the numbers 1 and 0.
- CSV quoting and a lone `\r` inside a line are not modelled by either loader. Python's `str.upper` is modelled on ASCII letters only.
- `handleAnalysisResult`, `analyzeWithServer` and its fallback, `isAnalyzing`, `refreshView`, `getDeviceDataToString` and `checkServerConnection` are presentation or network plumbing. The health check's outcome is the context's constructor parameter.
- `performRealTimeAnalysis` is not called anywhere in the app (its call is commented out). It is modelled as a method that can be called directly.
- `handleUploadResult`'s offline fallback is never called. `StopRecordingAndUpload` states that failures pass through.
- `analyze_tennis_strokes` and `TennisStrokeAnalyzer.process_single_imu_csv` are thin wrappers that read a file and call `analyze_stroke_from_csv_content`, so they are not modelled separately.
- `AnalyzeExample.py`, `PythonBridgeManager.swift`, `SensorAnalyzer.swift`, the SwiftUI views and the mock data are outside this model.
- AppModel.StrokeDetails: the contract states the empty case and the "还有(n-3)次击球" tail. It does not state that at most the first three strokes are described, though the body takes `strokes[..3]`.
- StrokeAnalyzer.LoadCsvFromString: runs the corrected first-match column mapping (see Findings), so it reads the gyroscope from `GX`/`GY`/`GZ` as the app's header intends. The code as written is `LoadCsvFromStringAsWritten` and `AnalyzeStrokeFromCsvContentAsWritten`.
- SingleImu.ProcessSingleImuCsv: runs the corrected positional loader (see Findings). The code as written is `ProcessSingleImuCsvAsWritten`.
- StrokeAnalyzer.AnalysisOutcome: states the outcome for windows of 0 and above. A negative window is modelled by the pipeline, with Python's negative slice bounds, but its outcome is not characterised: its slices may be empty or not.

## Findings

| source | as written | input that shows it | evidently intended | confidence | as-written member | corrected member |
|---|---|---|---|---|---|---|
| backend/analyzers/tennis_stroke_analyzer.py:121-129 | Each required column maps to the LAST header cell matching it by substring. "GX" is a substring of "ANGX". | The recorder's own header: GX, GY, GZ map to AngX, AngY, AngZ (columns 9-11), so the "gyro" data are angles. | Map GX, GY, GZ to columns 6-8. | not executed | StrokeAnalyzer.MapColumnsAsWritten, StrokeAnalyzer.AppHeaderGyroFromAngles, StrokeAnalyzer.AppHeaderAsWrittenColumns | StrokeAnalyzer.MapColumns, StrokeAnalyzer.AppHeaderMapsMotionColumns |
| backend/single_imu_stroke_detector.py:22-27 | Blank cells are dropped before acc is taken from positions 3-5 and gyro from 6-8. | A row written for a sensor with no name (`addDataRecord` writes "" for a nil name): acc becomes AY, AZ, GX and gyro becomes GY, GZ, AngX. | Positions counted over all cells. | not executed | SingleImu.LoadSingleImuCsvAsWritten, SingleImu.ProcessSingleImuCsvAsWritten, SingleImu.BlankNameShiftsColumns | SingleImu.LoadSingleImuCsv, SingleImu.ProcessShape |
| IOS_frontend/BleExample/BleExampleApp.swift:1293-1296 | The summary reads total_data_points, data_duration_seconds and average_interval from `data`. The analyser puts them in `data["statistics"]`. | Any successful analysis: the summary shows 0 data points, 0.0 s and N/A. | Read them from `data["statistics"]`. | not executed | AppModel.TennisSummary, AnalysisSummary.SummaryDropsStatistics | AppModel.TennisSummaryFromStatistics, AnalysisSummary.SummaryShowsStatistics |
