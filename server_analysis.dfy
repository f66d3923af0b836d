/** The client's view of the analysis server: where it lives, how each reply
    is turned into a success or an error, the offline fallback that
    classifies one acceleration sample, and the body of the tennis request.
    The transport is not modelled: a reply is given as a value. */
module ServerAnalysis {
  import opened Wrappers
  import opened Text
  import opened JsonValues

  // ---------------------------------------------------------------------------
  // Addresses

  const ServerIP: string := "10.32.112.180"
  const ServerPort: nat := 5000

  /** `http://<ip>:<port>/api` */
  function BaseURL(): string {
    "http://" + ServerIP + ":" + NatToString(ServerPort) + "/api"
  }

  datatype Route = Health | AnalyzeSimple | AnalyzeTennis | RecordingsUpload

  function RoutePath(r: Route): string {
    match r
    case Health => "/health"
    case AnalyzeSimple => "/analyze/simple"
    case AnalyzeTennis => "/analyze/tennis"
    case RecordingsUpload => "/recordings/upload"
  }

  function RouteURL(r: Route): (url: string)
    ensures BaseURL() <= url
  {
    BaseURL() + RoutePath(r)
  }

  /** The base address spelled out, and the two routes the recorder uses
      under it. */
  lemma BaseURLValue()
    ensures BaseURL() == "http://10.32.112.180:5000/api"
    ensures RouteURL(Health) == "http://10.32.112.180:5000/api" + "/health"
    ensures RouteURL(RecordingsUpload) == "http://10.32.112.180:5000/api" + "/recordings/upload"
  {
    PortText();
    assert BaseURL() == "http://" + "10.32.112.180" + ":" + "5000" + "/api";
  }

  lemma PortText()
    ensures NatToString(ServerPort) == "5000"
  {
    assert NatToString(5000) == NatToString(500) + "0";
    assert NatToString(500) == NatToString(50) + "0";
    assert NatToString(50) == NatToString(5) + "0";
  }

  /** Different routes are different addresses. */
  lemma RouteURLInjective(a: Route, b: Route)
    requires RouteURL(a) == RouteURL(b)
    ensures a == b
  {
    var n := |BaseURL()|;
    assert RouteURL(a)[n..] == RoutePath(a);
    assert RouteURL(b)[n..] == RoutePath(b);
    assert RoutePath(a)[1] == RoutePath(b)[1];
    assert |RoutePath(a)| == |RoutePath(b)|;
  }

  // ---------------------------------------------------------------------------
  // Replies

  /** What a data task hands its completion handler: an error, or a response
      (an HTTP status when the response is HTTP) with optional data. */
  datatype Reply =
    | TransportError(description: string)
    | Delivered(httpStatus: Option<int>, data: Option<Payload>)

  /** The data, as `JSONSerialization.jsonObject` without
      `.fragmentsAllowed` sees it: it throws on malformed text and on a
      top-level value that is neither an object nor an array, and
      otherwise yields that object or array. */
  datatype Payload = Unparsable(reason: string) | Parsed(json: Container)

  /** A top-level JSON value the parser accepts. */
  type Container = j: Json | j.JObject? || j.JArray? witness JObject(map[])

  /** The error a completion handler receives: an `NSError` built by the
      manager, or an error passed through from the transport or the parser. */
  datatype AnalysisError =
    | NSError(domain: string, code: int, message: string)
    | PassedThrough(description: string)

  const UnknownError: string := "未知错误"

  // ---------------------------------------------------------------------------
  // testConnection

  /** `testConnection`: reachable exactly when an HTTP response with status
      200 arrives; the data is never looked at. */
  function TestConnection(reply: Reply): (r: (bool, string))
    ensures r.0 <==> reply.Delivered? && reply.httpStatus == Some(200)
    ensures reply.TransportError? ==> r.1 == "连接失败: " + reply.description
    ensures reply.Delivered? && reply.httpStatus.None? ==> r.1 == "无效的服务器响应"
    ensures reply.Delivered? && reply.httpStatus.Some? && reply.httpStatus.value != 200 ==>
              Contains(r.1, IntToString(reply.httpStatus.value))
  {
    match reply
    case TransportError(d) => (false, "连接失败: " + d)
    case Delivered(None, _) => (false, "无效的服务器响应")
    case Delivered(Some(code), _) =>
      if code == 200 then (true, "✅ 服务器连接成功")
      else
        ContainsMiddle("❌ 服务器响应异常 (状态码: ", IntToString(code), ")");
        (false, "❌ 服务器响应异常 (状态码: " + IntToString(code) + ")")
  }

  // ---------------------------------------------------------------------------
  // The three POST calls

  datatype PostCall = AnalyzeSensorData | AnalyzeTennisStroke | UploadRecordingData

  function CallRoute(c: PostCall): Route {
    match c
    case AnalyzeSensorData => AnalyzeSimple
    case AnalyzeTennisStroke => AnalyzeTennis
    case UploadRecordingData => RecordingsUpload
  }

  function ErrorDomain(c: PostCall): string {
    if c == AnalyzeTennisStroke then "TennisAnalysis" else "ServerAnalysis"
  }

  function NoDataCode(c: PostCall): int {
    match c
    case AnalyzeSensorData => 101
    case AnalyzeTennisStroke => 301
    case UploadRecordingData => 401
  }

  function NoDataMessage(c: PostCall): string {
    if c == AnalyzeTennisStroke then "无响应数据" else "服务器未返回数据"
  }

  function RejectedCode(c: PostCall): int {
    NoDataCode(c) + 1
  }

  /** `json?["error"] as? String ?? "未知错误"` */
  function ErrorText(obj: Option<JsonObject>): string {
    if obj.Some? then StringAt(obj.value, "error").GetOr(UnknownError) else UnknownError
  }

  /** Whether the parsed reply is an object whose `success` casts to `true`. */
  predicate Accepted(p: Payload) {
    p.Parsed? && p.json.JObject? && BoolAt(p.json.fields, "success") == Some(true)
  }

  /** The completion result of `analyzeSensorData`, `analyzeTennisStroke`
      and `uploadRecordingData` for a reply. The HTTP status is not looked at. */
  function InterpretPostReply(c: PostCall, reply: Reply): (r: Result<JsonObject, AnalysisError>)
    ensures r.Success? <==> reply.Delivered? && reply.data.Some? && Accepted(reply.data.value)
    ensures r.Success? ==> reply.data.value.json == JObject(r.value)
    ensures reply.TransportError? ==> r == Failure(PassedThrough(reply.description))
    ensures reply.Delivered? && reply.data.None? ==> r == Failure(NSError(ErrorDomain(c), NoDataCode(c), NoDataMessage(c)))
    ensures reply.Delivered? && reply.data.Some? && reply.data.value.Unparsable? ==>
              r == Failure(PassedThrough(reply.data.value.reason))
    ensures r.Failure? && r.error.NSError? ==>
              r.error.domain == ErrorDomain(c) && (r.error.code == NoDataCode(c) || r.error.code == RejectedCode(c))
  {
    match reply
    case TransportError(d) => Failure(PassedThrough(d))
    case Delivered(_, None) => Failure(NSError(ErrorDomain(c), NoDataCode(c), NoDataMessage(c)))
    case Delivered(_, Some(Unparsable(reason))) => Failure(PassedThrough(reason))
    case Delivered(_, Some(Parsed(j))) =>
      var obj := AsObject(j);
      if obj.Some? && BoolAt(obj.value, "success") == Some(true) then Success(obj.value)
      else Failure(NSError(ErrorDomain(c), RejectedCode(c), ErrorText(obj)))
  }

  /** A parsed reply that is not accepted fails with the rejection code and
      the server's `error` text, or "未知错误" when there is none. */
  lemma RejectedReplyCarriesServerError(c: PostCall, status: Option<int>, j: Container)
    requires !Accepted(Parsed(j))
    ensures InterpretPostReply(c, Delivered(status, Some(Parsed(j)))) ==
            Failure(NSError(ErrorDomain(c), RejectedCode(c),
                            if j.JObject? && StringAt(j.fields, "error").Some? then StringAt(j.fields, "error").value else UnknownError))
  {
  }

  /** The HTTP status code plays no part in a POST call's result. */
  lemma PostReplyIgnoresStatus(c: PostCall, s1: Option<int>, s2: Option<int>, d: Option<Payload>)
    ensures InterpretPostReply(c, Delivered(s1, d)) == InterpretPostReply(c, Delivered(s2, d))
  {
  }

  /** The three calls apply one rule: they succeed on the same replies with
      the same object, and fail with the same error text. */
  lemma PostRuleSharedByAllCalls(c1: PostCall, c2: PostCall, reply: Reply)
    ensures InterpretPostReply(c1, reply).Success? == InterpretPostReply(c2, reply).Success?
    ensures InterpretPostReply(c1, reply).Success? ==> InterpretPostReply(c1, reply).value == InterpretPostReply(c2, reply).value
    ensures reply.Delivered? && reply.data.Some? && reply.data.value.Parsed? && !Accepted(reply.data.value) ==>
              InterpretPostReply(c1, reply).error.message == InterpretPostReply(c2, reply).error.message
  {
  }

  /** A 200 status does not make a POST call succeed, nor does an error
      status make it fail: a health check and a POST call may disagree. */
  lemma StatusAndSuccessIndependent()
    ensures InterpretPostReply(UploadRecordingData, Delivered(Some(500), Some(Parsed(JObject(map["success" := JBool(true)]))))).Success?
    ensures InterpretPostReply(UploadRecordingData, Delivered(Some(200), Some(Parsed(JObject(map["success" := JBool(false)]))))).Failure?
  {
  }

  /** The server's `success` may be written as 1 and 0: the cast to `Bool`
      accepts a reply whose `success` is 1 and rejects one whose `success`
      is 0 or any other number. */
  lemma NumericSuccessBridges(c: PostCall, status: Option<int>, x: real)
    ensures InterpretPostReply(c, Delivered(status, Some(Parsed(JObject(map["success" := JNumber(x)]))))).Success? <==> x == 1.0
  {
    assert BoolAt(map["success" := JNumber(x)], "success") == Some(true) <==> x == 1.0;
  }

  // ---------------------------------------------------------------------------
  // analyzeOffline

  datatype MotionState = Still | SlightMovement | Moving {
    function Label(): string {
      match this
      case Still => "静止"
      case SlightMovement => "轻微移动"
      case Moving => "移动中"
    }
    function Rank(): nat {
      match this
      case Still => 0
      case SlightMovement => 1
      case Moving => 2
    }
  }

  /** The band of a magnitude, stated on its square (the magnitude itself is
      a square root): below 0.2 is still, below 1.0 slight movement. */
  function ClassifySquared(m2: real): (s: MotionState)
    ensures s == Still <==> m2 < 0.04
    ensures s == Moving <==> m2 >= 1.0
  {
    if m2 < 0.04 then Still else if m2 < 1.0 then SlightMovement else Moving
  }

  /** The band the source computes from the magnitude `m`. */
  function ClassifyMagnitude(m: real): MotionState {
    if m < 0.2 then Still else if m < 1.0 then SlightMovement else Moving
  }

  /** For a non-negative magnitude, banding its square by 0.04 and 1.0 is
      banding the magnitude by 0.2 and 1.0. */
  lemma ClassifySquaredAgrees(m: real)
    requires m >= 0.0
    ensures ClassifySquared(m * m) == ClassifyMagnitude(m)
  {
    if m < 0.2 {
      assert m * m <= m * 0.2 < 0.04;
    } else {
      assert m * m >= 0.2 * m >= 0.04;
      if m < 1.0 {
        assert m * m <= m * 1.0 < 1.0;
      } else {
        assert m * m >= 1.0 * m >= 1.0;
      }
    }
  }

  /** More acceleration never means a calmer state. */
  lemma ClassifyMonotone(a: real, b: real)
    requires a <= b
    ensures ClassifySquared(a).Rank() <= ClassifySquared(b).Rank()
  {
  }

  /** One acceleration component: the field read as a string, parsed by
      `Double(_:)`; missing, non-string or unparsable values read as 0. */
  function AccComponent(sensorData: JsonObject, key: string): (v: real)
    ensures StringAt(sensorData, key).None? ==> v == 0.0
    ensures StringAt(sensorData, key).Some? && SwiftDouble(StringAt(sensorData, key).value).None? ==> v == 0.0
  {
    match StringAt(sensorData, key)
    case None => 0.0
    case Some(t) => SwiftDouble(t).GetOr(0.0)
  }

  /** A component written as an integer string is read back as that integer. */
  lemma AccComponentReadsIntegers(sensorData: JsonObject, key: string, i: int)
    requires key in sensorData && sensorData[key] == JString(IntToString(i))
    ensures AccComponent(sensorData, key) == i as real
  {
    ParseIntRoundTrip(i);
  }

  /** The dictionary `analyzeOffline` returns, less its timestamp, note and
      the square-root magnitude (kept here as its square). */
  datatype OfflineResult =
    | FormatError
    | OfflineClassified(magnitudeSquared: real, state: MotionState)
  {
    function Success(): bool { OfflineClassified? }
    function AnalysisType(): string { if FormatError? then "offline_fallback" else "offline_swift" }
    function Error(): Option<string> { if FormatError? then Some("数据格式错误") else None }
  }

  function AnalyzeOffline(data: JsonObject): (r: OfflineResult)
    ensures r.Success() <==> ObjectAt(data, "sensor_data").Some?
    ensures r.AnalysisType() == (if r.Success() then "offline_swift" else "offline_fallback")
    ensures r.OfflineClassified? ==> r.magnitudeSquared >= 0.0 && r.state == ClassifySquared(r.magnitudeSquared)
    ensures r.OfflineClassified? ==>
              var sd := ObjectAt(data, "sensor_data").value;
              r.magnitudeSquared == SquaredMagnitude(AccComponent(sd, "acc_x"), AccComponent(sd, "acc_y"), AccComponent(sd, "acc_z"))
  {
    match ObjectAt(data, "sensor_data")
    case None => FormatError
    case Some(sd) =>
      var x, y, z := AccComponent(sd, "acc_x"), AccComponent(sd, "acc_y"), AccComponent(sd, "acc_z");
      var m2 := SquaredMagnitude(x, y, z);
      OfflineClassified(m2, ClassifySquared(m2))
  }

  function SquaredMagnitude(x: real, y: real, z: real): (m2: real)
    ensures m2 >= 0.0
  {
    var xx, yy, zz := x * x, y * y, z * z;
    assert xx >= 0.0 by { if x < 0.0 { assert (-x) * (-x) == xx; } }
    assert yy >= 0.0 by { if y < 0.0 { assert (-y) * (-y) == yy; } }
    assert zz >= 0.0 by { if z < 0.0 { assert (-z) * (-z) == zz; } }
    xx + yy + zz
  }

  /** A sample written with integer components is classified by the sum of
      their squares. */
  lemma OfflineClassifiesIntegerSample(data: JsonObject, sd: JsonObject, x: int, y: int, z: int)
    requires ObjectAt(data, "sensor_data") == Some(sd)
    requires "acc_x" in sd && sd["acc_x"] == JString(IntToString(x))
    requires "acc_y" in sd && sd["acc_y"] == JString(IntToString(y))
    requires "acc_z" in sd && sd["acc_z"] == JString(IntToString(z))
    ensures var rx, ry, rz := x as real, y as real, z as real;
            var m2 := rx * rx + ry * ry + rz * rz;
            AnalyzeOffline(data) == OfflineClassified(m2, ClassifySquared(m2))
  {
    AccComponentReadsIntegers(sd, "acc_x", x);
    AccComponentReadsIntegers(sd, "acc_y", y);
    AccComponentReadsIntegers(sd, "acc_z", z);
  }

  /** A sample whose components are absent or unreadable reads as zero
      acceleration, so it is still. */
  lemma OfflineUnreadableIsStill(data: JsonObject, sd: JsonObject)
    requires ObjectAt(data, "sensor_data") == Some(sd)
    requires forall k :: k in ["acc_x", "acc_y", "acc_z"] ==> StringAt(sd, k).None?
    ensures AnalyzeOffline(data) == OfflineClassified(0.0, Still)
  {
    assert StringAt(sd, "acc_x").None? && StringAt(sd, "acc_y").None? && StringAt(sd, "acc_z").None?;
  }

  // ---------------------------------------------------------------------------
  // The tennis request

  /** The body `analyzeTennisStroke` posts. */
  function TennisRequestBody(csvContent: string, threshold: real, sliceLength: int): (body: JsonObject)
    ensures body.Keys == {"csv_content", "threshold", "slice_len"}
  {
    map["csv_content" := JString(csvContent), "threshold" := JNumber(threshold), "slice_len" := JNumber(sliceLength as real)]
  }

  /** Reading the body back gives the three arguments. */
  lemma TennisRequestBodyRoundTrip(csvContent: string, threshold: real, sliceLength: int)
    ensures StringAt(TennisRequestBody(csvContent, threshold, sliceLength), "csv_content") == Some(csvContent)
    ensures RealAt(TennisRequestBody(csvContent, threshold, sliceLength), "threshold") == Some(threshold)
    ensures IntAt(TennisRequestBody(csvContent, threshold, sliceLength), "slice_len") == Some(sliceLength)
  {
  }
}
