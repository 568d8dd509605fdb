/**
 The alert senders: each checks its input, shapes a fixed payload, adds a
 bearer header when it holds a token, and hands the request to
 `send_api_request`, whose reply it returns as it is. The clock reading
 that stamps a payload is a parameter.
 */
module Alerts {
  import opened Values
  import opened HttpClient

  const ApiBase := "http://poudelanish17.com.np:9002/api/v1"
  const OcrUrl := ApiBase + "/OCR"
  const VehicleUrl := ApiBase + "/vehicle-detection"
  const BulkUrl := ApiBase + "/plate-data-bulk"

  const PlateSource := "combined_alert_system_v1"
  const VehicleSource := "vehicle_detection_v1"
  const BulkSource := "text_extraction_bulk_v1"

  const NoPlateTextMessage := "No number plate text provided"
  const NoPlateDataMessage := "No plate data provided"
  const EmptyCsvMessage := "CSV is empty"

  const Authorization := "Authorization"

  /** How a sender call ends: it returns a call, or it raises before any
      request is made because `culprit` does not support what the sender
      does with it. Nothing in the sender or in the capture loop catches
      such an exception. */
  datatype Completion = Returned(call: Call) | Raised(culprit: Value)

  /** `v[:20]` is defined: strings and lists can be sliced; numbers and
      booleans cannot, and a dictionary looks the slice up as a key. */
  predicate Sliceable(v: Value)
  {
    v.Str? || v.List?
  }

  /** `len(v)` is defined: strings, lists and dictionaries have a length. */
  predicate Sized(v: Value)
  {
    v.Str? || v.List? || v.Dict?
  }

  /** The `Authorization` header value for a token: `Bearer <token>`. */
  function BearerValue(token: Value): string
  {
    "Bearer " + PyStr(token)
  }

  /** The headers a sender passes on: a bearer header when the token is
      truthy, and `None` (not an empty dictionary) otherwise. */
  function AuthHeaders(token: Value): (h: Option<map<string, string>>)
    ensures h.Some? <==> Truthy(token)
    ensures h.Some? ==> h.value.Keys == {Authorization} && h.value[Authorization] == BearerValue(token)
  {
    if Truthy(token) then Some(map[Authorization := BearerValue(token)]) else None
  }

  /** The headers that reach the transport when a sender POSTs a dictionary
      payload: JSON content type, plus the bearer header exactly when the
      token is truthy. */
  function SentHeaders(token: Value): map<string, string>
  {
    if Truthy(token) then map[ContentType := ApplicationJson, Authorization := BearerValue(token)]
    else map[ContentType := ApplicationJson]
  }

  /** A POST of a dictionary payload with a sender's headers: it is always
      made, goes out as JSON, carries `SentHeaders(token)`, and its reply is
      the transport outcome classified. */
  lemma PostDictionary(url: string, fields: seq<Field>, token: Value, t: Transport)
    requires url != ""
    ensures var c := SendApiRequest(url, "POST", Dict(fields), AuthHeaders(token), DefaultTimeout, t);
      && c.sent == Some(Request(Post, url, Null, JsonBody(Dict(fields)), SentHeaders(token), DefaultTimeout))
      && c.reply == Classify(url, DefaultTimeout, t)
  {
    UpperFixed("POST");
    var h := AuthHeaders(token);
    assert !CallerSetsContentType(h);
    var n := Negotiate("POST", Dict(fields), h);
    assert n.headers == SentHeaders(token);
  }

  function PlatePayload(plateText: Value, timestamp: string): Value
  {
    Dict([Field("number_plate", plateText), Field("timestamp", Str(timestamp)),
          Field("source_module", Str(PlateSource))])
  }

  /** `send_number_plate_detection_alert(text, token)`. A falsy text is
      refused before any request. A truthy token is then sliced for a log
      line, which raises for a token that is neither a string nor a list.
      Otherwise the text goes to the OCR endpoint as JSON, with the bearer
      header exactly when the token is truthy, and the sender's reply is
      returned unchanged. */
  function SendPlateAlert(plateText: Value, token: Value, timestamp: string, t: Transport): (c: Completion)
    ensures !Truthy(plateText) ==> c == Returned(Call(None, Reply(false, Str(NoPlateTextMessage))))
    ensures c.Raised? <==> Truthy(plateText) && Truthy(token) && !Sliceable(token)
    ensures c.Raised? ==> c.culprit == token
    ensures Truthy(plateText) && c.Returned? ==>
      && c.call.sent == Some(Request(Post, OcrUrl, Null, JsonBody(PlatePayload(plateText, timestamp)),
                                     SentHeaders(token), DefaultTimeout))
      && c.call.reply == Classify(OcrUrl, DefaultTimeout, t)
  {
    if !Truthy(plateText) then Returned(Call(None, Reply(false, Str(NoPlateTextMessage))))
    else if Truthy(token) && !Sliceable(token) then Raised(token)
    else
      PostDictionary(OcrUrl, PlatePayload(plateText, timestamp).fields, token, t);
      Returned(SendApiRequest(OcrUrl, "POST", PlatePayload(plateText, timestamp), AuthHeaders(token), DefaultTimeout, t))
  }

  function VehiclePayload(timestamp: string): Value
  {
    Dict([Field("timestamp", Str(timestamp)), Field("event", Str("vehicle_detected")),
          Field("source_module", Str(VehicleSource))])
  }

  /** `send_vehicle_detection_alert(token)`: always sends, with the bearer
      header exactly when the token is truthy. */
  function SendVehicleAlert(token: Value, timestamp: string, t: Transport): (c: Call)
    ensures c.sent == Some(Request(Post, VehicleUrl, Null, JsonBody(VehiclePayload(timestamp)),
                                   SentHeaders(token), DefaultTimeout))
    ensures c.reply == Classify(VehicleUrl, DefaultTimeout, t)
  {
    PostDictionary(VehicleUrl, VehiclePayload(timestamp).fields, token, t);
    SendApiRequest(VehicleUrl, "POST", VehiclePayload(timestamp), AuthHeaders(token), DefaultTimeout, t)
  }

  function BulkPayload(plateData: Value, timestamp: string): Value
  {
    Dict([Field("plate_data", plateData), Field("timestamp", Str(timestamp)),
          Field("source_module", Str(BulkSource))])
  }

  /** `send_plate_data_bulk(records, token)`. An empty (or absent) list is
      refused before any request. The records are then counted for a log
      line, which raises for a number or a boolean. Otherwise the whole
      list goes to the bulk endpoint as JSON. */
  function SendPlateBulk(plateData: Value, token: Value, timestamp: string, t: Transport): (c: Completion)
    ensures !Truthy(plateData) ==> c == Returned(Call(None, Reply(false, Str(NoPlateDataMessage))))
    ensures c.Raised? <==> Truthy(plateData) && !Sized(plateData)
    ensures c.Raised? ==> c.culprit == plateData
    ensures Truthy(plateData) && c.Returned? ==>
      && c.call.sent == Some(Request(Post, BulkUrl, Null, JsonBody(BulkPayload(plateData, timestamp)),
                                     SentHeaders(token), DefaultTimeout))
      && c.call.reply == Classify(BulkUrl, DefaultTimeout, t)
  {
    if !Truthy(plateData) then Returned(Call(None, Reply(false, Str(NoPlateDataMessage))))
    else if !Sized(plateData) then Raised(plateData)
    else
      PostDictionary(BulkUrl, BulkPayload(plateData, timestamp).fields, token, t);
      Returned(SendApiRequest(BulkUrl, "POST", BulkPayload(plateData, timestamp), AuthHeaders(token), DefaultTimeout, t))
  }

  /** `send_latest_plate_from_csv(path, token)` given what reading the file
      produced: its rows as dictionaries, or the read error. A failed read or
      an empty file is reported without a request; otherwise the last row is
      posted to the OCR endpoint. */
  function SendLatestPlateRow(rows: Result<seq<seq<Field>>>, token: Value, t: Transport): (c: Call)
    ensures rows.Err? ==> c == Call(None, Reply(false, Str(rows.message)))
    ensures rows.Ok? && rows.value == [] ==> c == Call(None, Reply(false, Str(EmptyCsvMessage)))
    ensures rows.Ok? && rows.value != [] ==>
      && c.sent == Some(Request(Post, OcrUrl, Null, JsonBody(Dict(rows.value[|rows.value| - 1])),
                                SentHeaders(token), DefaultTimeout))
      && c.reply == Classify(OcrUrl, DefaultTimeout, t)
  {
    match rows
    case Err(msg) => Call(None, Reply(false, Str(msg)))
    case Ok(rs) =>
      if |rs| == 0 then Call(None, Reply(false, Str(EmptyCsvMessage)))
      else
        PostDictionary(OcrUrl, rs[|rs| - 1], token, t);
        SendApiRequest(OcrUrl, "POST", Dict(rs[|rs| - 1]), AuthHeaders(token), DefaultTimeout, t)
  }

  /** The bearer header is present in what reaches the transport exactly
      when the token is truthy, and then it reads `Bearer <token>`. */
  lemma BearerIffToken(token: Value)
    ensures Authorization in SentHeaders(token) <==> Truthy(token)
    ensures Truthy(token) ==> SentHeaders(token)[Authorization] == BearerValue(token)
    ensures SentHeaders(token)[ContentType] == ApplicationJson
  {
  }
}
