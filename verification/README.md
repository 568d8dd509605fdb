# Number-plate alert pipeline: a Dafny model

This project models the decision logic of a number-plate alert system. A
capture loop receives vehicle detections and, for each vehicle, the plates
found in the vehicle's crop. The loop keeps a store of accepted plate boxes
and drops a plate whose box overlaps a stored one by more than 0.35
intersection-over-union. Vehicle and new-plate alerts go to a remote service
with a bearer token obtained at start-up. The generic sender
`send_api_request` negotiates a JSON or raw body and dispatches on the HTTP
method. It reports every outcome as a `(success, data)` pair.

Modules, one per component:

- `Values` (values.dfy): Python values at the JSON boundary (`None`, bool, int, str, list, dict). Also truthiness, `d[key]`, `str()` and `repr()`, and ASCII `upper()`/`lower()`.
- `Geometry` (geometry.dfy): inclusive pixel boxes, the overlap ratio `iou`, and translation of a plate box into frame coordinates.
- `Dedup` (dedup.dfy): the duplicate test over the store, the first-match scan, recording a box, and the store invariant (no stored box overlaps another).
- `HttpClient` (http_client.dfy): `send_api_request`. This covers the empty-URL guard, content negotiation and header merging, method dispatch, and the mapping of transport outcomes to replies.
- `Session` (session.dfy): `attempt_login`, token extraction from the login reply, and the capture script's start-up.
- `Alerts` (alerts.dfy): the plate, vehicle, bulk and latest-CSV-row senders.
- `Pipeline` (pipeline.dfy): the per-plate acceptance step, the folds over plates, vehicles and frames, and dispatch of the alerts raised.

The network is an input. A `Transport` value says what the HTTP library
returned for the request: a response, or which caught exception family it
raised. A response carries its status and the text of the error
`raise_for_status` raises for it, if any. It also carries the JSON decoding
of the body (`None` when decoding fails) and the raw text. A sender returns
a `Call`: the request it handed to the library (`None` when it made none)
and its reply. The plate and bulk senders can also raise before any
request, outside every `try` (an `Alerts.Completion` that is `Raised`); the
capture loop catches nothing, so such a raise ends the run. Clock readings (`datetime.now().isoformat()`, the
millisecond time in the crop file name) are parameters.

Where the documentation and the code disagree, the model follows the code:

- `attempt_login` posts built-in credentials and ignores its arguments (request.py:26-29), although its docstring says otherwise. See Findings.
- PATCH takes part in JSON negotiation (request.py:95), but dispatch rejects it as an unsupported method (request.py:130). See `HttpClient.PatchNegotiatedButRefused`.
- The loop's plate alert sends the saved crop's path, not plate text (test3.py:100).
- An HTTP error is whatever `raise_for_status` rejects, not "any non-2xx status". The model takes that verdict as given.
- A login whose reply holds a `"token"` key set to `null` leaves the token unset, exactly as in Python.
- The token is documented as a string, but nothing checks it: a 2xx login reply with a number as its token is kept, and the first plate alert then raises at `auth_token[:20]` (request.py:205). See `Pipeline.NumericTokenStopsPlateAlert`.

## Model

| member | source | states |
|---|---|---|
| Values.Lookup | test3.py:39-40 | `d["token"]` is defined exactly when the key is present, and yields the value of the last entry with that key |
| Values.NatToStringRoundTrip | test3.py:94 | the decimal rendering of the clock reading and frame number reads back as the same number, so different numbers give different file-name parts |
| Values.IntToString | request.py:153-161 | `str()` of the status code and the timeout in an error message: non-empty, a leading minus sign exactly for a negative number, digits otherwise |
| Values.IntToStringRoundTrip | request.py:153-161 | reading the rendered integer back (sign, then digits) gives the number again, for every integer |
| Values.PyStr | request.py:198-200 | `f'Bearer {auth_token}'` interpolates a string token as it is and any other value as its non-empty `repr` |
| Values.Repr | request.py:198-200 | `repr()` of a non-string token is non-empty; an integer renders as `str()` of it, a list is bracketed, a dictionary braced, a quoted string closed by its quote |
| Values.Upper | request.py:95-128 | `method.upper()` keeps the length and upper-cases each ASCII letter, leaving every other character as it is |
| Values.Lower | request.py:101 | `.lower()` of the caller's Content-Type keeps the length and lower-cases each ASCII letter, leaving every other character as it is |
| Values.UpperFixed | request.py:116-128 | a method name with no lower-case ASCII letter, such as "POST", is its own upper-case form |
| Geometry.InterArea | test3.py:22-26 | the shared pixel area is zero exactly when the boxes share no pixel column or no pixel row |
| Geometry.InterWithinUnion | test3.py:26-30 | when the boxes share a pixel, each box's area covers the intersection, so the union is positive and at least the intersection |
| Geometry.Iou | test3.py:21-30 | the ratio is defined for every pair of boxes with no division by zero, lies in [0, 1], and is 0 exactly when the boxes share no pixel |
| Geometry.OverlapsIffCrossMultiplied | test3.py:87 | ratio > 0.35 holds exactly when the boxes share pixels and 20 times the intersection exceeds 7 times the union |
| Geometry.IouSymmetric | test3.py:21-30 | the ratio and the overlap verdict do not depend on argument order |
| Geometry.IouSelf | test3.py:26-30 | a valid box has ratio 1 with itself, so it overlaps itself |
| Geometry.IouZeroIffApart | test3.py:22-27 | the ratio is 0 exactly when the clipped intersection has no width or no height |
| Geometry.Translate | test3.py:80-82 | moving a box keeps its width, height and validity |
| Geometry.TranslateInverse | test3.py:80-82 | moving a box back by the opposite offset restores it |
| Geometry.IouTranslationInvariant | test3.py:80-82 | moving two boxes by the same offset changes neither their ratio nor their overlap verdict |
| Geometry.ToFullFrame | test3.py:80-82 | the frame box is the plate box offset by the vehicle's top-left corner: moving it back by that corner gives the plate box, with the same size |
| Dedup.FindDuplicate | test3.py:85-89 | the loop's scan reports a duplicate exactly when some stored box overlaps, stopping at the first one that does; with no match it compares every stored box |
| Dedup.DuplicateIgnoresOrder | test3.py:85-89 | two stores holding the same boxes, in any order or multiplicity, give the same duplicate verdict |
| Dedup.Record | test3.py:91-96 | a duplicate leaves the store unchanged; otherwise the box is appended at the end; existing entries never move |
| Dedup.DuplicateGrows | test3.py:85-96 | a box that overlaps a stored box still does after more boxes are appended, since stored boxes are never removed |
| Dedup.RecordPreservesNoOverlap | test3.py:85-96 | if no stored box overlaps an earlier one, that stays true after recording |
| Dedup.RecordIdempotent | test3.py:87-96 | a valid box just recorded is a duplicate of the new store, so recording it again changes nothing |
| Dedup.DuplicateExamples | test3.py:85-89 | with store [(0,0,10,10)], the box (1,1,11,11) is a duplicate (ratio 100/142) and (50,50,60,60) is not |
| HttpClient.Negotiate | request.py:91-105 | a dict payload on POST/PUT/PATCH (any case) with no caller Content-Type gets `Content-Type: application/json` and is JSON; a caller's Content-Type is kept and makes the body JSON only when it lower-cases to `application/json`; the caller's headers all survive, and at most a Content-Type is added, only when the caller has none |
| HttpClient.BuildRequest | request.py:86-133 | an empty URL is refused with "API Error: URL cannot be empty."; GET sends the payload as query parameters; POST and PUT send it as JSON or as `data`, as negotiated; DELETE sends no body; any other method, PATCH included, is refused with the original method name in the message |
| HttpClient.Classify | request.py:135-171 | success exactly for a response that `raise_for_status` passes, with the decoded JSON or else the text; every failure is a message, and an HTTP-error message starts with the error text and contains the status code and the response text |
| HttpClient.SendApiRequest | request.py:72-171 | a request is made exactly when the URL is non-empty and the method is GET/POST/PUT/DELETE; what is sent is the request `BuildRequest` makes, with the negotiated headers and body; a refusal sends nothing and replies (False, "API Error: URL cannot be empty.") or (False, "API Error: Unsupported HTTP method: <method>"); when sent, the reply is the classified transport outcome |
| HttpClient.ClassifyKindRecoverable | request.py:150-171 | a failure message's opening words tell which kind of transport failure produced it (HTTP, connection, timeout, other request error, other error); a timeout never reads as an HTTP error |
| HttpClient.FailureKindRecoverable | request.py:86-171 | the same for the whole sender: a call refused before any request reports a configuration failure |
| HttpClient.PatchNegotiatedButRefused | request.py:95-133 | a dict payload on PATCH is negotiated as JSON with a JSON Content-Type, yet the call is refused as unsupported and no request is made |
| Session.CredentialsRequest | request.py:26-38 | the login request is a JSON POST to the login URL with a JSON Content-Type and a 10 s timeout, whose body's "email" and "password" are the given ones |
| Session.LoginReply | request.py:42-69 | login success is exactly a status in [200, 300); the data is the decoded JSON or else the text, on success and on failure; any raised exception is failure with its message |
| Session.AttemptLogin | request.py:12-69 | `attempt_login` as written: it always sends the built-in credentials and replies as `LoginReply` |
| Session.LoginIgnoresCredentials | request.py:26-29 | the request and reply do not depend on the email and password passed |
| Session.LoginDropsCallerEmail | request.py:26-29 | for any email other than the built-in one, the request does not carry the caller's email |
| Session.AttemptLoginAsDocumented | request.py:13-29 | the documented login: the request carries the caller's email and password; the reply is classified as in `LoginReply` |
| Session.DocumentedLoginAgreesOnBuiltInCredentials | request.py:26-29 | the documented and the actual login coincide exactly when the caller passes the built-in credentials |
| Session.LoginAgreesWithSendApiRequest | request.py:38-69 | `send_api_request` given the login URL, body and headers builds the same request. It reaches the same verdict whenever `raise_for_status` rejects exactly the non-2xx statuses, and on success it returns the same data |
| Session.ExtractToken | test3.py:39-40 | the token is the value under "token" when the login succeeded and its data is a dict holding that key, and None otherwise |
| Session.TokenNeedsSuccessfulLogin | test3.py:38-40 | a truthy token implies a 2xx login whose decoded body is a dict with a "token" key |
| Session.TokenFromLoginReply | test3.py:38-40 | a 2xx login reply `{"token": s}` yields the token `s` |
| Session.Startup | test3.py:35-40 | the script's start-up token, when truthy, is the "token" value of a 2xx JSON dict reply |
| Session.StartupSameAsWritten | test3.py:33-40 | the script passes the built-in credentials, so its token is the same under the actual and the documented login |
| Alerts.AuthHeaders | request.py:198-211 | headers are passed as a one-entry dict `Authorization: Bearer <token>` exactly when the token is truthy, and as None otherwise |
| Alerts.PostDictionary | request.py:91-127 | a sender's POST of a dict payload is always made, as JSON, with the JSON Content-Type plus the bearer header when there is a token; the reply is the classified outcome |
| Alerts.SendPlateAlert | request.py:174-224 | a falsy plate text returns (False, "No number plate text provided") with no request; a truthy token that is neither a string nor a list makes `auth_token[:20]` raise, with no request; otherwise the OCR endpoint gets a JSON payload of the text, timestamp and "combined_alert_system_v1"; the `send_api_request` reply is returned unchanged |
| Alerts.SendVehicleAlert | request.py:263-284 | always posts {timestamp, "vehicle_detected", "vehicle_detection_v1"} to the vehicle endpoint, with the bearer header exactly when the token is truthy; the reply is returned unchanged |
| Alerts.SendPlateBulk | request.py:327-369 | an empty or absent list returns (False, "No plate data provided") with no request; a truthy number or boolean makes `len(...)` raise, with no request; otherwise the data goes to the bulk endpoint tagged "text_extraction_bulk_v1"; the reply is returned unchanged |
| Alerts.SendLatestPlateRow | request.py:228-260 | a failed read returns its message and an empty file "CSV is empty", both with no request; otherwise the last row is posted as JSON to the OCR endpoint |
| Alerts.BearerIffToken | request.py:198-211 | the headers that reach the transport hold `Authorization` exactly when the token is truthy, reading `Bearer <token>`, next to the JSON Content-Type |
| Pipeline.AcceptPlate | test3.py:76-100 | confidence below 0.92 changes nothing and raises nothing; the store grows by one exactly when the plate is confident and its frame box overlaps no stored box, and then by that box at the end; a plate alert naming the crop's path is raised exactly for an accepted plate while a token is held |
| Pipeline.AcceptPlateCovers | test3.py:84-96 | after one step a confident, well-formed plate's frame box overlaps a stored box (kept now or already matched), and the only box a step can add is that plate's frame box |
| Pipeline.AcceptPlatePreservesNoOverlap | test3.py:84-96 | accepting a plate keeps the store free of overlapping boxes |
| Pipeline.AcceptPlateIdempotent | test3.py:84-96 | processing the same valid detection a second time leaves the store unchanged and raises no alert |
| Pipeline.ProcessPlates | test3.py:75-100 | over a vehicle's plates the store only grows at its end and stays overlap-free; every confident, well-formed plate's frame box overlaps a stored box afterwards, and every added box is the frame box of a confident plate of the vehicle; with a token, there is one plate alert per new box, all with that token; without one, no alert |
| Pipeline.ProcessVehicles | test3.py:68-100 | the same over all vehicles of a frame: every confident, well-formed plate of every vehicle is covered by the store, and every added box comes from a confident plate of one of the vehicles |
| Pipeline.ProcessFrame | test3.py:62-100 | the vehicle alert comes first, and exactly when at least one vehicle was detected and a token is held; all later alerts are plate alerts; every alert carries the token; the store only grows and stays overlap-free; every confident, well-formed plate of the frame is covered, and every added box comes from one |
| Pipeline.ProcessFrames | test3.py:54-110 | over successive frames (numbered one after another) the store only grows and stays overlap-free; every confident, well-formed plate of every frame is covered, and every added box comes from one; without a token no alert is raised; with one, there is one vehicle alert per frame with a vehicle plus one plate alert per kept box, and a plate alert exactly when a box was kept |
| Pipeline.Run | test3.py:19-110 | a whole run from the empty store keeps no two overlapping boxes; every confident, well-formed plate it sees overlaps a kept box, and every kept box is the frame box of a confident plate it saw; it raises no alert without a token; with one, it raises one vehicle alert per frame with a vehicle plus one plate alert per kept box, and some plate alert exactly when some box was kept; every alert carries the start-up token, each plate alert a non-empty crop path |
| Pipeline.CropPath | test3.py:93-94 | the crop path handed to the plate sender is never empty, so the sender does not refuse it as missing text |
| Pipeline.CropPathInjective | test3.py:93-94 | two crops get the same file name exactly when their clock readings and frame numbers are both equal |
| Pipeline.Dispatch | test3.py:64-100 | a vehicle alert goes to `send_vehicle_detection_alert(auth_token)` (line 66) and always returns; a plate alert goes to `send_number_plate_detection_alert(str(filename), auth_token)` (line 100) with the crop path as its text |
| Pipeline.DispatchRaises | request.py:186-205 | a sent alert raises exactly when it is a plate alert whose token is truthy but neither a string nor a list, and the token is what raised |
| Pipeline.FrameAlertsAreSentAuthenticated | test3.py:64-100 | every alert a frame raises, handed to its sender, is sent with `Authorization: Bearer <token>`, except that a plate alert raises before any request exactly when the token cannot be sliced |
| Pipeline.DispatchAll | test3.py:54-110 | the alerts are sent in the order raised; nothing in the loop catches an exception, so the first sender that raises ends the run and nothing after it is sent; every call before it is that alert's sender call |
| Pipeline.DeliveryStopsAtFirstPlateAlert | test3.py:64-100 | for alerts all carrying one token, delivery stops exactly when the token is truthy but cannot be sliced and some plate alert exists, and then at the first plate alert, after vehicle alerts only |
| Pipeline.RunDelivery | test3.py:54-110 | a whole run delivers every alert it raises unless the token is truthy but neither a string nor a list and the run kept some plate box; then it stops |
| Pipeline.LoginTokenReachesAlerts | test3.py:38-66 | a 2xx login reply `{"token": s}` with non-empty `s` gives the loop token `s`, and the vehicle alert then carries `Authorization: Bearer s` |
| Pipeline.NumericTokenStopsPlateAlert | test3.py:38-100 | a 2xx login reply whose token is a non-zero number gives the loop that number; its vehicle alert is sent, but its first plate alert raises before any request |

## Left out

- Capture and inference: model loading, the webcam, YOLO calls, cropping, writing crops to disk, drawing and display (test3.py:1-17, 45-62, 68-73, 92, 95, 102-113). These are foreign libraries and I/O. Detections are an input.
- The `requests` calls themselves, JSON encoding and decoding, and all `print` logging. What the library returned is the `Transport` input.
- Which statuses `raise_for_status` rejects. Its verdict and message are part of a `Response`.
- The library's exception class hierarchy. For example, a connect timeout is caught by the `ConnectionError` branch. The `Transport` variant names the branch that catches the exception.
- `str(http_err)` and other library-made messages are opaque strings given with the outcome.
- Clock reads (`datetime.now().isoformat()`, `time.time()`): they are parameters.
- The CSV file read in `send_latest_plate_from_csv`: the rows, or the read error's message, are an input.
- The `__main__` block of request.py (request.py:290-324): it is script wiring, and its token extraction is the one modelled from test3.py:39-40.
- Float-to-int truncation of detector coordinates (test3.py:69, 76): boxes are integers from the start.
- Geometry.Iou: computed as an exact rational, not a binary float, and the 0.35 and 0.92 thresholds are exact decimals. For a union below about 10^15 pixels, the float comparison `iou > 0.35` gives the same verdict.
- Values.Upper: `str.upper()`/`str.lower()` are modelled on ASCII letters only. Non-ASCII characters whose case mapping is ASCII, such as U+017F, are left as they are.
- Values.Repr: strings inside containers are quoted with `'` without escaping. Floating-point JSON numbers are not among the modelled values.
- Pipeline.CropPath: the crop path uses `/` as separator, and the `Path` object is represented by its string.
- Alerts.SendPlateAlert: a raise records only the value that caused it, not the exception class. Slicing a dictionary raises `TypeError` before Python 3.12 and `KeyError` from 3.12 on; either way no request is made.
- What the capture loop holds after a sender raises (the store, the open camera) is not modelled: the script ends there, and only the requests made before it are observable.
- A `url` of `None` behaves like the empty string and is not modelled separately. `method` is always a string, header names and values are strings, and `timeout` is an integer.

## Findings

| source | as written | input that shows it | evidently intended | confidence | as-written member | corrected member |
|---|---|---|---|---|---|---|
| request.py:26-29 | `attempt_login` posts the built-in developer email and password and ignores its arguments | `attempt_login("someone@example.com", "pw")` posts email "developer@developer1.com" | post the caller's email and password, as the docstring (line 15) and the inline comments say | high that it diverges from the documentation, medium that it is unintended; not executed | Session.LoginDropsCallerEmail | Session.AttemptLoginAsDocumented |

The capture script passes the built-in credentials itself. So its start-up
(`Session.Startup`, which calls `attempt_login` as written, as test3.py:38
does) gets the same token as the corrected login would give
(`Session.StartupSameAsWritten`); everything downstream of the token holds
under either.
