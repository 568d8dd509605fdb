/**
 The decision logic of the capture loop, with capture, inference and image
 writing taken out: for each frame the detector hands over the vehicles it
 found and, per vehicle, the plates found inside the vehicle's crop. The
 loop raises a vehicle alert, moves each plate box into frame coordinates,
 keeps confident plates that are new, and raises a plate alert for each
 plate it keeps. Alerts are returned as values; sending them is the
 alert senders' business (`Dispatch`).
 */
module Pipeline {
  import opened Values
  import opened Geometry
  import opened Dedup
  import opened HttpClient
  import opened Alerts
  import opened Session

  /** Plates below this confidence are never kept or reported. */
  const ConfidenceThreshold: real := 0.92

  /** A plate as the plate detector reports it, in the coordinates of the
      vehicle crop, with the clock reading (milliseconds) at which its crop
      would be saved. */
  datatype PlateDetection = PlateDetection(box: Box, confidence: real, savedAt: nat)

  /** A vehicle box in frame coordinates and the plates found inside it. */
  datatype VehicleDetection = VehicleDetection(box: Box, plates: seq<PlateDetection>)

  /** An alert the loop raises, with the token it is sent with. A plate alert
      carries the path of the saved crop: that path, not any plate text, is
      what the loop hands to the plate sender. */
  datatype Alert = VehicleAlert(token: Value) | PlateAlert(imagePath: string, token: Value)

  /** The store after a step, and the alerts the step raised, in order. */
  datatype Outcome = Outcome(store: seq<Box>, alerts: seq<Alert>)

  /** Where the crop of an accepted plate is written: the clock reading and
      the frame number name the file. */
  function CropPath(savedAt: nat, frame: nat): (p: string)
    ensures |p| > 0
  {
    "cropped_plates/plate_" + NatToString(savedAt) + "_" + NatToString(frame) + ".jpg"
  }

  /** The length of the run of digits a string starts with. */
  function LeadingDigits(s: string): (n: nat)
    ensures n <= |s|
  {
    if |s| == 0 || !IsDigit(s[0]) then 0 else 1 + LeadingDigits(s[1..])
  }

  lemma {:induction false} LeadingDigitsBeforeSeparator(a: string, sep: char, x: string)
    requires forall i :: 0 <= i < |a| ==> IsDigit(a[i])
    requires !IsDigit(sep)
    ensures LeadingDigits(a + [sep] + x) == |a|
  {
    if |a| == 0 {
      assert (a + [sep] + x)[0] == sep;
    } else {
      assert (a + [sep] + x)[1..] == a[1..] + [sep] + x;
      assert (a + [sep] + x)[0] == a[0];
      LeadingDigitsBeforeSeparator(a[1..], sep, x);
    }
  }

  /** Two digit strings, each followed by the same non-digit separator,
      split a string at the same place. */
  lemma SplitAtSeparator(a: string, x: string, b: string, y: string, sep: char)
    requires forall i :: 0 <= i < |a| ==> IsDigit(a[i])
    requires forall i :: 0 <= i < |b| ==> IsDigit(b[i])
    requires !IsDigit(sep)
    requires a + [sep] + x == b + [sep] + y
    ensures a == b && x == y
  {
    var l, r := a + [sep] + x, b + [sep] + y;
    LeadingDigitsBeforeSeparator(a, sep, x);
    LeadingDigitsBeforeSeparator(b, sep, y);
    assert a == l[..|a|] && b == r[..|b|];
    assert x == l[|a| + 1..] && y == r[|b| + 1..];
  }

  /** Distinct clock readings or frame numbers name distinct crop files, and
      the file name gives both back. */
  lemma {:induction false} CropPathInjective(t1: nat, f1: nat, t2: nat, f2: nat)
    ensures CropPath(t1, f1) == CropPath(t2, f2) <==> t1 == t2 && f1 == f2
  {
    if CropPath(t1, f1) == CropPath(t2, f2) {
      var head := "cropped_plates/plate_";
      var a1, b1, a2, b2 := NatToString(t1), NatToString(f1), NatToString(t2), NatToString(f2);
      var x1, x2 := b1 + ".jpg", b2 + ".jpg";
      assert CropPath(t1, f1) == head + (a1 + ['_'] + x1);
      assert CropPath(t2, f2) == head + (a2 + ['_'] + x2);
      assert a1 + ['_'] + x1 == CropPath(t1, f1)[|head|..];
      SplitAtSeparator(a1, x1, a2, x2, '_');
      assert b1 == x1[..|b1|] && b2 == x2[..|b2|];
      NatToStringInjective(t1, t2);
      NatToStringInjective(f1, f2);
    }
  }

  /** The plate passes the confidence gate and its frame box overlaps no
      stored box. */
  predicate Accepted(store: seq<Box>, vehicle: Box, plate: PlateDetection)
  {
    plate.confidence >= ConfidenceThreshold && !IsDuplicate(store, ToFullFrame(vehicle, plate.box))
  }

  /** Every alert is a plate alert naming a saved crop, sent with `token`. */
  predicate PlateAlertsWith(alerts: seq<Alert>, token: Value)
  {
    forall i :: 0 <= i < |alerts| ==>
      alerts[i].PlateAlert? && alerts[i].imagePath != "" && alerts[i].token == token
  }

  /** One plate of one vehicle. */
  function AcceptPlate(store: seq<Box>, vehicle: Box, plate: PlateDetection, token: Value, frame: nat): (r: Outcome)
    // Below the confidence gate nothing happens at all.
    ensures plate.confidence < ConfidenceThreshold ==> r == Outcome(store, [])
    // The store only grows, by at most the plate's frame box, and grows
    // exactly when the plate is accepted.
    ensures |store| <= |r.store| <= |store| + 1 && r.store[..|store|] == store
    ensures |r.store| == |store| + 1 <==> Accepted(store, vehicle, plate)
    ensures |r.store| == |store| + 1 ==> r.store[|store|] == ToFullFrame(vehicle, plate.box)
    // A plate alert exactly for an accepted plate while a token is held,
    // naming the crop saved for it.
    ensures |r.alerts| <= 1
    ensures |r.alerts| == 1 <==> Accepted(store, vehicle, plate) && Truthy(token)
    ensures r.alerts == [] || r.alerts == [PlateAlert(CropPath(plate.savedAt, frame), token)]
  {
    if plate.confidence >= ConfidenceThreshold then
      var box := ToFullFrame(vehicle, plate.box);
      var stored := Record(store, box);
      if |stored| > |store| then
        Outcome(stored, if Truthy(token) then [PlateAlert(CropPath(plate.savedAt, frame), token)] else [])
      else Outcome(store, [])
    else Outcome(store, [])
  }

  /** Accepting keeps the store free of overlapping boxes. */
  lemma AcceptPlatePreservesNoOverlap(store: seq<Box>, vehicle: Box, plate: PlateDetection, token: Value, frame: nat)
    ensures NoOverlap(store) ==> NoOverlap(AcceptPlate(store, vehicle, plate, token, frame).store)
  {
    if NoOverlap(store) && plate.confidence >= ConfidenceThreshold {
      RecordPreservesNoOverlap(store, ToFullFrame(vehicle, plate.box));
    }
  }

  /** Seeing the same plate again is a no-op: once accepted, its own box is
      in the store and overlaps it completely. */
  lemma AcceptPlateIdempotent(store: seq<Box>, vehicle: Box, plate: PlateDetection, token: Value, frame: nat, frame': nat)
    requires Valid(plate.box)
    ensures var r := AcceptPlate(store, vehicle, plate, token, frame);
      AcceptPlate(r.store, vehicle, plate, token, frame') == Outcome(r.store, [])
  {
    if plate.confidence >= ConfidenceThreshold {
      RecordIdempotent(store, ToFullFrame(vehicle, plate.box));
    }
  }

  /** A confident plate of `vehicle` whose frame box is `b`. */
  predicate Yields(vehicle: Box, plate: PlateDetection, b: Box)
  {
    plate.confidence >= ConfidenceThreshold && b == ToFullFrame(vehicle, plate.box)
  }

  /** A confident, well-formed plate is covered by the store: its frame box
      overlaps a stored box, so the loop holds it or a box it duplicates. */
  predicate Covered(store: seq<Box>, vehicle: Box, plate: PlateDetection)
  {
    plate.confidence >= ConfidenceThreshold && Valid(plate.box) ==>
      IsDuplicate(store, ToFullFrame(vehicle, plate.box))
  }

  predicate CoversPlates(store: seq<Box>, vehicle: Box, plates: seq<PlateDetection>)
  {
    forall p :: p in plates ==> Covered(store, vehicle, p)
  }

  predicate CoversVehicles(store: seq<Box>, vehicles: seq<VehicleDetection>)
  {
    forall v :: v in vehicles ==> CoversPlates(store, v.box, v.plates)
  }

  predicate CoversFrames(store: seq<Box>, frames: seq<seq<VehicleDetection>>)
  {
    forall f :: f in frames ==> CoversVehicles(store, f)
  }

  /** Every box in `boxes` is the frame box of a confident plate among
      `plates` (of one vehicle), of `vehicles`, or of `frames`. */
  predicate FromPlates(boxes: seq<Box>, vehicle: Box, plates: seq<PlateDetection>)
  {
    forall b :: b in boxes ==> exists p :: p in plates && Yields(vehicle, p, b)
  }

  predicate FromVehicles(boxes: seq<Box>, vehicles: seq<VehicleDetection>)
  {
    forall b :: b in boxes ==> exists v, p :: v in vehicles && p in v.plates && Yields(v.box, p, b)
  }

  predicate FromFrames(boxes: seq<Box>, frames: seq<seq<VehicleDetection>>)
  {
    forall b :: b in boxes ==>
      exists f, v, p :: f in frames && v in f && p in v.plates && Yields(v.box, p, b)
  }

  /** One step covers its plate and adds nothing but that plate's box. */
  lemma AcceptPlateCovers(store: seq<Box>, vehicle: Box, plate: PlateDetection, token: Value, frame: nat)
    ensures var r := AcceptPlate(store, vehicle, plate, token, frame);
      Covered(r.store, vehicle, plate) && FromPlates(r.store[|store|..], vehicle, [plate])
  {
    var r := AcceptPlate(store, vehicle, plate, token, frame);
    var box := ToFullFrame(vehicle, plate.box);
    if plate.confidence >= ConfidenceThreshold && Valid(plate.box) {
      RecordIdempotent(store, box);
    }
    if |r.store| > |store| {
      assert r.store[|store|..] == [box];
      assert Yields(vehicle, plate, box);
    } else {
      assert r.store[|store|..] == [];
    }
  }

  /** The boxes added by two successive steps are those of the first
      followed by those of the second. */
  lemma AddedInTwoSteps(store: seq<Box>, mid: seq<Box>, end: seq<Box>)
    requires |store| <= |mid| && mid[..|store|] == store
    requires |mid| <= |end| && end[..|mid|] == mid
    ensures end[|store|..] == mid[|store|..] + end[|mid|..]
  {
    assert end[|store|..|mid|] == mid[|store|..];
  }

  lemma CoversPlatesGrows(small: seq<Box>, big: seq<Box>, vehicle: Box, plates: seq<PlateDetection>)
    requires |small| <= |big| && big[..|small|] == small
    requires CoversPlates(small, vehicle, plates)
    ensures CoversPlates(big, vehicle, plates)
  {
    forall p | p in plates && p.confidence >= ConfidenceThreshold && Valid(p.box)
      ensures IsDuplicate(big, ToFullFrame(vehicle, p.box))
    {
      DuplicateGrows(small, big, ToFullFrame(vehicle, p.box));
    }
  }

  lemma CoversVehiclesGrows(small: seq<Box>, big: seq<Box>, vehicles: seq<VehicleDetection>)
    requires |small| <= |big| && big[..|small|] == small
    requires CoversVehicles(small, vehicles)
    ensures CoversVehicles(big, vehicles)
  {
    forall v | v in vehicles
      ensures CoversPlates(big, v.box, v.plates)
    {
      CoversPlatesGrows(small, big, v.box, v.plates);
    }
  }

  /** Coverage and provenance over a vehicle's plates, from the first plate
      and the rest. */
  lemma PlatesJoin(store: seq<Box>, mid: seq<Box>, end: seq<Box>, vehicle: Box, plates: seq<PlateDetection>)
    requires |plates| > 0
    requires |store| <= |mid| && mid[..|store|] == store
    requires |mid| <= |end| && end[..|mid|] == mid
    requires Covered(mid, vehicle, plates[0]) && FromPlates(mid[|store|..], vehicle, [plates[0]])
    requires CoversPlates(end, vehicle, plates[1..]) && FromPlates(end[|mid|..], vehicle, plates[1..])
    ensures CoversPlates(end, vehicle, plates) && FromPlates(end[|store|..], vehicle, plates)
  {
    AddedInTwoSteps(store, mid, end);
    if plates[0].confidence >= ConfidenceThreshold && Valid(plates[0].box) {
      DuplicateGrows(mid, end, ToFullFrame(vehicle, plates[0].box));
    }
    assert plates == [plates[0]] + plates[1..];
  }

  /** The plates of one vehicle, in detector order. Every confident,
      well-formed plate ends up covered by the store, and every box added
      comes from a confident plate. */
  function ProcessPlates(store: seq<Box>, vehicle: Box, plates: seq<PlateDetection>, token: Value, frame: nat): (r: Outcome)
    ensures |store| <= |r.store| && r.store[..|store|] == store
    ensures NoOverlap(store) ==> NoOverlap(r.store)
    ensures !Truthy(token) ==> r.alerts == []
    ensures Truthy(token) ==> |r.alerts| == |r.store| - |store|
    ensures PlateAlertsWith(r.alerts, token)
    ensures CoversPlates(r.store, vehicle, plates)
    ensures FromPlates(r.store[|store|..], vehicle, plates)
    decreases |plates|
  {
    if |plates| == 0 then
      assert store[|store|..] == [];
      Outcome(store, [])
    else
      var first := AcceptPlate(store, vehicle, plates[0], token, frame);
      var rest := ProcessPlates(first.store, vehicle, plates[1..], token, frame);
      AcceptPlatePreservesNoOverlap(store, vehicle, plates[0], token, frame);
      AcceptPlateCovers(store, vehicle, plates[0], token, frame);
      assert rest.store[..|store|] == first.store[..|first.store|][..|store|];
      PlatesJoin(store, first.store, rest.store, vehicle, plates);
      Outcome(rest.store, first.alerts + rest.alerts)
  }

  lemma VehiclesJoin(store: seq<Box>, mid: seq<Box>, end: seq<Box>, vehicles: seq<VehicleDetection>)
    requires |vehicles| > 0
    requires |store| <= |mid| && mid[..|store|] == store
    requires |mid| <= |end| && end[..|mid|] == mid
    requires CoversPlates(mid, vehicles[0].box, vehicles[0].plates)
    requires FromPlates(mid[|store|..], vehicles[0].box, vehicles[0].plates)
    requires CoversVehicles(end, vehicles[1..]) && FromVehicles(end[|mid|..], vehicles[1..])
    ensures CoversVehicles(end, vehicles) && FromVehicles(end[|store|..], vehicles)
  {
    AddedInTwoSteps(store, mid, end);
    CoversPlatesGrows(mid, end, vehicles[0].box, vehicles[0].plates);
    assert vehicles == [vehicles[0]] + vehicles[1..];
    forall b | b in end[|store|..]
      ensures exists v, p :: v in vehicles && p in v.plates && Yields(v.box, p, b)
    {
      if b in mid[|store|..] {
        var p :| p in vehicles[0].plates && Yields(vehicles[0].box, p, b);
        assert vehicles[0] in vehicles;
      } else {
        assert b in end[|mid|..];
        var v, p :| v in vehicles[1..] && p in v.plates && Yields(v.box, p, b);
        assert v in vehicles;
      }
    }
  }

  /** The vehicles of one frame, in detector order. */
  function ProcessVehicles(store: seq<Box>, vehicles: seq<VehicleDetection>, token: Value, frame: nat): (r: Outcome)
    ensures |store| <= |r.store| && r.store[..|store|] == store
    ensures NoOverlap(store) ==> NoOverlap(r.store)
    ensures !Truthy(token) ==> r.alerts == []
    ensures Truthy(token) ==> |r.alerts| == |r.store| - |store|
    ensures PlateAlertsWith(r.alerts, token)
    ensures CoversVehicles(r.store, vehicles)
    ensures FromVehicles(r.store[|store|..], vehicles)
    decreases |vehicles|
  {
    if |vehicles| == 0 then
      assert store[|store|..] == [];
      Outcome(store, [])
    else
      var first := ProcessPlates(store, vehicles[0].box, vehicles[0].plates, token, frame);
      var rest := ProcessVehicles(first.store, vehicles[1..], token, frame);
      assert rest.store[..|store|] == first.store[..|first.store|][..|store|];
      VehiclesJoin(store, first.store, rest.store, vehicles);
      Outcome(rest.store, first.alerts + rest.alerts)
  }

  /** One frame: a vehicle alert first when any vehicle was detected and a
      token is held, then the plates. */
  function ProcessFrame(store: seq<Box>, vehicles: seq<VehicleDetection>, token: Value, frame: nat): (r: Outcome)
    ensures |store| <= |r.store| && r.store[..|store|] == store
    ensures NoOverlap(store) ==> NoOverlap(r.store)
    ensures !Truthy(token) ==> r.alerts == []
    ensures (|r.alerts| > 0 && r.alerts[0].VehicleAlert?) <==> |vehicles| > 0 && Truthy(token)
    ensures forall i :: 0 <= i < |r.alerts| ==> r.alerts[i].token == token
    ensures forall i :: 0 <= i < |r.alerts| && r.alerts[i].PlateAlert? ==> r.alerts[i].imagePath != ""
    ensures forall i :: 0 < i < |r.alerts| ==> r.alerts[i].PlateAlert?
    ensures Truthy(token) ==>
      |r.alerts| == (if |vehicles| > 0 then 1 else 0) + (|r.store| - |store|)
    ensures Truthy(token) ==> (HasPlateAlert(r.alerts) <==> |r.store| > |store|)
    ensures CoversVehicles(r.store, vehicles)
    ensures FromVehicles(r.store[|store|..], vehicles)
  {
    var plates := ProcessVehicles(store, vehicles, token, frame);
    var vehicleAlert := if |vehicles| > 0 && Truthy(token) then [VehicleAlert(token)] else [];
    HasPlateAlertConcat(vehicleAlert, plates.alerts);
    assert |plates.alerts| > 0 ==> plates.alerts[0].PlateAlert?;
    Outcome(plates.store, vehicleAlert + plates.alerts)
  }

  /** How many frames detected at least one vehicle: each raises one vehicle
      alert while a token is held. */
  function FramesWithVehicles(frames: seq<seq<VehicleDetection>>): (n: nat)
    ensures n <= |frames|
    ensures n == 0 <==> forall f :: f in frames ==> |f| == 0
    decreases |frames|
  {
    if |frames| == 0 then 0
    else
      assert forall f :: f in frames ==> f == frames[0] || f in frames[1..];
      (if |frames[0]| > 0 then 1 else 0) + FramesWithVehicles(frames[1..])
  }

  /** A plate alert occurs in a concatenation exactly when it occurs in one
      of the parts. */
  lemma HasPlateAlertConcat(a: seq<Alert>, b: seq<Alert>)
    ensures HasPlateAlert(a + b) <==> HasPlateAlert(a) || HasPlateAlert(b)
  {
    if HasPlateAlert(a + b) {
      var i :| 0 <= i < |a + b| && (a + b)[i].PlateAlert?;
      if i >= |a| {
        assert b[i - |a|] == (a + b)[i];
      }
    }
    if HasPlateAlert(a) {
      var i :| 0 <= i < |a| && a[i].PlateAlert?;
      assert (a + b)[i] == a[i];
    }
    if HasPlateAlert(b) {
      var j :| 0 <= j < |b| && b[j].PlateAlert?;
      assert (a + b)[|a| + j] == b[j];
    }
  }

  lemma FramesJoin(store: seq<Box>, mid: seq<Box>, end: seq<Box>, frames: seq<seq<VehicleDetection>>)
    requires |frames| > 0
    requires |store| <= |mid| && mid[..|store|] == store
    requires |mid| <= |end| && end[..|mid|] == mid
    requires CoversVehicles(mid, frames[0]) && FromVehicles(mid[|store|..], frames[0])
    requires CoversFrames(end, frames[1..]) && FromFrames(end[|mid|..], frames[1..])
    ensures CoversFrames(end, frames) && FromFrames(end[|store|..], frames)
  {
    AddedInTwoSteps(store, mid, end);
    CoversVehiclesGrows(mid, end, frames[0]);
    assert frames == [frames[0]] + frames[1..];
    forall b | b in end[|store|..]
      ensures exists f, v, p :: f in frames && v in f && p in v.plates && Yields(v.box, p, b)
    {
      if b in mid[|store|..] {
        var v, p :| v in frames[0] && p in v.plates && Yields(v.box, p, b);
        assert frames[0] in frames;
      } else {
        assert b in end[|mid|..];
        var f, v, p :| f in frames[1..] && v in f && p in v.plates && Yields(v.box, p, b);
        assert f in frames;
      }
    }
  }

  /** A run of frames, numbered from `frame` on. */
  function ProcessFrames(store: seq<Box>, frames: seq<seq<VehicleDetection>>, token: Value, frame: nat): (r: Outcome)
    ensures |store| <= |r.store| && r.store[..|store|] == store
    ensures NoOverlap(store) ==> NoOverlap(r.store)
    ensures !Truthy(token) ==> r.alerts == []
    ensures forall i :: 0 <= i < |r.alerts| ==> r.alerts[i].token == token
    ensures forall i :: 0 <= i < |r.alerts| && r.alerts[i].PlateAlert? ==> r.alerts[i].imagePath != ""
    ensures CoversFrames(r.store, frames)
    ensures FromFrames(r.store[|store|..], frames)
    // With a token: one vehicle alert per frame with a vehicle, one plate
    // alert per kept box, and a plate alert exactly when a box was kept.
    ensures Truthy(token) ==> |r.alerts| == FramesWithVehicles(frames) + (|r.store| - |store|)
    ensures Truthy(token) ==> (HasPlateAlert(r.alerts) <==> |r.store| > |store|)
    decreases |frames|
  {
    if |frames| == 0 then
      assert store[|store|..] == [];
      Outcome(store, [])
    else
      var first := ProcessFrame(store, frames[0], token, frame);
      var rest := ProcessFrames(first.store, frames[1..], token, frame + 1);
      assert rest.store[..|store|] == first.store[..|first.store|][..|store|];
      FramesJoin(store, first.store, rest.store, frames);
      HasPlateAlertConcat(first.alerts, rest.alerts);
      Outcome(rest.store, first.alerts + rest.alerts)
  }

  /** The whole capture run: an empty store, frames numbered from zero, the
      token held from start-up. No two boxes the run keeps overlap; every
      confident, well-formed plate of every frame overlaps a kept box; and
      every kept box is the frame box of a confident plate. */
  function Run(frames: seq<seq<VehicleDetection>>, token: Value): (r: Outcome)
    ensures NoOverlap(r.store)
    ensures !Truthy(token) ==> r.alerts == []
    ensures forall i :: 0 <= i < |r.alerts| ==> r.alerts[i].token == token
    ensures forall i :: 0 <= i < |r.alerts| && r.alerts[i].PlateAlert? ==> r.alerts[i].imagePath != ""
    ensures CoversFrames(r.store, frames)
    ensures FromFrames(r.store, frames)
    ensures Truthy(token) ==> |r.alerts| == FramesWithVehicles(frames) + |r.store|
    ensures Truthy(token) ==> (HasPlateAlert(r.alerts) <==> |r.store| > 0)
  {
    var r := ProcessFrames([], frames, token, 0);
    assert r.store[0..] == r.store;
    r
  }

  /** Sending an alert through its sender at clock reading `timestamp`: the
      vehicle alert at test3.py line 66 and the plate alert, with the crop
      path as its text, at line 100. */
  function Dispatch(alert: Alert, timestamp: string, t: Transport): (c: Completion)
    ensures alert.VehicleAlert? ==> c == Returned(SendVehicleAlert(alert.token, timestamp, t))
    ensures alert.PlateAlert? ==> c == SendPlateAlert(Str(alert.imagePath), alert.token, timestamp, t)
  {
    match alert
    case VehicleAlert(token) => Returned(SendVehicleAlert(token, timestamp, t))
    case PlateAlert(path, token) => SendPlateAlert(Str(path), token, timestamp, t)
  }

  /** Every alert a frame raises, handed to its sender, is sent with the
      bearer header for the token the loop holds, except a plate alert with a
      token that cannot be sliced: that sender raises before any request. */
  lemma FrameAlertsAreSentAuthenticated(store: seq<Box>, vehicles: seq<VehicleDetection>, token: Value,
                                        frame: nat, i: nat, timestamp: string, t: Transport)
    requires i < |ProcessFrame(store, vehicles, token, frame).alerts|
    ensures var alert := ProcessFrame(store, vehicles, token, frame).alerts[i];
      var c := Dispatch(alert, timestamp, t);
      && (c.Raised? <==> alert.PlateAlert? && !Sliceable(token))
      && (c.Returned? ==>
            && c.call.sent.Some?
            && Authorization in c.call.sent.value.headers
            && c.call.sent.value.headers[Authorization] == BearerValue(token))
  {
    var alert := ProcessFrame(store, vehicles, token, frame).alerts[i];
    assert alert.token == token && Truthy(token);
    if alert.PlateAlert? {
      assert alert.imagePath != "";
    }
  }

  /** What reached the transport when the alerts were sent in order, and the
      value whose misuse raised, if a sender raised. */
  datatype Delivery = Delivery(calls: seq<Call>, stoppedBy: Option<Value>)

  /** Sending the alerts in the order the loop raises them, each at its own
      clock reading and against its own transport outcome. The loop catches
      nothing, so the first sender that raises ends the run. */
  function DispatchAll(alerts: seq<Alert>, stamps: seq<string>, transports: seq<Transport>): (d: Delivery)
    requires |stamps| == |alerts| && |transports| == |alerts|
    ensures |d.calls| <= |alerts|
    ensures d.stoppedBy.None? <==> |d.calls| == |alerts|
    ensures forall i :: 0 <= i < |d.calls| ==> Dispatch(alerts[i], stamps[i], transports[i]) == Returned(d.calls[i])
    ensures d.stoppedBy.Some? ==>
      Dispatch(alerts[|d.calls|], stamps[|d.calls|], transports[|d.calls|]) == Raised(d.stoppedBy.value)
    decreases |alerts|
  {
    if |alerts| == 0 then Delivery([], None)
    else
      match Dispatch(alerts[0], stamps[0], transports[0])
      case Raised(v) => Delivery([], Some(v))
      case Returned(c) =>
        var rest := DispatchAll(alerts[1..], stamps[1..], transports[1..]);
        Delivery([c] + rest.calls, rest.stoppedBy)
  }

  /** Alerts that all carry `token`, each plate alert naming a crop. */
  predicate AlertsCarry(alerts: seq<Alert>, token: Value)
  {
    forall i :: 0 <= i < |alerts| ==>
      alerts[i].token == token && (alerts[i].PlateAlert? ==> alerts[i].imagePath != "")
  }

  predicate HasPlateAlert(alerts: seq<Alert>)
  {
    exists i :: 0 <= i < |alerts| && alerts[i].PlateAlert?
  }

  /** A single alert raises exactly when it is a plate alert and its token is
      truthy but cannot be sliced; the token is then what raised. */
  lemma DispatchRaises(alert: Alert, timestamp: string, t: Transport)
    requires alert.PlateAlert? ==> alert.imagePath != ""
    ensures var c := Dispatch(alert, timestamp, t);
      && (c.Raised? <==> alert.PlateAlert? && Truthy(alert.token) && !Sliceable(alert.token))
      && (c.Raised? ==> c.culprit == alert.token)
  {
  }

  lemma AlertsCarryTail(alerts: seq<Alert>, token: Value)
    requires |alerts| > 0 && AlertsCarry(alerts, token)
    ensures AlertsCarry(alerts[1..], token)
    ensures HasPlateAlert(alerts) <==> alerts[0].PlateAlert? || HasPlateAlert(alerts[1..])
  {
    assert forall i :: 0 <= i < |alerts[1..]| ==> alerts[1..][i] == alerts[i + 1];
    if HasPlateAlert(alerts) && !alerts[0].PlateAlert? {
      var i :| 0 <= i < |alerts| && alerts[i].PlateAlert?;
      assert alerts[1..][i - 1].PlateAlert?;
    }
  }

  /** Delivery stops exactly at the first plate alert when the token is
      truthy but neither a string nor a list; otherwise every alert is
      delivered. */
  lemma {:induction false} DeliveryStopsAtFirstPlateAlert(alerts: seq<Alert>, stamps: seq<string>,
                                                         transports: seq<Transport>, token: Value)
    requires |stamps| == |alerts| && |transports| == |alerts|
    requires AlertsCarry(alerts, token)
    ensures var d := DispatchAll(alerts, stamps, transports);
      && (d.stoppedBy.Some? <==> Truthy(token) && !Sliceable(token) && HasPlateAlert(alerts))
      && (d.stoppedBy.Some? ==>
            d.stoppedBy.value == token && alerts[|d.calls|].PlateAlert?
            && forall i :: 0 <= i < |d.calls| ==> alerts[i].VehicleAlert?)
    decreases |alerts|
  {
    if |alerts| > 0 {
      var d := DispatchAll(alerts, stamps, transports);
      DispatchRaises(alerts[0], stamps[0], transports[0]);
      AlertsCarryTail(alerts, token);
      var first := Dispatch(alerts[0], stamps[0], transports[0]);
      if first.Returned? {
        DeliveryStopsAtFirstPlateAlert(alerts[1..], stamps[1..], transports[1..], token);
        var rest := DispatchAll(alerts[1..], stamps[1..], transports[1..]);
        assert d.calls == [first.call] + rest.calls && d.stoppedBy == rest.stoppedBy;
        if rest.stoppedBy.Some? {
          assert alerts[|d.calls|] == alerts[1..][|rest.calls|];
          forall i | 0 <= i < |d.calls|
            ensures alerts[i].VehicleAlert?
          {
            if i > 0 {
              assert alerts[i] == alerts[1..][i - 1];
            }
          }
        }
      }
    }
  }

  /** A run delivers every alert it raises unless the token is truthy but
      neither a string nor a list and the run kept some plate box; then the
      run ends at its first plate alert, after the vehicle alerts before it. */
  lemma RunDelivery(frames: seq<seq<VehicleDetection>>, token: Value, stamps: seq<string>, transports: seq<Transport>)
    requires |stamps| == |Run(frames, token).alerts| && |transports| == |Run(frames, token).alerts|
    ensures var alerts := Run(frames, token).alerts;
      var d := DispatchAll(alerts, stamps, transports);
      && (d.stoppedBy.Some? <==> Truthy(token) && !Sliceable(token) && |Run(frames, token).store| > 0)
      && (d.stoppedBy.None? ==> |d.calls| == |alerts|)
  {
    DeliveryStopsAtFirstPlateAlert(Run(frames, token).alerts, stamps, transports, token);
  }

  /** From login to alert: a 2xx login reply `{"token": s}` with a non-empty
      `s` gives the loop the token `s`, and the vehicle alert it then sends
      carries `Authorization: Bearer s`. */
  lemma LoginTokenReachesAlerts(status: int, httpError: Option<string>, text: string, s: string,
                                timestamp: string, t: Transport)
    requires 200 <= status < 300 && s != ""
    ensures var token := Startup(Response(status, httpError, Some(Dict([Field("token", Str(s))])), text));
      && token == Str(s)
      && SendVehicleAlert(token, timestamp, t).sent.value.headers[Authorization] == "Bearer " + s
  {
    var login := Response(status, httpError, Some(Dict([Field("token", Str(s))])), text);
    TokenFromLoginReply(ScriptEmail, ScriptPassword, status, httpError, text, s);
    StartupSameAsWritten(login);
    BearerIffToken(Str(s));
  }

  /** A 2xx login reply whose token is a number gives the loop that number
      as its token; the vehicle alert still goes out, but the first plate
      alert raises before any request. */
  lemma NumericTokenStopsPlateAlert(status: int, httpError: Option<string>, text: string, n: int,
                                    path: string, timestamp: string, t: Transport)
    requires 200 <= status < 300 && n != 0 && path != ""
    ensures var token := Startup(Response(status, httpError, Some(Dict([Field("token", Int(n))])), text));
      && token == Int(n)
      && Dispatch(VehicleAlert(token), timestamp, t).Returned?
      && Dispatch(PlateAlert(path, token), timestamp, t) == Raised(Int(n))
  {
    var fields := [Field("token", Int(n))];
    assert fields[0].key == "token";
    assert HasKey(fields, "token");
  }
}
