/**
 * Query dispatch and rendering: one query kind selects one device query, whose
 * record is either rendered through a fixed template of labelled lines or whose
 * error is handed back before anything is printed.
 */
module Query {
  import opened Base
  import opened Device

  /** The six `query` subcommands. */
  datatype QueryKind = Status | ExtraInfo | Autonomy | Alarm | Rating | Info

  /** What a line shows after its label: a library reading, a flag, device text, or a
      duration in whole seconds (shown in words by a foreign formatter). */
  datatype Value = Measured(q: Quantity) | Flag(b: bool) | Text(s: string) | Elapsed(secs: nat)

  /** One printed line, `<label>: <value>` followed by ` <unit>` when the unit is not empty. */
  datatype Line = Line(caption: string, value: Value, unit: string)

  /** What one dispatch does: the device queries it issues, the lines it prints, and
      whether it returns `Ok(())` or the device's error. */
  datatype QueryRun = QueryRun(calls: seq<Call>, output: seq<Line>, result: Result<(), DeviceError>)

  /** The record of any of the six queries. */
  datatype Response =
    | StatusResponse(status: StatusInquiryResponse)
    | ExtraPowerInfo(extra: ExtraPowerInfoResponse)
    | AutonomyReply(autonomy: AutonomyResponse)
    | AlarmReply(alarm: AlarmInquiryResponse)
    | RatingReply(rating: UpsRating)
    | InfoReply(info: UpsInformation)

  // ----- Reference view of the device interface -----

  /** The device query a query kind stands for. */
  function CallFor(kind: QueryKind): Call {
    match kind
    case Status => QueryUpsStatus
    case ExtraInfo => QueryExtraPowerInfo
    case Autonomy => QueryUpsAutonomy
    case Alarm => QueryAlarm
    case Rating => QueryUpsRating
    case Info => QueryUpsInfo
  }

  /** The connection as an oracle from query operations to responses. */
  function Answer(dev: Connection, call: Call): Result<Response, DeviceError> {
    match call
    case QueryUpsStatus => Lift(dev.status, r => StatusResponse(r))
    case QueryExtraPowerInfo => Lift(dev.extraPowerInfo, r => ExtraPowerInfo(r))
    case QueryUpsAutonomy => Lift(dev.autonomy, r => AutonomyReply(r))
    case QueryAlarm => Lift(dev.alarm, r => AlarmReply(r))
    case QueryUpsRating => Lift(dev.rating, r => RatingReply(r))
    case QueryUpsInfo => Lift(dev.info, r => InfoReply(r))
  }

  function Lift<T>(a: Result<T, DeviceError>, wrap: T -> Response): Result<Response, DeviceError> {
    match a
    case Success(v) => Success(wrap(v))
    case Failure(e) => Failure(e)
  }

  /** The template each record is printed with. */
  function Render(resp: Response): seq<Line> {
    match resp
    case StatusResponse(s) => RenderStatus(s)
    case ExtraPowerInfo(x) => RenderExtraInfo(x)
    case AutonomyReply(a) => RenderAutonomy(a)
    case AlarmReply(a) => RenderAlarm(a)
    case RatingReply(r) => RenderRating(r)
    case InfoReply(i) => RenderInfo(i)
  }

  // ----- Templates -----

  /** The label of the `bypass_or_transformer_active` line. */
  function BypassLabel(offline: bool): string {
    if offline then "Boost/buck converter active" else "Bypass mode"
  }

  /** Seven readings with their units, then eight flags without one. */
  function RenderStatus(r: StatusInquiryResponse): (lines: seq<Line>)
    ensures |lines| == 15
    ensures forall i :: 0 <= i < 7 ==> lines[i].value.Measured? && lines[i].unit != ""
    ensures forall i :: 7 <= i < 15 ==> lines[i].value.Flag? && lines[i].unit == ""
  {
    var f := r.upsStatus;
    [ Line("Input voltage", Measured(r.inputVoltage), "V"),
      Line("Input fault voltage", Measured(r.inputFaultVoltage), "V"),
      Line("Input frequency", Measured(r.inputFrequency), "Hz"),
      Line("Output voltage", Measured(r.outputVoltage), "V"),
      Line("Output load percentage", Measured(r.outputLoadPercentage), "%"),
      Line("Battery capacity", Measured(r.batteryCapacity), "%"),
      Line("Temperature", Measured(r.temperature), "°C"),
      Line("Utility fail", Flag(f.utilityFail), ""),
      Line("Battery low", Flag(f.batteryLow), ""),
      Line(BypassLabel(f.offline), Flag(f.bypassOrTransformerActive), ""),
      Line("Battery abnormal", Flag(f.batteryAbnormal), ""),
      Line("Offline", Flag(f.offline), ""),
      Line("Test in progress", Flag(f.testInProgress), ""),
      Line("Shutdown active", Flag(f.shutdownActive), ""),
      Line("Beeper on", Flag(f.beeperOn), "") ]
  }

  /** Six readings; only the error code has no unit. */
  function RenderExtraInfo(r: ExtraPowerInfoResponse): (lines: seq<Line>)
    ensures |lines| == 6
    ensures forall i :: 0 <= i < 6 ==> lines[i].value.Measured?
    ensures forall i :: 0 <= i < 6 ==> (lines[i].unit == "" <==> lines[i].value == Measured(r.errorCode) && i == 5)
  {
    [ Line("Output frequency", Measured(r.upsOutputFreq), "Hz"),
      Line("UPS load", Measured(r.upsWattage), "W"),
      Line("Load current", Measured(r.loadCurrent), "A"),
      Line("Battery voltage", Measured(r.batteryVoltage), "V"),
      Line("Battery cut voltage", Measured(r.batteryCutVoltage), "V"),
      Line("Error code", Measured(r.errorCode), "") ]
  }

  /** The remaining runtime, truncated to whole seconds before it is put in words. */
  function RenderAutonomy(r: AutonomyResponse): (lines: seq<Line>)
    ensures |lines| == 1 && lines[0].value == Elapsed(TotalNanos(r.time) / 1_000_000_000)
  {
    DivByGiga(r.time.secs, r.time.nanos);
    [ Line("Time left", Elapsed(r.time.secs), "") ]
  }

  function RenderAlarm(r: AlarmInquiryResponse): (lines: seq<Line>)
    ensures |lines| == 2
    ensures forall i :: 0 <= i < 2 ==> lines[i].value.Flag? && lines[i].unit == ""
  {
    [ Line("Inverter on", Flag(r.inverterOn), ""),
      Line("UPS alarm on", Flag(r.upsAlarmOn), "") ]
  }

  function RenderRating(r: UpsRating): (lines: seq<Line>)
    ensures |lines| == 4
    ensures forall i :: 0 <= i < 4 ==> lines[i].value.Measured? && lines[i].unit != ""
  {
    [ Line("Output rating voltage", Measured(r.outputRatingVoltage), "V"),
      Line("Output rating current", Measured(r.outputRatingCurrent), "A"),
      Line("Output rating frequency", Measured(r.outputRatingFrequency), "Hz"),
      Line("Battery voltage", Measured(r.batteryVoltage), "V") ]
  }

  function RenderInfo(r: UpsInformation): (lines: seq<Line>)
    ensures |lines| == 3
    ensures forall i :: 0 <= i < 3 ==> lines[i].value.Text? && lines[i].unit == ""
  {
    [ Line("Manufacturer", Text(r.manufacturerName), ""),
      Line("Model", Text(r.model), ""),
      Line("Version", Text(r.version), "") ]
  }

  // ----- Dispatch -----

  /** Issues the one device query `kind` names; on an error, hands it back with nothing
      printed, and otherwise prints the whole template of the record. */
  function PrintFormattedQuery(dev: Connection, kind: QueryKind): (r: QueryRun)
    ensures r.calls == [CallFor(kind)]
    ensures r.result.Failure? <==> Answer(dev, CallFor(kind)).Failure?
    ensures r.result.Failure? ==> r.output == [] && r.result.error == Answer(dev, CallFor(kind)).error
    ensures r.result.Success? ==> r.output == Render(Answer(dev, CallFor(kind)).value)
  {
    match kind
    case Status =>
      (match dev.status
       case Failure(e) => QueryRun([QueryUpsStatus], [], Failure(e))
       case Success(s) => QueryRun([QueryUpsStatus], RenderStatus(s), Success(())))
    case ExtraInfo =>
      (match dev.extraPowerInfo
       case Failure(e) => QueryRun([QueryExtraPowerInfo], [], Failure(e))
       case Success(x) => QueryRun([QueryExtraPowerInfo], RenderExtraInfo(x), Success(())))
    case Autonomy =>
      (match dev.autonomy
       case Failure(e) => QueryRun([QueryUpsAutonomy], [], Failure(e))
       case Success(a) => QueryRun([QueryUpsAutonomy], RenderAutonomy(a), Success(())))
    case Alarm =>
      (match dev.alarm
       case Failure(e) => QueryRun([QueryAlarm], [], Failure(e))
       case Success(a) => QueryRun([QueryAlarm], RenderAlarm(a), Success(())))
    case Rating =>
      (match dev.rating
       case Failure(e) => QueryRun([QueryUpsRating], [], Failure(e))
       case Success(x) => QueryRun([QueryUpsRating], RenderRating(x), Success(())))
    case Info =>
      (match dev.info
       case Failure(e) => QueryRun([QueryUpsInfo], [], Failure(e))
       case Success(i) => QueryRun([QueryUpsInfo], RenderInfo(i), Success(())))
  }

  // ----- Text of a line -----

  /** Rust's `Display` of a `bool`. */
  function BoolText(b: bool): string {
    if b then "true" else "false"
  }

  /** The text of a line, given how library readings are shown and how a whole number of
      seconds is put in words. */
  function LineText(l: Line, show: Quantity -> string, human: nat -> string): (t: string)
    ensures |t| >= |l.caption| + 2 && t[..|l.caption| + 2] == l.caption + ": "
    ensures l.unit != "" ==> |t| >= |l.unit| + 1 && t[|t| - |l.unit| - 1..] == " " + l.unit
  {
    var v := match l.value
      case Measured(q) => show(q)
      case Flag(b) => BoolText(b)
      case Text(s) => s
      case Elapsed(n) => human(n);
    l.caption + ": " + v + (if l.unit == "" then "" else " " + l.unit)
  }

  function Texts(lines: seq<Line>, show: Quantity -> string, human: nat -> string): seq<string> {
    seq(|lines|, i requires 0 <= i < |lines| => LineText(lines[i], show, human))
  }

  function Labels(lines: seq<Line>): seq<string> {
    seq(|lines|, i requires 0 <= i < |lines| => lines[i].caption)
  }

  function Values(lines: seq<Line>): seq<Value> {
    seq(|lines|, i requires 0 <= i < |lines| => lines[i].value)
  }

  /** The text of a line without a unit is its caption, `: ` and its value. */
  lemma UnitlessText(l: Line, show: Quantity -> string, human: nat -> string, v: string)
    requires l.unit == ""
    requires l.value.Text? ==> v == l.value.s
    requires l.value.Flag? ==> v == BoolText(l.value.b)
    requires l.value.Elapsed? ==> v == human(l.value.secs)
    requires l.value.Measured? ==> v == show(l.value.q)
    ensures LineText(l, show, human) == l.caption + ": " + v
  {
  }

  // ----- Properties of the templates -----

  /** Distinct query kinds issue distinct device queries. */
  lemma CallForInjective(k1: QueryKind, k2: QueryKind)
    ensures CallFor(k1) == CallFor(k2) <==> k1 == k2
  {
  }

  /** The tenth status line carries `bypass_or_transformer_active`, labelled by `offline` alone. */
  lemma StatusBypassLine(s: StatusInquiryResponse)
    ensures |RenderStatus(s)| == 15
    ensures RenderStatus(s)[9].value == Flag(s.upsStatus.bypassOrTransformerActive)
    ensures s.upsStatus.offline ==> RenderStatus(s)[9].caption == "Boost/buck converter active"
    ensures !s.upsStatus.offline ==> RenderStatus(s)[9].caption == "Bypass mode"
  {
  }

  /** The labels of the status template depend on `offline` and on no other field. */
  lemma StatusLabelsFollowOffline(a: StatusInquiryResponse, b: StatusInquiryResponse)
    ensures Labels(RenderStatus(a)) == Labels(RenderStatus(b)) <==> a.upsStatus.offline == b.upsStatus.offline
  {
    if Labels(RenderStatus(a)) == Labels(RenderStatus(b)) {
      assert Labels(RenderStatus(a))[9] == Labels(RenderStatus(b))[9];
    }
  }

  /** `battery_capacity_parameter` is the one status field that no line shows: two
      records print alike exactly when they agree on every other field. */
  lemma StatusRenderDropsOnlyCapacityParameter(a: StatusInquiryResponse, b: StatusInquiryResponse)
    ensures RenderStatus(a) == RenderStatus(b) <==>
      a.(batteryCapacityParameter := b.batteryCapacityParameter) == b
  {
  }

  /** The eight status flags, in the order the destructuring pattern lists them. */
  function FlagsInOrder(f: UpsStatus): seq<Value> {
    [ Flag(f.utilityFail), Flag(f.batteryLow), Flag(f.bypassOrTransformerActive),
      Flag(f.batteryAbnormal), Flag(f.offline), Flag(f.testInProgress),
      Flag(f.shutdownActive), Flag(f.beeperOn) ]
  }

  /** Seven readings come first (input frequency right after the two input voltages),
      then the eight flags in declaration order from utility fail to beeper on. */
  lemma StatusLineOrder(s: StatusInquiryResponse)
    ensures Values(RenderStatus(s)[..7]) ==
      [ Measured(s.inputVoltage), Measured(s.inputFaultVoltage), Measured(s.inputFrequency),
        Measured(s.outputVoltage), Measured(s.outputLoadPercentage),
        Measured(s.batteryCapacity), Measured(s.temperature) ]
    ensures Values(RenderStatus(s)[7..]) == FlagsInOrder(s.upsStatus)
    ensures Labels(RenderStatus(s)[7..]) ==
      [ "Utility fail", "Battery low", BypassLabel(s.upsStatus.offline), "Battery abnormal",
        "Offline", "Test in progress", "Shutdown active", "Beeper on" ]
  {
  }

  /** Every extra-power-info field is shown, so distinct records print differently. */
  lemma ExtraInfoRenderLossless(a: ExtraPowerInfoResponse, b: ExtraPowerInfoResponse)
    ensures RenderExtraInfo(a) == RenderExtraInfo(b) <==> a == b
  {
  }

  /** Rating prints voltage, current and frequency, then the battery voltage, although the
      destructuring pattern lists the battery voltage third; no field is lost. */
  lemma RatingLineOrder(a: UpsRating, b: UpsRating)
    ensures Values(RenderRating(a)) ==
      [ Measured(a.outputRatingVoltage), Measured(a.outputRatingCurrent),
        Measured(a.outputRatingFrequency), Measured(a.batteryVoltage) ]
    ensures Labels(RenderRating(a)) ==
      [ "Output rating voltage", "Output rating current", "Output rating frequency", "Battery voltage" ]
    ensures RenderRating(a) == RenderRating(b) <==> a == b
  {
  }

  /** Info prints exactly three lines: manufacturer, model and version, in that order. */
  lemma InfoText(r: UpsInformation, show: Quantity -> string, human: nat -> string)
    ensures Texts(RenderInfo(r), show, human) ==
      [ "Manufacturer: " + r.manufacturerName, "Model: " + r.model, "Version: " + r.version ]
  {
    var ls := RenderInfo(r);
    UnitlessText(ls[0], show, human, r.manufacturerName);
    UnitlessText(ls[1], show, human, r.model);
    UnitlessText(ls[2], show, human, r.version);
    assert "Manufacturer" + ": " == "Manufacturer: ";
    assert "Model" + ": " == "Model: ";
    assert "Version" + ": " == "Version: ";
  }

  /** Alarm prints exactly two lines, the inverter flag first. */
  lemma AlarmText(r: AlarmInquiryResponse, show: Quantity -> string, human: nat -> string)
    ensures Texts(RenderAlarm(r), show, human) ==
      [ "Inverter on: " + BoolText(r.inverterOn), "UPS alarm on: " + BoolText(r.upsAlarmOn) ]
  {
    var ls := RenderAlarm(r);
    UnitlessText(ls[0], show, human, BoolText(r.inverterOn));
    UnitlessText(ls[1], show, human, BoolText(r.upsAlarmOn));
    assert "Inverter on" + ": " == "Inverter on: ";
    assert "UPS alarm on" + ": " == "UPS alarm on: ";
  }

  function TotalNanos(d: Duration): nat {
    d.secs * 1_000_000_000 + d.nanos
  }

  /** Autonomy prints `Time left: ` and the runtime in words, truncated to whole seconds:
      the sub-second part never reaches the output. */
  lemma AutonomyText(a: AutonomyResponse, b: AutonomyResponse, show: Quantity -> string, human: nat -> string)
    ensures Texts(RenderAutonomy(a), show, human) == [ "Time left: " + human(TotalNanos(a.time) / 1_000_000_000) ]
    ensures a.time.secs == b.time.secs ==> RenderAutonomy(a) == RenderAutonomy(b)
  {
    DivByGiga(a.time.secs, a.time.nanos);
    UnitlessText(RenderAutonomy(a)[0], show, human, human(a.time.secs));
    assert "Time left" + ": " == "Time left: ";
  }

  lemma DivByGiga(s: nat, n: nat)
    requires n < 1_000_000_000
    ensures (s * 1_000_000_000 + n) / 1_000_000_000 == s
  {
  }
}
