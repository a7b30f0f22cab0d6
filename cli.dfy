/**
 * The command-line driver: the three checks on the addressing arguments, the split of
 * a `ffff:ffff` VID/PID string into two hex groups, the choice of one connect action,
 * and the dispatch of the subcommand on the opened connection.
 */
module Cli {
  import opened Base
  import opened Radix
  import opened Device
  import opened Query

  datatype InterfaceType = UsbHid | Serial

  /** `Commands`: a query, or the `setting` family, which has no subcommands. */
  datatype Command = QueryCommand(kind: QueryKind) | Setting

  /** The parsed arguments; the VID/PID string is kept as its UTF-8 bytes, because it is
      measured and sliced by byte. */
  datatype Args = Args(
    path: Option<string>,
    vidPid: Option<seq<byte>>,
    interfaceType: InterfaceType,
    command: Command)

  /** Why a run ends early: a failed argument check (a panic), a slice off a character
      boundary (a panic), a VID/PID group that does not parse, the unreachable `bail!`,
      or an error from the device library. */
  datatype CliError =
    | SerialByVidPid
    | AddressNotExclusive
    | BadVidPidLength
    | NotCharBoundary
    | BadVidPid(kind: IntErrorKind)
    | NoHidAddress
    | ConnectFailed(connectError: DeviceError)
    | QueryFailed(queryError: DeviceError)

  const COLON: byte := 0x3A
  const SLASH: byte := 0x2F

  // ----- Validation -----

  /** The three argument checks, in the order they run; the first to fail is reported. */
  function Validate(t: InterfaceType, path: Option<string>, vidPid: Option<seq<byte>>): (r: Option<CliError>)
    ensures r.None? <==>
      ((vidPid.None? || t != Serial) && path.Some? != vidPid.Some? && (vidPid.Some? ==> |vidPid.value| == 9))
    ensures r.Some? ==> r.value in {SerialByVidPid, AddressNotExclusive, BadVidPidLength}
  {
    if vidPid.Some? && t == Serial then Some(SerialByVidPid)
    else if vidPid.Some? != path.None? then Some(AddressNotExclusive)
    else if vidPid.Some? && |vidPid.value| != 9 then Some(BadVidPidLength)
    else None
  }

  // ----- VID/PID -----

  /** `str::is_char_boundary`: the ends, or a byte that is not a UTF-8 continuation byte. */
  predicate IsCharBoundary(s: seq<byte>, i: nat): (b: bool)
    requires i <= |s|
    ensures i < |s| && s[i] < 0x80 ==> b
    ensures 0 < i < |s| && 0x80 <= s[i] < 0xC0 ==> !b
    ensures i == |s| ==> b
  {
    i == 0 || i == |s| || !(0x80 <= s[i] < 0xC0)
  }

  /** Bytes 0..4 and 5..9 of a 9-byte string, each parsed as a base-16 `u16`, the vendor
      id first; byte 4 is looked at only to see that slicing there is allowed. */
  function SplitVidPid(s: seq<byte>): (r: Result<(u16, u16), CliError>)
    requires |s| == 9
    ensures r.Success? <==>
      && IsCharBoundary(s, 4) && IsCharBoundary(s, 5)
      && FromStrRadix16(s[0..4]).Success? && FromStrRadix16(s[5..9]).Success?
    ensures r.Success? ==> r.value == (HexValue(Digits(s[0..4])), HexValue(Digits(s[5..9])))
    ensures r.Failure? ==> r.error == NotCharBoundary || r.error.BadVidPid?
  {
    if !IsCharBoundary(s, 4) || !IsCharBoundary(s, 5) then Failure(NotCharBoundary)
    else
      match FromStrRadix16(s[0..4])
      case Failure(k) => Failure(BadVidPid(k))
      case Success(vid) =>
        match FromStrRadix16(s[5..9])
        case Failure(k) => Failure(BadVidPid(k))
        case Success(pid) => Success((vid, pid))
  }

  // ----- Connection resolution -----

  /** The connect action the arguments select, or the first error met on the way. */
  function Resolve(t: InterfaceType, path: Option<string>, vidPid: Option<seq<byte>>): (r: Result<ConnectAction, CliError>)
    ensures r.Success? ==> (path.Some? != vidPid.Some?)
    ensures r != Failure(NoHidAddress)
    ensures r.Success? && r.value.SerialConnect? <==> t == Serial && path.Some? && vidPid.None?
    ensures r.Success? && r.value.SerialConnect? ==> r.value.path == path.value
    ensures r.Success? && r.value.HidConnectWithPath? <==> t == UsbHid && path.Some? && vidPid.None?
    ensures r.Success? && r.value.HidConnectWithPath? ==> r.value.devicePath == path.value
    ensures r.Success? && r.value.HidConnectWithVidPid? ==> t == UsbHid && path.None? && vidPid.Some?
  {
    match Validate(t, path, vidPid)
    case Some(e) => Failure(e)
    case None =>
      match t
      case Serial => Success(SerialConnect(path.value))
      case UsbHid =>
        if vidPid.Some? then
          match SplitVidPid(vidPid.value)
          case Failure(e) => Failure(e)
          case Success(ids) => Success(HidConnectWithVidPid(ids.0, ids.1))
        else if path.Some? then Success(HidConnectWithPath(path.value))
        else Failure(NoHidAddress)
  }

  // ----- The whole run -----

  /** What a run does to the outside world, in order. */
  datatype Event = Connect(action: ConnectAction) | Issue(call: Call) | LogUnsupported

  /** A run: its events, the lines it prints, and how `main` returns. */
  datatype RunOutcome = RunOutcome(events: seq<Event>, output: seq<Line>, exit: Result<(), CliError>)

  /** `main` after argument parsing: resolve, open the connection through `connect`, then
      dispatch the subcommand on it. */
  function Run(args: Args, connect: ConnectAction -> Result<Connection, DeviceError>): (r: RunOutcome)
    ensures Resolve(args.interfaceType, args.path, args.vidPid).Failure? ==>
      r == RunOutcome([], [], Failure(Resolve(args.interfaceType, args.path, args.vidPid).error))
    ensures Resolve(args.interfaceType, args.path, args.vidPid).Success? ==>
      var a := Resolve(args.interfaceType, args.path, args.vidPid).value;
      && |r.events| >= 1 && r.events[0] == Connect(a)
      && (connect(a).Failure? ==> r == RunOutcome([Connect(a)], [], Failure(ConnectFailed(connect(a).error))))
      && (connect(a).Success? && args.command == Setting ==> r == RunOutcome([Connect(a), LogUnsupported], [], Success(())))
      && (connect(a).Success? && args.command.QueryCommand? ==>
            var q := PrintFormattedQuery(connect(a).value, args.command.kind);
            r.events == [Connect(a), Issue(CallFor(args.command.kind))] && r.output == q.output &&
            r.exit == (if q.result.Success? then Success(()) else Failure(QueryFailed(q.result.error))))
    ensures r.exit.Failure? && r.exit.error.QueryFailed? ==> r.output == []
  {
    match Resolve(args.interfaceType, args.path, args.vidPid)
    case Failure(e) => RunOutcome([], [], Failure(e))
    case Success(a) =>
      match connect(a)
      case Failure(e) => RunOutcome([Connect(a)], [], Failure(ConnectFailed(e)))
      case Success(dev) =>
        match args.command
        case Setting => RunOutcome([Connect(a), LogUnsupported], [], Success(()))
        case QueryCommand(kind) =>
          var q := PrintFormattedQuery(dev, kind);
          var issued := seq(|q.calls|, i requires 0 <= i < |q.calls| => Issue(q.calls[i]));
          match q.result
          case Failure(e) => RunOutcome([Connect(a)] + issued, q.output, Failure(QueryFailed(e)))
          case Success(_) => RunOutcome([Connect(a)] + issued, q.output, Success(()))
  }

  // ----- Validation properties -----

  /** A serial port is never addressed by VID/PID: whatever else is given, that is the
      error, before any connection is tried. */
  lemma SerialWithVidPidRejected(path: Option<string>, v: seq<byte>)
    ensures Resolve(Serial, path, Some(v)) == Failure(SerialByVidPid)
  {
  }

  /** Exactly one address must be given: both or neither is an error, and past the serial
      check it is the ambiguity error. */
  lemma ExactlyOneAddress(t: InterfaceType, path: Option<string>, vidPid: Option<seq<byte>>)
    ensures path.Some? == vidPid.Some? ==> Resolve(t, path, vidPid).Failure?
    ensures path.Some? == vidPid.Some? && !(vidPid.Some? && t == Serial) ==>
      Resolve(t, path, vidPid) == Failure(AddressNotExclusive)
  {
  }

  /** A lone VID/PID of any byte length but 9 is refused; without a VID/PID the length check
      never fires. */
  lemma VidPidLengthRule(t: InterfaceType, path: Option<string>, vidPid: Option<seq<byte>>)
    ensures vidPid.Some? && |vidPid.value| != 9 && path.None? && t == UsbHid ==>
      Resolve(t, path, vidPid) == Failure(BadVidPidLength)
    ensures vidPid.None? ==> Validate(t, path, vidPid) != Some(BadVidPidLength)
    ensures Resolve(t, path, vidPid).Success? && vidPid.Some? ==> |vidPid.value| == 9
  {
  }

  /** The checks run in order: serial before ambiguity before length. */
  lemma CheckOrder(p: string, v: seq<byte>)
    ensures Resolve(Serial, Some(p), Some(v)) == Failure(SerialByVidPid)
    ensures |v| != 9 ==> Resolve(UsbHid, Some(p), Some(v)) == Failure(AddressNotExclusive)
    ensures |v| != 9 ==> Resolve(Serial, None, Some(v)) == Failure(SerialByVidPid)
  {
  }

  // ----- VID/PID properties -----

  /** A well-formed 9-byte VID/PID selects the device whose vendor id is the hex value of
      bytes 0..4 and whose product id is the hex value of bytes 5..9. */
  lemma VidPidParsed(s: seq<byte>)
    requires |s| == 9 && IsCharBoundary(s, 4)
    requires AllHex(s[0..4]) && AllHex(s[5..9])
    ensures HexValue(s[0..4]) < 0x1_0000 && HexValue(s[5..9]) < 0x1_0000
    ensures Resolve(UsbHid, None, Some(s)) == Success(HidConnectWithVidPid(HexValue(s[0..4]), HexValue(s[5..9])))
  {
    assert Pow16(4) == 0x1_0000;
    assert s[0] != PLUS && s[5] != PLUS;
    assert Digits(s[0..4]) == s[0..4] && Digits(s[5..9]) == s[5..9];
  }

  /** Every 9-byte VID/PID that can be sliced resolves to a HID connect to `(v, p)` exactly
      when its two groups parse to `v` and `p`. */
  lemma VidPidSuccess(s: seq<byte>, v: u16, p: u16)
    requires |s| == 9 && IsCharBoundary(s, 4) && IsCharBoundary(s, 5)
    ensures Resolve(UsbHid, None, Some(s)) == Success(HidConnectWithVidPid(v, p)) <==>
      FromStrRadix16(s[0..4]) == Success(v) && FromStrRadix16(s[5..9]) == Success(p)
  {
  }

  /** Byte 4 is not parsed: any two delimiters at which the string may be sliced (`:`,
      `/` or any other) give the same outcome. */
  lemma DelimiterIgnored(s: seq<byte>, d: byte)
    requires |s| == 9 && IsCharBoundary(s, 4) && !(0x80 <= d < 0xC0)
    ensures Resolve(UsbHid, None, Some(s[4 := d])) == Resolve(UsbHid, None, Some(s))
  {
    var s' := s[4 := d];
    assert s'[0..4] == s[0..4] && s'[5..9] == s[5..9];
    assert IsCharBoundary(s', 5) == IsCharBoundary(s, 5);
  }

  lemma ColonOrSlash(s: seq<byte>)
    requires |s| == 9
    ensures Resolve(UsbHid, None, Some(s[4 := COLON])) == Resolve(UsbHid, None, Some(s[4 := SLASH]))
  {
    DelimiterIgnored(s[4 := SLASH], COLON);
    assert s[4 := SLASH][4 := COLON] == s[4 := COLON];
  }

  /** A group holding a byte that is not a hex digit (a leading `+` aside) is a parse
      error, so no connection is tried. */
  lemma NonHexRejected(s: seq<byte>, connect: ConnectAction -> Result<Connection, DeviceError>, cmd: Command)
    requires |s| == 9 && IsCharBoundary(s, 4) && IsCharBoundary(s, 5)
    requires !AllHex(Digits(s[0..4])) || !AllHex(Digits(s[5..9]))
    ensures Resolve(UsbHid, None, Some(s)) == Failure(BadVidPid(InvalidDigit))
    ensures Run(Args(None, Some(s), UsbHid, cmd), connect).events == []
  {
    Pow16AtMostFour(|Digits(s[0..4])|);
    Pow16AtMostFour(|Digits(s[5..9])|);
  }

  /** Slicing in the middle of a multi-byte character is refused before any parse. */
  lemma SplitOffBoundaryRejected(s: seq<byte>)
    requires |s| == 9 && (0x80 <= s[4] < 0xC0 || 0x80 <= s[5] < 0xC0)
    ensures Resolve(UsbHid, None, Some(s)) == Failure(NotCharBoundary)
  {
  }

  /** The documented `ffff:ffff` form: two ids written as four hex digits each around any
      delimiter byte come back as the same two ids. */
  lemma VidPidRoundTrip(vid: u16, pid: u16, d: byte)
    requires !(0x80 <= d < 0xC0)
    ensures Resolve(UsbHid, None, Some(Hex4(vid) + [d] + Hex4(pid))) == Success(HidConnectWithVidPid(vid, pid))
  {
    var s := Hex4(vid) + [d] + Hex4(pid);
    assert s[0..4] == Hex4(vid) && s[5..9] == Hex4(pid);
    Hex4RoundTrip(vid);
    Hex4RoundTrip(pid);
    assert IsHexDigit(s[5]);
  }

  /** `from_str_radix` takes a leading `+`, so `+fff:0001` passes as vendor 0x0fff. */
  lemma PlusSignAccepted()
    ensures Resolve(UsbHid, None, Some([PLUS, 0x66, 0x66, 0x66, COLON, 0x30, 0x30, 0x30, 0x31])) ==
      Success(HidConnectWithVidPid(0xFFF, 1))
  {
    var s: seq<byte> := [PLUS, 0x66, 0x66, 0x66, COLON, 0x30, 0x30, 0x30, 0x31];
    var g1, g2 := s[0..4], s[5..9];
    assert Digits(g1) == [0x66, 0x66, 0x66] && Digits(g2) == g2;
    assert HexValue([0x66, 0x66, 0x66]) == 0xFFF by {
      assert [0x66, 0x66, 0x66][..2] == [0x66, 0x66];
      assert [0x66, 0x66][..1] == [0x66];
      assert [0x66][..0] == [];
    }
    assert HexValue(g2) == 1 by {
      assert g2[..3] == [0x30, 0x30, 0x30];
      assert [0x30, 0x30, 0x30][..2] == [0x30, 0x30];
      assert [0x30, 0x30][..1] == [0x30];
      assert [0x30][..0] == [];
    }
  }

  // ----- Run properties -----

  /** A `setting` command still opens the connection first but issues no device query and
      prints nothing. */
  lemma SettingIssuesNoQuery(args: Args, connect: ConnectAction -> Result<Connection, DeviceError>)
    requires args.command == Setting
    ensures var r := Run(args, connect);
      && r.output == []
      && (forall i :: 0 <= i < |r.events| ==> !r.events[i].Issue?)
      && (Resolve(args.interfaceType, args.path, args.vidPid).Success? ==>
            r.events[0] == Connect(Resolve(args.interfaceType, args.path, args.vidPid).value))
  {
  }

  /** A run issues at most one device query, only after a successful connect, and prints
      nothing unless that query succeeded. */
  lemma AtMostOneQuery(args: Args, connect: ConnectAction -> Result<Connection, DeviceError>)
    ensures var r := Run(args, connect);
      && |r.events| <= 2
      && (forall i :: 0 <= i < |r.events| && r.events[i].Issue? ==> i == 1 && r.events[0].Connect?)
      && (r.output != [] ==> r.exit.Success? && args.command.QueryCommand?)
  {
  }

  // ----- Scenarios -----

  /** `-t usb-hid -v 1234:5678 query info` against a device reporting AlphaOutback, X1000,
      1.2 prints exactly three lines. */
  lemma InfoScenario(connect: ConnectAction -> Result<Connection, DeviceError>, dev: Connection,
                     show: Quantity -> string, human: nat -> string)
    requires connect(HidConnectWithVidPid(0x1234, 0x5678)) == Success(dev)
    requires dev.info == Success(UpsInformation("AlphaOutback", "X1000", "1.2"))
    ensures var r := Run(Args(None, Some([0x31, 0x32, 0x33, 0x34, COLON, 0x35, 0x36, 0x37, 0x38]), UsbHid, QueryCommand(Info)), connect);
      && r.exit == Success(())
      && r.events == [Connect(HidConnectWithVidPid(0x1234, 0x5678)), Issue(QueryUpsInfo)]
      && Texts(r.output, show, human) == ["Manufacturer: AlphaOutback", "Model: X1000", "Version: 1.2"]
  {
    var info := UpsInformation("AlphaOutback", "X1000", "1.2");
    InfoScenarioRun(connect, dev);
    InfoText(info, show, human);
    assert "Manufacturer: " + "AlphaOutback" == "Manufacturer: AlphaOutback";
    assert "Model: " + "X1000" == "Model: X1000";
    assert "Version: " + "1.2" == "Version: 1.2";
  }

  lemma InfoScenarioRun(connect: ConnectAction -> Result<Connection, DeviceError>, dev: Connection)
    requires connect(HidConnectWithVidPid(0x1234, 0x5678)) == Success(dev)
    requires dev.info == Success(UpsInformation("AlphaOutback", "X1000", "1.2"))
    ensures Run(Args(None, Some([0x31, 0x32, 0x33, 0x34, COLON, 0x35, 0x36, 0x37, 0x38]), UsbHid, QueryCommand(Info)), connect) ==
      RunOutcome([Connect(HidConnectWithVidPid(0x1234, 0x5678)), Issue(QueryUpsInfo)],
                 RenderInfo(UpsInformation("AlphaOutback", "X1000", "1.2")), Success(()))
  {
    ScenarioVidPid();
    assert PrintFormattedQuery(dev, Info) == QueryRun([QueryUpsInfo], RenderInfo(dev.info.value), Success(()));
  }

  lemma ScenarioVidPid()
    ensures Resolve(UsbHid, None, Some([0x31, 0x32, 0x33, 0x34, COLON, 0x35, 0x36, 0x37, 0x38])) ==
      Success(HidConnectWithVidPid(0x1234, 0x5678))
  {
    assert Hex4(0x1234) == [0x31, 0x32, 0x33, 0x34];
    assert Hex4(0x5678) == [0x35, 0x36, 0x37, 0x38];
    assert [0x31, 0x32, 0x33, 0x34, COLON, 0x35, 0x36, 0x37, 0x38] == Hex4(0x1234) + [COLON] + Hex4(0x5678);
    VidPidRoundTrip(0x1234, 0x5678, COLON);
  }

  /** `-t serial -p /dev/ttyUSB0 query status` when opening the port fails: the error is
      returned, no query is issued and nothing is printed. */
  lemma SerialOpenFailureScenario(connect: ConnectAction -> Result<Connection, DeviceError>, e: DeviceError)
    requires connect(SerialConnect("/dev/ttyUSB0")) == Failure(e)
    ensures Run(Args(Some("/dev/ttyUSB0"), None, Serial, QueryCommand(Status)), connect) ==
      RunOutcome([Connect(SerialConnect("/dev/ttyUSB0"))], [], Failure(ConnectFailed(e)))
  {
  }
}
