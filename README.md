# alphamon-cli: connection resolution and query rendering

This project models the two deterministic parts of a command-line tool that reads
telemetry from an Alpha Outback UPS speaking the CPlus protocol over a serial port or
USB HID.

- **Connection resolution** (`Cli`, `Radix`). The tool takes an interface type
  (`usb-hid` or `serial`), an optional device path and an optional VID/PID string. It
  runs three argument checks in a fixed order:
  1. no VID/PID for a serial port;
  2. exactly one of path and VID/PID;
  3. a VID/PID of exactly 9 bytes.

  It then picks exactly one connect action: open a serial port by path, open a USB HID
  device by vendor/product id, or open a USB HID device by device-node path. The VID/PID
  string is handled as UTF-8 bytes. Bytes 0..4 and 5..9 are parsed with Rust's
  `u16::from_str_radix(_, 16)`, which `Radix` models byte by byte. Byte 4 is never
  parsed.
- **Query dispatch** (`Query`). Each of the six `query` subcommands issues the one
  matching device query. If the device returns an error, it is handed back before any
  line is printed. Otherwise the record is printed through a fixed template of
  labelled lines. In the status template, the label of the
  `bypass_or_transformer_active` line depends on the `offline` flag.
- **The external device library** (`Device`). Its records, errors and connect
  operations are modelled as values: a `Connection` is the table of answers its six
  queries give. `Cli.Run` gets the connect operation as a function parameter and
  returns the connect action and the queries as a list of events. It does not perform
  them.

The code does not match a strict reading of the documented `ffff:ffff` format:
- The delimiter byte is never checked, so `1234a5678` is accepted too.
- `from_str_radix` accepts a leading `+` in a group, so `+fff:0001` selects vendor
  0x0fff (`Cli.PlusSignAccepted`).
- The length check counts bytes, not characters.

The model follows the code on all three points.

## Model

| member | source | states |
|---|---|---|
| Radix.HexValue | src/main.rs:100 | the positional value of a hex digit string is below 16 to the power of its length |
| Radix.FromStrRadix16 | src/main.rs:100 | `Empty` exactly for the empty string; success exactly when the digits after an optional `+` are all hex and the value fits in a `u16`, and then the value is their positional value; a bad digit in at most four digits is `InvalidDigit` |
| Radix.Accumulate | src/main.rs:100 | the digit loop never reports `Empty`; a success only comes from all-hex digits, and its value is at least the starting accumulator |
| Radix.AccumulateCorrect | src/main.rs:100 | the left-to-right digit loop succeeds exactly when all digits are hex and the total fits; it then yields the accumulator scaled plus the digits' value; it never reports `Empty` |
| Radix.HexValueCons | src/main.rs:100 | splitting off the most significant digit scales it by 16 to the power of the remaining length |
| Radix.Hex4RoundTrip | src/main.rs:90 | any `u16` written as four hex digits parses back to itself |
| Query.PrintFormattedQuery | src/query.rs:13-147 | issues exactly the one device query the kind names; fails exactly when the device returns an error, and then returns that error and prints nothing; otherwise it prints the response's whole template |
| Query.RenderStatus | src/query.rs:47-69 | the status template has fifteen lines: seven readings, each with a unit, then eight flags without one |
| Query.RenderExtraInfo | src/query.rs:81-92 | the extra-info template has six reading lines, and only the last one, the error code, has no unit |
| Query.RenderAutonomy | src/query.rs:97 | the autonomy template is one line whose value is the runtime in nanoseconds divided down to whole seconds |
| Query.RenderAlarm | src/query.rs:105-110 | the alarm template is two flag lines without a unit |
| Query.RenderRating | src/query.rs:120-128 | the rating template is four reading lines, each with a unit |
| Query.RenderInfo | src/query.rs:137-143 | the info template is three text lines without a unit |
| Query.LineText | src/query.rs:47-143 | a printed line starts with its label and `: `, and ends with a space and its unit when it has one |
| Query.CallForInjective | src/query.rs:17-145 | distinct query kinds issue distinct device queries |
| Query.StatusBypassLine | src/query.rs:41-62 | the tenth of the fifteen status lines shows `bypass_or_transformer_active`; its label is "Boost/buck converter active" when offline and "Bypass mode" otherwise |
| Query.StatusLabelsFollowOffline | src/query.rs:41-62 | two status records get the same labels if and only if they agree on `offline`, whatever their other fields |
| Query.StatusRenderDropsOnlyCapacityParameter | src/query.rs:19-69 | two status records print the same lines if and only if they differ at most in `battery_capacity_parameter` |
| Query.StatusLineOrder | src/query.rs:47-69 | the seven readings come first, with input frequency third; the eight flags follow, from utility fail to beeper on, in the order the destructuring pattern lists them, with their fixed labels |
| Query.ExtraInfoRenderLossless | src/query.rs:71-92 | two extra-power-info records print the same lines if and only if they are equal |
| Query.RatingLineOrder | src/query.rs:112-128 | rating prints output voltage, current and frequency, then battery voltage, with those labels; two ratings print the same lines if and only if they are equal |
| Query.InfoText | src/query.rs:130-143 | info prints exactly `Manufacturer: <name>`, `Model: <model>`, `Version: <version>`, in that order |
| Query.AlarmText | src/query.rs:99-110 | alarm prints exactly `Inverter on: <bool>` then `UPS alarm on: <bool>` |
| Query.AutonomyText | src/query.rs:94-97 | autonomy prints `Time left: ` followed by the runtime in words, with the runtime truncated to whole seconds; two runtimes with the same whole seconds print the same line |
| Cli.Validate | src/main.rs:77-91 | the three checks pass exactly when no VID/PID is used with a serial port, exactly one address is given, and a VID/PID has 9 bytes; a failure is one of the three check errors |
| Cli.IsCharBoundary | src/main.rs:99 | an ASCII byte and the end of the string are slicing points; a UTF-8 continuation byte inside the string is not |
| Cli.SplitVidPid | src/main.rs:99-100 | the split succeeds exactly when bytes 4 and 5 are slicing points and both groups parse; the ids are then the hex values of the groups' digits after an optional `+`; a failure is the slicing panic or a parse error |
| Cli.Resolve | src/main.rs:77-108 | a successful resolution had exactly one address; the `bail!` error never occurs; it gives a serial connect to the path exactly for serial with a path and no VID/PID; it gives a HID connect to the path exactly for USB HID with a path and no VID/PID; a VID/PID connect happens only for USB HID with a VID/PID and no path |
| Cli.Run | src/main.rs:93-119 | a resolution error ends the run with no event and no output; otherwise the run first connects with the resolved action; a connect error ends it there; `setting` only logs; a query issues exactly its one device query and prints what the dispatch prints; it returns `Ok(())` when the dispatch succeeds and otherwise `QueryFailed` carrying the device's error unchanged |
| Cli.SerialWithVidPidRejected | src/main.rs:77-80 | a serial port with a VID/PID is the serial error, whatever path is given |
| Cli.ExactlyOneAddress | src/main.rs:82-86 | both addresses or neither is always an error, and the ambiguity error once the serial check passes |
| Cli.VidPidLengthRule | src/main.rs:88-91 | a lone VID/PID of byte length other than 9 on USB HID is the length error; without a VID/PID the length check never fires; success implies length 9 |
| Cli.CheckOrder | src/main.rs:77-91 | serial with path and VID/PID reports the serial error; a bad-length VID/PID with a path on USB HID reports the ambiguity error; a lone bad-length VID/PID on serial reports the serial error |
| Cli.VidPidParsed | src/main.rs:98-101 | a 9-byte VID/PID whose two groups are hex digits selects the device with vendor id the hex value of bytes 0..4 and product id the hex value of bytes 5..9 |
| Cli.VidPidSuccess | src/main.rs:98-101 | a sliceable 9-byte VID/PID with no path on USB HID resolves to a HID connect to `(v, p)` exactly when bytes 0..4 parse to `v` and bytes 5..9 parse to `p` |
| Cli.DelimiterIgnored | src/main.rs:99 | replacing byte 4 by any byte where slicing is allowed does not change the outcome |
| Cli.ColonOrSlash | src/main.rs:88-99 | `:` and `/` as delimiter give the same outcome |
| Cli.NonHexRejected | src/main.rs:100 | a group with a non-hex byte (a leading `+` aside) is a parse error and the run makes no connection attempt |
| Cli.SplitOffBoundaryRejected | src/main.rs:99 | a VID/PID whose byte 4 or 5 is a UTF-8 continuation byte is refused, because slicing there panics |
| Cli.VidPidRoundTrip | src/main.rs:88-101 | two ids written as four hex digits each around any sliceable delimiter resolve to a HID connect to those two ids |
| Cli.PlusSignAccepted | src/main.rs:100 | `+fff:0001` resolves to vendor 0x0fff, product 1 |
| Cli.SettingIssuesNoQuery | src/main.rs:93-117 | `setting` still connects first, but issues no device query and prints nothing |
| Cli.AtMostOneQuery | src/main.rs:93-117 | a run has at most two events; a device query is only ever the second event, after a connect; output appears only on a successful query run |
| Cli.InfoScenario | src/main.rs:97-112 | `-t usb-hid -v 1234:5678 query info` on a device reporting AlphaOutback, X1000, 1.2 connects to 0x1234/0x5678, issues the info query and prints exactly `Manufacturer: AlphaOutback`, `Model: X1000`, `Version: 1.2` |
| Cli.SerialOpenFailureScenario | src/main.rs:93-96 | `-t serial -p /dev/ttyUSB0 query status` whose port fails to open returns the connect error after that single connect attempt, with no query and no output |

## Left out

- Device I/O: the three connect operations and the six query operations belong to the external device library. They appear as a `connect` function parameter and a `Connection` table of answers. The device handle is `&mut`, but any state change inside it is not modelled.
- Argument parsing (clap), logger set-up, the tokio runtime and the text of log, panic and error messages are not modelled. Panics from the three asserts and from slicing are modelled as `CliError` values, like the errors `?` returns. Exit codes are not modelled.
- Number formatting: the library's numeric field types appear as the abstract `Quantity`. Printed text takes the `Display` of those types as a parameter `show`.
- Duration phrasing: the humanize-duration library appears as a parameter `human` applied to whole seconds. Properties of its wording are not modelled, such as a 3661-second runtime mentioning hours and minutes.
- Whitespace: `printdoc!` indentation, blank lines between groups and the trailing newline are not modelled. Output is a sequence of labelled lines. The autonomy line has no trailing newline in the source.
- UTF-8 validity of the VID/PID string is not modelled: any bytes are accepted. Slicing is refused exactly where `is_char_boundary` would be false for such bytes.
- The `setting` family has no subcommands in the source, so the parser can never produce it. The model still includes it as `Command.Setting`, to state what that branch does.
- Radix.FromStrRadix16: which error kind a string of more than four digits reports when it both overflows and holds a bad digit is computed but not stated. The tool only passes four-byte groups.
