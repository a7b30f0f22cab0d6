/**
 * The surface of the external CPlus device library that the command-line tool uses:
 * the records its six queries return, the errors they report, the three ways of
 * opening a connection, and an open connection seen as the answers it gives.
 */
module Device {
  import opened Base

  /** A numeric reading (voltage, current, frequency, percentage, temperature,
      wattage, error code) of a type the library defines; its `Display` is not modelled. */
  type Quantity(==)

  type Nanos = n: nat | n < 1_000_000_000

  /** The remaining-runtime duration of an autonomy reply: whole seconds and a
      sub-second part, as a duration type that can be truncated to whole seconds. */
  datatype Duration = Duration(secs: nat, nanos: Nanos)

  /** The eight status flags of a status inquiry, in declaration order. */
  datatype UpsStatus = UpsStatus(
    utilityFail: bool,
    batteryLow: bool,
    bypassOrTransformerActive: bool,
    batteryAbnormal: bool,
    offline: bool,
    testInProgress: bool,
    shutdownActive: bool,
    beeperOn: bool)

  datatype StatusInquiryResponse = StatusInquiryResponse(
    inputVoltage: Quantity,
    inputFaultVoltage: Quantity,
    outputVoltage: Quantity,
    outputLoadPercentage: Quantity,
    inputFrequency: Quantity,
    batteryCapacity: Quantity,
    batteryCapacityParameter: Quantity,
    temperature: Quantity,
    upsStatus: UpsStatus)

  datatype ExtraPowerInfoResponse = ExtraPowerInfoResponse(
    upsOutputFreq: Quantity,
    batteryVoltage: Quantity,
    batteryCutVoltage: Quantity,
    upsWattage: Quantity,
    errorCode: Quantity,
    loadCurrent: Quantity)

  datatype AutonomyResponse = AutonomyResponse(time: Duration)

  datatype AlarmInquiryResponse = AlarmInquiryResponse(inverterOn: bool, upsAlarmOn: bool)

  datatype UpsRating = UpsRating(
    outputRatingVoltage: Quantity,
    outputRatingCurrent: Quantity,
    batteryVoltage: Quantity,
    outputRatingFrequency: Quantity)

  datatype UpsInformation = UpsInformation(manufacturerName: string, model: string, version: string)

  /** A transport or protocol error, reported verbatim. */
  datatype DeviceError = DeviceError(message: string)

  /** The six query operations of the device interface. */
  datatype Call =
    | QueryUpsStatus
    | QueryExtraPowerInfo
    | QueryUpsAutonomy
    | QueryAlarm
    | QueryUpsRating
    | QueryUpsInfo

  /** An open connection, given by the answer each query operation returns on it. */
  datatype Connection = Connection(
    status: Result<StatusInquiryResponse, DeviceError>,
    extraPowerInfo: Result<ExtraPowerInfoResponse, DeviceError>,
    autonomy: Result<AutonomyResponse, DeviceError>,
    alarm: Result<AlarmInquiryResponse, DeviceError>,
    rating: Result<UpsRating, DeviceError>,
    info: Result<UpsInformation, DeviceError>)

  /** The three ways of opening a connection: a serial port by path, a USB HID device
      by vendor and product id, a USB HID device by device-node path. */
  datatype ConnectAction =
    | SerialConnect(path: string)
    | HidConnectWithVidPid(vid: u16, pid: u16)
    | HidConnectWithPath(devicePath: string)
}
