/**
 * The HTTP client for one Shelly device (internal/client/client.go).
 *
 * The device answers JSON over HTTP; the model never performs a request.
 * What one request produced is an input value, an Exchange: the request could
 * not be built, the transport failed (this includes an expired deadline or a
 * cancelled context), or the device answered with a status code and a body
 * that either decoded into the expected record or did not.
 */
module ShellyClient {
  import opened Wrappers
  import Configuration

  // ---------------------------------------------------------------------------
  // The records the device sends

  datatype StableUpdate = StableUpdate(version: string)

  datatype AvailableUpdates = AvailableUpdates(stable: StableUpdate)

  datatype SysInfo = SysInfo(
    mac: string,
    restartRequired: bool,
    time: string,
    unixtime: int,
    lastSyncTs: int,
    uptime: int,
    ramSize: int,
    ramFree: int,
    ramMinFree: int,
    fsSize: int,
    fsFree: int,
    cfgRev: int,
    kvsRev: int,
    scheduleRev: int,
    webhookRev: int,
    btrelayRev: int,
    availableUpdates: AvailableUpdates,
    resetReason: int)

  datatype WifiInfo = WifiInfo(staIP: string, status: string, ssid: string, rssi: int)

  datatype CloudInfo = CloudInfo(connected: bool)

  datatype MqttInfo = MqttInfo(connected: bool)

  datatype TemperatureInfo = TemperatureInfo(id: int, tC: real, tF: real)

  /** The three-phase energy meter "em:0"; the neutral current may be absent (null). */
  datatype EnergyMeter = EnergyMeter(
    id: int,
    aCurrent: real, aVoltage: real, aActPower: real, aAprtPower: real, aPf: real, aFreq: real,
    bCurrent: real, bVoltage: real, bActPower: real, bAprtPower: real, bPf: real, bFreq: real,
    cCurrent: real, cVoltage: real, cActPower: real, cAprtPower: real, cPf: real, cFreq: real,
    nCurrent: Option<real>,
    totalCurrent: real,
    totalActPower: real,
    totalAprtPower: real)

  /** The energy totals "emdata:0". */
  datatype EnergyData = EnergyData(
    id: int,
    aTotalActEnergy: real, aTotalActRetEnergy: real,
    bTotalActEnergy: real, bTotalActRetEnergy: real,
    cTotalActEnergy: real, cTotalActRetEnergy: real,
    totalAct: real,
    totalActRet: real)

  datatype Relay = Relay(
    isOn: bool,
    hasTimer: bool,
    timerStarted: int,
    timerDuration: int,
    timerRemaining: int,
    overpower: bool,
    isValid: bool,
    source: string)

  datatype Meter = Meter(
    power: real,
    overpower: real,
    isValid: bool,
    timestamp: int,
    counters: seq<real>,
    total: int)

  datatype MetersResponse = MetersResponse(
    power: real,
    overpower: real,
    isValid: bool,
    timestamp: int,
    counters: seq<real>,
    total: int)

  /** The zero value of MetersResponse. */
  const NoMeters := MetersResponse(0.0, 0.0, false, 0, [], 0)

  /** The answer of Shelly.GetStatus. The relay and meter lists are read by the
      metrics collector although the Go struct does not declare them; they are
      carried here so that the collector's reads have something to read. */
  datatype StatusResponse = StatusResponse(
    sys: SysInfo,
    wifi: WifiInfo,
    cloud: CloudInfo,
    mqtt: MqttInfo,
    temperature: TemperatureInfo,
    em: EnergyMeter,
    emData: EnergyData,
    mac: string,
    serial: string,
    hasUpdate: bool,
    ramSize: int,
    ramFree: int,
    fsSize: int,
    fsFree: int,
    uptime: int,
    relays: seq<Relay>,
    meters: seq<Meter>)

  // ---------------------------------------------------------------------------
  // One request and what came of it

  datatype Body<T> = Decoded(value: T) | Undecodable

  datatype Exchange<T> =
    | RequestRejected
    | TransportFailed
    | Answered(statusCode: int, body: Body<T>)

  datatype ClientError =
    | RequestCreationFailed
    | ExecutionFailed
    | UnexpectedStatus(code: int)
    | DecodeFailed

  /** The URLs actually requested, and the outcome returned to the caller. */
  datatype Call<T> = Call(sent: seq<string>, result: Result<T, ClientError>)

  const StatusOK := 200

  // ---------------------------------------------------------------------------
  // The client

  datatype TlsClientConfig = TlsClientConfig(insecureSkipVerify: bool)

  /** The settings of the underlying HTTP client: the request timeout and,
      when TLS is enabled, the TLS settings of its transport. */
  datatype HttpClient = HttpClient(timeout: int, tls: Option<TlsClientConfig>)

  datatype Client = Client(http: HttpClient, baseURL: string) {
    function BaseURL(): string {
      baseURL
    }
  }

  /** New: the timeout is the scrape timeout; a TLS transport is installed exactly
      when TLS is enabled, with the configured verification setting. */
  function New(baseURL: string, cfg: Configuration.Config): (c: Client)
    ensures c.BaseURL() == baseURL
    ensures c.http.timeout == cfg.scrapeTimeout
    ensures c.http.tls.Some? <==> cfg.tls.enabled
    ensures c.http.tls.Some? ==> c.http.tls.value.insecureSkipVerify == cfg.tls.insecureSkipVerify
  {
    var tls := if cfg.tls.enabled then Some(TlsClientConfig(cfg.tls.insecureSkipVerify)) else None;
    Client(HttpClient(cfg.scrapeTimeout, tls), baseURL)
  }

  function StatusURL(baseURL: string): string {
    baseURL + "/rpc/Shelly.GetStatus"
  }

  function MetersURL(baseURL: string): string {
    baseURL + "/meter/0"
  }

  /** The request goes out unless it could not be built; there is never a second one. */
  function Sent<T>(url: string, ex: Exchange<T>): (sent: seq<string>)
    ensures |sent| <= 1
    ensures sent == [] <==> ex.RequestRejected?
    ensures forall u :: u in sent ==> u == url
  {
    if ex.RequestRejected? then [] else [url]
  }

  /** GetStatus: succeeds only on a 200 answer whose body decodes, and then
      returns the decoded record as it is. */
  function GetStatus(c: Client, ex: Exchange<StatusResponse>): (call: Call<StatusResponse>)
    ensures call.sent == Sent(StatusURL(c.BaseURL()), ex)
    ensures call.result.Success? <==> ex.Answered? && ex.statusCode == StatusOK && ex.body.Decoded?
  {
    var sent := Sent(StatusURL(c.baseURL), ex);
    match ex
    case RequestRejected => Call(sent, Failure(RequestCreationFailed))
    case TransportFailed => Call(sent, Failure(ExecutionFailed))
    case Answered(code, body) =>
      if code != StatusOK then Call(sent, Failure(UnexpectedStatus(code)))
      else if body.Undecodable? then Call(sent, Failure(DecodeFailed))
      else Call(sent, Success(body.value))
  }

  /** GetMeters: the same error paths up to the status check; a 200 answer gives
      the zero MetersResponse whatever the body holds. */
  function GetMeters(c: Client, ex: Exchange<MetersResponse>): (call: Call<MetersResponse>)
    ensures call.sent == Sent(MetersURL(c.BaseURL()), ex)
    ensures call.result.Success? <==> ex.Answered? && ex.statusCode == StatusOK
    ensures call.result.Success? ==> call.result.value == NoMeters
  {
    var sent := Sent(MetersURL(c.baseURL), ex);
    match ex
    case RequestRejected => Call(sent, Failure(RequestCreationFailed))
    case TransportFailed => Call(sent, Failure(ExecutionFailed))
    case Answered(code, _) =>
      if code != StatusOK then Call(sent, Failure(UnexpectedStatus(code)))
      else Call(sent, Success(NoMeters))
  }

  // ---------------------------------------------------------------------------
  // Properties

  /** BaseURL returns what New was given, the empty string included. */
  lemma NewKeepsBaseURL(baseURL: string, cfg: Configuration.Config)
    ensures New(baseURL, cfg).BaseURL() == baseURL
    ensures New("", cfg).BaseURL() == ""
  {
  }

  /** Both requests are addressed below the base URL, at different paths. */
  lemma RequestsStayOnDevice(c: Client)
    ensures StatusURL(c.BaseURL())[..|c.BaseURL()|] == c.BaseURL()
    ensures MetersURL(c.BaseURL())[..|c.BaseURL()|] == c.BaseURL()
    ensures StatusURL(c.BaseURL()) != MetersURL(c.BaseURL())
  {
    var b := c.BaseURL();
    assert StatusURL(b)[|b| + 1] == 'r';
    assert MetersURL(b)[|b| + 1] == 'm';
  }

  /** A decoded status comes back exactly as it was decoded. */
  lemma GetStatusReturnsDecoded(c: Client, ex: Exchange<StatusResponse>)
    requires GetStatus(c, ex).result.Success?
    ensures GetStatus(c, ex).result.value == ex.body.value
  {
  }

  /** The error each failing exchange is reported as. */
  lemma ErrorsByCause(c: Client, ex: Exchange<StatusResponse>, ey: Exchange<MetersResponse>)
    ensures ex.RequestRejected? ==> GetStatus(c, ex).result == Failure(RequestCreationFailed)
    ensures ex.TransportFailed? ==> GetStatus(c, ex).result == Failure(ExecutionFailed)
    ensures ex.Answered? && ex.statusCode != StatusOK ==> GetStatus(c, ex).result == Failure(UnexpectedStatus(ex.statusCode))
    ensures ex.Answered? && ex.statusCode == StatusOK && ex.body.Undecodable? ==> GetStatus(c, ex).result == Failure(DecodeFailed)
    ensures ey.RequestRejected? ==> GetMeters(c, ey).result == Failure(RequestCreationFailed)
    ensures ey.TransportFailed? ==> GetMeters(c, ey).result == Failure(ExecutionFailed)
    ensures ey.Answered? && ey.statusCode != StatusOK ==> GetMeters(c, ey).result == Failure(UnexpectedStatus(ey.statusCode))
  {
  }

  /** Whatever goes wrong, GetStatus never hands a record back, and it never
      issues more than the one request: a non-200 answer is not retried. */
  lemma GetStatusFailsWithoutRecord(c: Client, ex: Exchange<StatusResponse>)
    requires ex.TransportFailed? || (ex.Answered? && ex.statusCode != StatusOK) || (ex.Answered? && ex.body.Undecodable?)
    ensures GetStatus(c, ex).result.Failure?
    ensures GetStatus(c, ex).sent == [StatusURL(c.BaseURL())]
  {
  }

  /** The body of a successful meters request is never looked at. */
  lemma GetMetersIgnoresBody(c: Client, code: int, b1: Body<MetersResponse>, b2: Body<MetersResponse>)
    ensures GetMeters(c, Answered(code, b1)) == GetMeters(c, Answered(code, b2))
  {
  }

  /** GetStatus and GetMeters fail for the same reasons, except that only
      GetStatus can fail on the body. */
  lemma SameTransportErrors(c: Client, ex: Exchange<StatusResponse>, ey: Exchange<MetersResponse>)
    requires ex.RequestRejected? <==> ey.RequestRejected?
    requires ex.TransportFailed? <==> ey.TransportFailed?
    requires ex.Answered? ==> ey.Answered? && ex.statusCode == ey.statusCode
    ensures GetMeters(c, ey).result.Failure? ==> GetStatus(c, ex).result.Failure?
    ensures GetStatus(c, ex).result.Failure? && GetMeters(c, ey).result.Success? ==> GetStatus(c, ex).result.error == DecodeFailed
  {
  }
}
