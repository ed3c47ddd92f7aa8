/** The exporter's configuration record and the helpers defined on it in
    internal/config/config.go: validation, the combined device list, device
    metadata lookup and time-of-day electricity rate resolution. Loading the
    record from a file or the environment is not part of this model; the
    loaded record is an input. Durations are Go time.Duration nanosecond counts. */
module Configuration {
  import opened Wrappers
  import opened Text
  import opened Clock

  /** A device given with metadata. */
  datatype Device = Device(url: string, name: string, category: string, description: string)

  /** One schedule rule: a "HH:MM-HH:MM" range and the rate that applies in it. */
  datatype Rate = Rate(time: string, rate: real)

  datatype CostConfig = CostConfig(enabled: bool, defaultRate: real, rates: seq<Rate>)

  datatype TlsConfig = TlsConfig(enabled: bool, caFile: string, certFile: string, keyFile: string,
                                 insecureSkipVerify: bool)

  datatype Config = Config(
    listenAddress: string,
    metricsPath: string,
    logLevel: string,
    shellyDevices: seq<string>,
    devices: seq<Device>,
    scrapeInterval: int,
    scrapeTimeout: int,
    costCalculation: CostConfig,
    tls: TlsConfig)

  // ---------------------------------------------------------------------------
  // Validate

  /** One failed validation check; indices say which list entry failed. */
  datatype ValidationError =
    | ListenAddressEmpty
    | MetricsPathEmpty
    | NoDevices
    | IntervalNotPositive
    | TimeoutNotPositive
    | TimeoutNotBelowInterval
    | DeviceUrlEmpty(index: nat)
    | DeviceNameEmpty(index: nat)
    | DeviceCategoryEmpty(index: nat)
    | DefaultRateNotPositive
    | RateTimeEmpty(index: nat)
    | RateNotPositive(index: nat)
    | KeyFileMissing
    | CertFileMissing

  /** The message Validate collects for each failed check. */
  function Message(e: ValidationError): string {
    match e
    case ListenAddressEmpty => "listen_address cannot be empty"
    case MetricsPathEmpty => "metrics_path cannot be empty"
    case NoDevices => "at least one shelly device must be configured"
    case IntervalNotPositive => "scrape_interval must be positive"
    case TimeoutNotPositive => "scrape_timeout must be positive"
    case TimeoutNotBelowInterval => "scrape_timeout must be less than scrape_interval"
    case DeviceUrlEmpty(i) => "devices[" + DecimalString(i) + "].url cannot be empty"
    case DeviceNameEmpty(i) => "devices[" + DecimalString(i) + "].name cannot be empty"
    case DeviceCategoryEmpty(i) => "devices[" + DecimalString(i) + "].category cannot be empty"
    case DefaultRateNotPositive => "cost_calculation.default_rate must be positive"
    case RateTimeEmpty(i) => "cost_calculation.rates[" + DecimalString(i) + "].time cannot be empty"
    case RateNotPositive(i) => "cost_calculation.rates[" + DecimalString(i) + "].rate must be positive"
    case KeyFileMissing => "tls.key_file is required when tls.cert_file is set"
    case CertFileMissing => "tls.cert_file is required when tls.key_file is set"
  }

  /** The messages of the errors, one each, in order. */
  function Messages(es: seq<ValidationError>): (ms: seq<string>)
    ensures |ms| == |es|
    ensures forall i :: 0 <= i < |es| ==> ms[i] == Message(es[i])
  {
    if es == [] then [] else [Message(es[0])] + Messages(es[1..])
  }

  /** The single error e when the check failed, nothing otherwise. */
  function When(failed: bool, e: ValidationError): seq<ValidationError> {
    if failed then [e] else []
  }

  /** The checks on the server settings, the device lists and the scrape timing, in order. */
  function GeneralChecks(c: Config): seq<ValidationError> {
    When(c.listenAddress == "", ListenAddressEmpty)
    + When(c.metricsPath == "", MetricsPathEmpty)
    + When(|c.shellyDevices| == 0 && |c.devices| == 0, NoDevices)
    + When(c.scrapeInterval <= 0, IntervalNotPositive)
    + When(c.scrapeTimeout <= 0, TimeoutNotPositive)
    + When(c.scrapeTimeout >= c.scrapeInterval, TimeoutNotBelowInterval)
  }

  function DeviceErrors(i: nat, d: Device): seq<ValidationError> {
    When(d.url == "", DeviceUrlEmpty(i))
    + When(d.name == "", DeviceNameEmpty(i))
    + When(d.category == "", DeviceCategoryEmpty(i))
  }

  /** The per-device checks for a prefix of the device list. */
  function DeviceChecks(devices: seq<Device>): seq<ValidationError> {
    if |devices| == 0 then []
    else DeviceChecks(devices[..|devices| - 1]) + DeviceErrors(|devices| - 1, devices[|devices| - 1])
  }

  function RateErrors(i: nat, r: Rate): seq<ValidationError> {
    When(r.time == "", RateTimeEmpty(i)) + When(r.rate <= 0.0, RateNotPositive(i))
  }

  /** The per-rule checks for a prefix of the schedule. */
  function RateChecks(rates: seq<Rate>): seq<ValidationError> {
    if |rates| == 0 then []
    else RateChecks(rates[..|rates| - 1]) + RateErrors(|rates| - 1, rates[|rates| - 1])
  }

  function CostChecks(cc: CostConfig): seq<ValidationError> {
    if cc.enabled then
      When(cc.defaultRate <= 0.0, DefaultRateNotPositive) + RateChecks(cc.rates)
    else []
  }

  function TlsChecks(t: TlsConfig): seq<ValidationError> {
    if t.enabled then
      When(t.certFile != "" && t.keyFile == "", KeyFileMissing)
      + When(t.keyFile != "" && t.certFile == "", CertFileMissing)
    else []
  }

  /** Every failed check, in the order Validate runs them. */
  function Checks(c: Config): seq<ValidationError> {
    GeneralChecks(c) + DeviceChecks(c.devices) + CostChecks(c.costCalculation) + TlsChecks(c.tls)
  }

  /** What it means for the configuration to violate the requirement behind e. */
  ghost predicate Violated(c: Config, e: ValidationError) {
    || (e == ListenAddressEmpty && c.listenAddress == "")
    || (e == MetricsPathEmpty && c.metricsPath == "")
    || (e == NoDevices && |c.shellyDevices| == 0 && |c.devices| == 0)
    || (e == IntervalNotPositive && c.scrapeInterval <= 0)
    || (e == TimeoutNotPositive && c.scrapeTimeout <= 0)
    || (e == TimeoutNotBelowInterval && c.scrapeTimeout >= c.scrapeInterval)
    || DeviceViolated(c.devices, e)
    || (e == DefaultRateNotPositive && c.costCalculation.enabled && c.costCalculation.defaultRate <= 0.0)
    || (c.costCalculation.enabled && RateViolated(c.costCalculation.rates, e))
    || (e == KeyFileMissing && c.tls.enabled && c.tls.certFile != "" && c.tls.keyFile == "")
    || (e == CertFileMissing && c.tls.enabled && c.tls.keyFile != "" && c.tls.certFile == "")
  }

  /** A configuration Validate accepts, stated requirement by requirement. */
  ghost predicate WellFormed(c: Config) {
    && c.listenAddress != ""
    && c.metricsPath != ""
    && (|c.shellyDevices| > 0 || |c.devices| > 0)
    && 0 < c.scrapeTimeout < c.scrapeInterval
    && (forall i :: 0 <= i < |c.devices| ==>
          c.devices[i].url != "" && c.devices[i].name != "" && c.devices[i].category != "")
    && (c.costCalculation.enabled ==>
          && c.costCalculation.defaultRate > 0.0
          && forall i :: 0 <= i < |c.costCalculation.rates| ==>
               c.costCalculation.rates[i].time != "" && c.costCalculation.rates[i].rate > 0.0)
    && (c.tls.enabled ==> (c.tls.certFile == "" <==> c.tls.keyFile == ""))
  }

  /** The per-device part of Violated, for a list of devices. */
  ghost predicate DeviceViolated(devices: seq<Device>, e: ValidationError) {
    || (e.DeviceUrlEmpty? && e.index < |devices| && devices[e.index].url == "")
    || (e.DeviceNameEmpty? && e.index < |devices| && devices[e.index].name == "")
    || (e.DeviceCategoryEmpty? && e.index < |devices| && devices[e.index].category == "")
  }

  /** The per-rule part of Violated, for a schedule. */
  ghost predicate RateViolated(rates: seq<Rate>, e: ValidationError) {
    || (e.RateTimeEmpty? && e.index < |rates| && rates[e.index].time == "")
    || (e.RateNotPositive? && e.index < |rates| && rates[e.index].rate <= 0.0)
  }

  lemma GeneralChecksMembership(c: Config, e: ValidationError)
    ensures e in GeneralChecks(c) <==>
      || (e == ListenAddressEmpty && c.listenAddress == "")
      || (e == MetricsPathEmpty && c.metricsPath == "")
      || (e == NoDevices && |c.shellyDevices| == 0 && |c.devices| == 0)
      || (e == IntervalNotPositive && c.scrapeInterval <= 0)
      || (e == TimeoutNotPositive && c.scrapeTimeout <= 0)
      || (e == TimeoutNotBelowInterval && c.scrapeTimeout >= c.scrapeInterval)
  {
  }

  lemma DeviceErrorsMembership(i: nat, d: Device, e: ValidationError)
    ensures e in DeviceErrors(i, d) <==>
      || (e == DeviceUrlEmpty(i) && d.url == "")
      || (e == DeviceNameEmpty(i) && d.name == "")
      || (e == DeviceCategoryEmpty(i) && d.category == "")
  {
  }

  lemma RateErrorsMembership(i: nat, r: Rate, e: ValidationError)
    ensures e in RateErrors(i, r) <==>
      (e == RateTimeEmpty(i) && r.time == "") || (e == RateNotPositive(i) && r.rate <= 0.0)
  {
  }

  lemma CostChecksMembership(cc: CostConfig, e: ValidationError)
    ensures e in CostChecks(cc) <==>
      || (e == DefaultRateNotPositive && cc.enabled && cc.defaultRate <= 0.0)
      || (cc.enabled && RateViolated(cc.rates, e))
  {
    RateChecksListViolations(cc.rates, e);
  }

  lemma TlsChecksMembership(t: TlsConfig, e: ValidationError)
    ensures e in TlsChecks(t) <==>
      || (e == KeyFileMissing && t.enabled && t.certFile != "" && t.keyFile == "")
      || (e == CertFileMissing && t.enabled && t.keyFile != "" && t.certFile == "")
  {
  }

  lemma {:induction false} DeviceChecksListViolations(devices: seq<Device>, e: ValidationError)
    ensures e in DeviceChecks(devices) <==> DeviceViolated(devices, e)
  {
    if |devices| > 0 {
      var n := |devices| - 1;
      var prefix := devices[..n];
      DeviceChecksListViolations(prefix, e);
      DeviceErrorsMembership(n, devices[n], e);
      assert e in DeviceChecks(devices) <==> e in DeviceChecks(prefix) || e in DeviceErrors(n, devices[n]);
      if e.DeviceUrlEmpty? || e.DeviceNameEmpty? || e.DeviceCategoryEmpty? {
        assert e.index < n ==> prefix[e.index] == devices[e.index];
      }
    }
  }

  lemma {:induction false} RateChecksListViolations(rates: seq<Rate>, e: ValidationError)
    ensures e in RateChecks(rates) <==> RateViolated(rates, e)
  {
    if |rates| > 0 {
      var n := |rates| - 1;
      var prefix := rates[..n];
      RateChecksListViolations(prefix, e);
      RateErrorsMembership(n, rates[n], e);
      assert e in RateChecks(rates) <==> e in RateChecks(prefix) || e in RateErrors(n, rates[n]);
      if e.RateTimeEmpty? || e.RateNotPositive? {
        assert e.index < n ==> prefix[e.index] == rates[e.index];
      }
    }
  }

  /** Validate reports a check exactly when its requirement is violated. */
  lemma ChecksListViolations(c: Config, e: ValidationError)
    ensures e in Checks(c) <==> Violated(c, e)
  {
    GeneralChecksMembership(c, e);
    DeviceChecksListViolations(c.devices, e);
    CostChecksMembership(c.costCalculation, e);
    TlsChecksMembership(c.tls, e);
    assert e in Checks(c) <==>
      e in GeneralChecks(c) || e in DeviceChecks(c.devices) || e in CostChecks(c.costCalculation) || e in TlsChecks(c.tls);
  }

  /** Validate reports nothing exactly when the configuration is well formed. */
  lemma ChecksEmptyIffWellFormed(c: Config)
    ensures Checks(c) == [] <==> WellFormed(c)
  {
    if Checks(c) == [] {
      forall i | 0 <= i < |c.devices|
        ensures c.devices[i].url != "" && c.devices[i].name != "" && c.devices[i].category != ""
      {
        ChecksListViolations(c, DeviceUrlEmpty(i));
        ChecksListViolations(c, DeviceNameEmpty(i));
        ChecksListViolations(c, DeviceCategoryEmpty(i));
      }
      if c.costCalculation.enabled {
        forall i | 0 <= i < |c.costCalculation.rates|
          ensures c.costCalculation.rates[i].time != "" && c.costCalculation.rates[i].rate > 0.0
        {
          ChecksListViolations(c, RateTimeEmpty(i));
          ChecksListViolations(c, RateNotPositive(i));
        }
      }
    } else {
      var e := Checks(c)[0];
      ChecksListViolations(c, e);
    }
  }

  /** Config.Validate: run every check, collect one error per failure, and fail
      with all their messages joined by "; " when any check failed. The leading
      checks and the device, cost and TLS sections of the source are the four
      helper methods below. */
  method Validate(c: Config) returns (err: Option<string>)
    ensures err.None? <==> WellFormed(c)
    ensures err.Some? ==> err.value == "validation failed: " + Join(Messages(Checks(c)), "; ")
  {
    var errors := ValidateGeneral(c);
    var deviceErrors := ValidateDevices(c.devices);
    var costErrors := ValidateCost(c.costCalculation);
    var tlsErrors := ValidateTls(c.tls);
    errors := errors + deviceErrors + costErrors + tlsErrors;
    assert errors == Checks(c);

    ChecksEmptyIffWellFormed(c);
    if |errors| > 0 {
      err := Some("validation failed: " + Join(Messages(errors), "; "));
    } else {
      err := None;
    }
  }

  /** The checks of Validate that precede the device section. */
  method ValidateGeneral(c: Config) returns (errors: seq<ValidationError>)
    ensures errors == GeneralChecks(c)
  {
    errors := [];
    if c.listenAddress == "" {
      errors := errors + [ListenAddressEmpty];
    }
    assert errors == When(c.listenAddress == "", ListenAddressEmpty);
    ghost var checked := errors;
    if c.metricsPath == "" {
      errors := errors + [MetricsPathEmpty];
    }
    assert errors == checked + When(c.metricsPath == "", MetricsPathEmpty);
    checked := errors;
    if |c.shellyDevices| == 0 && |c.devices| == 0 {
      errors := errors + [NoDevices];
    }
    assert errors == checked + When(|c.shellyDevices| == 0 && |c.devices| == 0, NoDevices);
    checked := errors;
    if c.scrapeInterval <= 0 {
      errors := errors + [IntervalNotPositive];
    }
    assert errors == checked + When(c.scrapeInterval <= 0, IntervalNotPositive);
    checked := errors;
    if c.scrapeTimeout <= 0 {
      errors := errors + [TimeoutNotPositive];
    }
    assert errors == checked + When(c.scrapeTimeout <= 0, TimeoutNotPositive);
    checked := errors;
    if c.scrapeTimeout >= c.scrapeInterval {
      errors := errors + [TimeoutNotBelowInterval];
    }
    assert errors == checked + When(c.scrapeTimeout >= c.scrapeInterval, TimeoutNotBelowInterval);
  }

  /** The device section of Validate: an empty url, name or category of any entry. */
  method ValidateDevices(devices: seq<Device>) returns (errors: seq<ValidationError>)
    ensures errors == DeviceChecks(devices)
  {
    errors := [];
    var i := 0;
    while i < |devices|
      invariant 0 <= i <= |devices|
      invariant errors == DeviceChecks(devices[..i])
    {
      var found := ValidateDevice(i, devices[i]);
      DeviceChecksStep(devices, i);
      errors := errors + found;
      i := i + 1;
    }
    assert devices[..|devices|] == devices;
  }

  /** The checks on the device at index i: empty url, name, category, in that order. */
  method ValidateDevice(i: nat, device: Device) returns (errors: seq<ValidationError>)
    ensures errors == DeviceErrors(i, device)
  {
    errors := [];
    if device.url == "" {
      errors := errors + [DeviceUrlEmpty(i)];
    }
    if device.name == "" {
      errors := errors + [DeviceNameEmpty(i)];
    }
    if device.category == "" {
      errors := errors + [DeviceCategoryEmpty(i)];
    }
  }

  /** The cost section of Validate: only when cost calculation is enabled, a
      non-positive default rate, then an empty time or non-positive rate per rule. */
  method ValidateCost(cc: CostConfig) returns (errors: seq<ValidationError>)
    ensures errors == CostChecks(cc)
  {
    errors := [];
    if cc.enabled {
      if cc.defaultRate <= 0.0 {
        errors := errors + [DefaultRateNotPositive];
      }
      ghost var withDefault := errors;
      assert withDefault == When(cc.defaultRate <= 0.0, DefaultRateNotPositive);
      var j := 0;
      while j < |cc.rates|
        invariant 0 <= j <= |cc.rates|
        invariant errors == withDefault + RateChecks(cc.rates[..j])
      {
        var found := ValidateRate(j, cc.rates[j]);
        RateChecksStep(cc.rates, j);
        ConcatAssoc(withDefault, RateChecks(cc.rates[..j]), found);
        errors := errors + found;
        j := j + 1;
      }
      assert cc.rates[..|cc.rates|] == cc.rates;
    }
  }

  /** The two checks of one schedule rule. */
  method ValidateRate(j: nat, rate: Rate) returns (errors: seq<ValidationError>)
    ensures errors == RateErrors(j, rate)
  {
    errors := [];
    if rate.time == "" {
      errors := errors + [RateTimeEmpty(j)];
    }
    if rate.rate <= 0.0 {
      errors := errors + [RateNotPositive(j)];
    }
  }

  lemma ConcatAssoc<T>(a: seq<T>, b: seq<T>, c: seq<T>)
    ensures (a + b) + c == a + (b + c)
  {
  }

  lemma DeviceChecksStep(devices: seq<Device>, i: nat)
    requires i < |devices|
    ensures DeviceChecks(devices[..i + 1]) == DeviceChecks(devices[..i]) + DeviceErrors(i, devices[i])
  {
    assert devices[..i + 1][..i] == devices[..i];
  }

  lemma RateChecksStep(rates: seq<Rate>, j: nat)
    requires j < |rates|
    ensures RateChecks(rates[..j + 1]) == RateChecks(rates[..j]) + RateErrors(j, rates[j])
  {
    assert rates[..j + 1][..j] == rates[..j];
  }

  /** The TLS section of Validate: with TLS enabled, a certificate without a key or a key without a certificate. */
  method ValidateTls(t: TlsConfig) returns (errors: seq<ValidationError>)
    ensures errors == TlsChecks(t)
  {
    errors := [];
    if t.enabled {
      if t.certFile != "" && t.keyFile == "" {
        errors := errors + [KeyFileMissing];
      }
      if t.keyFile != "" && t.certFile == "" {
        errors := errors + [CertFileMissing];
      }
    }
  }

  // ---------------------------------------------------------------------------
  // Device lists

  /** Config.GetAllDeviceURLs: the bare URLs first, then the URL of every
      device given with metadata, each group in its configured order. */
  method GetAllDeviceURLs(c: Config) returns (urls: seq<string>)
    ensures |urls| == |c.shellyDevices| + |c.devices|
    ensures urls[..|c.shellyDevices|] == c.shellyDevices
    ensures forall i :: 0 <= i < |c.devices| ==> urls[|c.shellyDevices| + i] == c.devices[i].url
  {
    urls := [];
    urls := urls + c.shellyDevices;
    var i := 0;
    while i < |c.devices|
      invariant 0 <= i <= |c.devices|
      invariant |urls| == |c.shellyDevices| + i
      invariant urls[..|c.shellyDevices|] == c.shellyDevices
      invariant forall k :: 0 <= k < i ==> urls[|c.shellyDevices| + k] == c.devices[k].url
    {
      urls := urls + [c.devices[i].url];
      i := i + 1;
    }
  }

  /** The first device in the list whose URL is url, if any. */
  function FindDevice(devices: seq<Device>, url: string): (r: Option<Device>)
    ensures r.Some? ==> r.value in devices && r.value.url == url
    ensures r.None? <==> forall i :: 0 <= i < |devices| ==> devices[i].url != url
  {
    if |devices| == 0 then None
    else if devices[0].url == url then Some(devices[0])
    else
      var r := FindDevice(devices[1..], url);
      assert forall i :: 1 <= i < |devices| ==> devices[i] == devices[1..][i - 1];
      r
  }

  /** Config.GetDeviceByURL: metadata for a device URL, or none. */
  function GetDeviceByURL(c: Config, url: string): (r: Option<Device>)
    ensures r.Some? ==> r.value in c.devices && r.value.url == url
    ensures r.None? <==> forall i :: 0 <= i < |c.devices| ==> c.devices[i].url != url
  {
    FindDevice(c.devices, url)
  }

  /** The entry found is the earliest one with that URL: a later duplicate never wins. */
  lemma {:induction false} FindDeviceIsFirst(devices: seq<Device>, url: string, i: nat)
    requires i < |devices| && devices[i].url == url
    requires forall j :: 0 <= j < i ==> devices[j].url != url
    ensures FindDevice(devices, url) == Some(devices[i])
  {
    if i > 0 {
      FindDeviceIsFirst(devices[1..], url, i - 1);
    }
  }

  // ---------------------------------------------------------------------------
  // GetCurrentRate

  /** The start and end minute of a "HH:MM-HH:MM" rule, or none when the text
      does not split on '-' into exactly two parts or a part fails "15:04". */
  function ParseRange(time: string): (r: Option<(int, int)>)
    ensures r.Some? ==> 0 <= r.value.0 < MinutesPerDay && 0 <= r.value.1 < MinutesPerDay
  {
    var parts := Split(time, '-');
    if |parts| != 2 then None
    else
      match (ParseClock(parts[0]), ParseClock(parts[1]))
      case (Some(start), Some(end)) => Some((start, end))
      case _ => None
  }

  /** The range test of the loop: a normal rule (end not before start) holds
      between its ends, an overnight rule holds from start to midnight and from
      midnight to end; ends are inclusive. */
  predicate InRange(start: int, end: int, current: int) {
    if end >= start then start <= current && current <= end
    else current >= start || current <= end
  }

  /** Whether the rule is well formed and covers the clock reading. As in the
      source, the reading is formatted as "15:04" and parsed back. */
  predicate RuleMatches(rule: Rate, now: MinuteOfDay) {
    match (ParseRange(rule.time), ParseClock(FormatClock(now)))
    case (Some((start, end)), Some(current)) => InRange(start, end, current)
    case _ => false
  }

  /** The loop over the schedule: the first matching rule's rate, else the default. */
  function ScanRates(rates: seq<Rate>, now: MinuteOfDay, defaultRate: real): (r: real)
    ensures r == defaultRate || exists i :: 0 <= i < |rates| && RuleMatches(rates[i], now) && r == rates[i].rate
  {
    if |rates| == 0 then defaultRate
    else if RuleMatches(rates[0], now) then rates[0].rate
    else
      var r := ScanRates(rates[1..], now, defaultRate);
      assert forall i :: 1 <= i < |rates| ==> rates[i] == rates[1..][i - 1];
      r
  }

  /** CostConfig.GetCurrentRate at the given minute of the day. */
  function GetCurrentRate(cc: CostConfig, now: MinuteOfDay): (r: real)
    ensures !cc.enabled ==> r == 0.0
    ensures cc.enabled ==>
      r == cc.defaultRate || exists i :: 0 <= i < |cc.rates| && RuleMatches(cc.rates[i], now) && r == cc.rates[i].rate
  {
    if !cc.enabled then 0.0
    else if |cc.rates| == 0 then cc.defaultRate
    else ScanRates(cc.rates, now, cc.defaultRate)
  }

  /** A well-formed rule covers now exactly by the normal or the overnight test on minutes. */
  lemma RuleMatchesOnMinutes(rule: Rate, now: MinuteOfDay, start: int, end: int)
    requires ParseRange(rule.time) == Some((start, end))
    ensures RuleMatches(rule, now) <==>
      if end >= start then start <= now <= end else now >= start || now <= end
  {
    ParseFormatRoundTrip(now);
  }

  /** An overnight rule covers everything except the open gap between its end and its start. */
  lemma OvernightIsComplementOfGap(rule: Rate, now: MinuteOfDay, start: int, end: int)
    requires ParseRange(rule.time) == Some((start, end)) && end < start
    ensures RuleMatches(rule, now) <==> !(end < now < start)
  {
    RuleMatchesOnMinutes(rule, now, start, end);
  }

  /** A rule whose text does not split into exactly two parts never matches. */
  lemma MalformedRuleSkipped(rule: Rate, now: MinuteOfDay)
    requires Count(rule.time, '-') != 1
    ensures !RuleMatches(rule, now)
  {
    SplitCount(rule.time, '-');
  }

  /** When cost calculation is enabled the result is the rate of the earliest
      matching rule ... */
  lemma {:induction false} FirstMatchWins(cc: CostConfig, now: MinuteOfDay, i: nat)
    requires cc.enabled
    requires i < |cc.rates| && RuleMatches(cc.rates[i], now)
    requires forall j :: 0 <= j < i ==> !RuleMatches(cc.rates[j], now)
    ensures GetCurrentRate(cc, now) == cc.rates[i].rate
  {
    ScanFirstMatch(cc.rates, now, cc.defaultRate, i);
  }

  lemma {:induction false} ScanFirstMatch(rates: seq<Rate>, now: MinuteOfDay, defaultRate: real, i: nat)
    requires i < |rates| && RuleMatches(rates[i], now)
    requires forall j :: 0 <= j < i ==> !RuleMatches(rates[j], now)
    ensures ScanRates(rates, now, defaultRate) == rates[i].rate
  {
    if i > 0 {
      ScanFirstMatch(rates[1..], now, defaultRate, i - 1);
    }
  }

  /** ... and the default rate when no rule matches. */
  lemma {:induction false} NoMatchGivesDefault(cc: CostConfig, now: MinuteOfDay)
    requires cc.enabled
    requires forall j :: 0 <= j < |cc.rates| ==> !RuleMatches(cc.rates[j], now)
    ensures GetCurrentRate(cc, now) == cc.defaultRate
  {
    ScanNoMatch(cc.rates, now, cc.defaultRate);
  }

  /** A configuration Validate accepts never prices energy at zero or below. */
  lemma ValidatedRatePositive(c: Config, now: MinuteOfDay)
    requires WellFormed(c) && c.costCalculation.enabled
    ensures GetCurrentRate(c.costCalculation, now) > 0.0
  {
  }

  lemma {:induction false} ScanNoMatch(rates: seq<Rate>, now: MinuteOfDay, defaultRate: real)
    requires forall j :: 0 <= j < |rates| ==> !RuleMatches(rates[j], now)
    ensures ScanRates(rates, now, defaultRate) == defaultRate
  {
    if |rates| > 0 {
      ScanNoMatch(rates[1..], now, defaultRate);
    }
  }

  lemma SecondRuleApplies(cc: CostConfig, now: MinuteOfDay)
    requires cc.enabled && 2 <= |cc.rates|
    requires !RuleMatches(cc.rates[0], now) && RuleMatches(cc.rates[1], now)
    ensures GetCurrentRate(cc, now) == cc.rates[1].rate
  {
    FirstMatchWins(cc, now, 1);
  }

  lemma NoneOfThreeMatch(cc: CostConfig, now: MinuteOfDay)
    requires cc.enabled && |cc.rates| == 3
    requires !RuleMatches(cc.rates[0], now) && !RuleMatches(cc.rates[1], now) && !RuleMatches(cc.rates[2], now)
    ensures GetCurrentRate(cc, now) == cc.defaultRate
  {
    NoMatchGivesDefault(cc, now);
  }

  /** Rules after a matching one never change the result. */
  lemma {:induction false} LaterRulesNeverOverride(rates: seq<Rate>, more: seq<Rate>, now: MinuteOfDay,
                                                   defaultRate: real, i: nat)
    requires i < |rates| && RuleMatches(rates[i], now)
    ensures ScanRates(rates + more, now, defaultRate) == ScanRates(rates, now, defaultRate)
  {
    if !RuleMatches(rates[0], now) {
      assert (rates + more)[1..] == rates[1..] + more;
      LaterRulesNeverOverride(rates[1..], more, now, defaultRate, i - 1);
    }
  }

  // ---------------------------------------------------------------------------
  // The schedules exercised in internal/config/config_test.go

  const DayNight := CostConfig(true, 0.15, [Rate("00:00-06:00", 0.12), Rate("06:00-22:00", 0.18),
                                            Rate("22:00-24:00", 0.12)])
  const Overnight := CostConfig(true, 0.15, [Rate("22:00-06:00", 0.10), Rate("06:00-22:00", 0.18)])
  const Invalid := CostConfig(true, 0.15, [Rate("invalid-format", 0.20)])

  /** Splitting a literal "<start>-<end>" rule with a single '-'. */
  lemma SplitRule(start: string, end: string)
    requires forall i :: 0 <= i < |start| ==> start[i] != '-'
    requires forall i :: 0 <= i < |end| ==> end[i] != '-'
    ensures Split(start + "-" + end, '-') == [start, end]
  {
    SplitAtFirst(start, end, '-');
    SplitWithoutSeparator(end, '-');
  }

  lemma NightRangeParses()
    ensures ParseRange("00:00-06:00") == Some((0, 360))
  {
    SplitRule("00:00", "06:00");
    assert "00:00-06:00" == "00:00" + "-" + "06:00";
    ParseFormatRoundTrip(0);
    ParseFormatRoundTrip(360);
    assert FormatClock(0) == "00:00";
    assert FormatClock(360) == "06:00";
  }

  lemma DayRangeParses()
    ensures ParseRange("06:00-22:00") == Some((360, 1320))
  {
    SplitRule("06:00", "22:00");
    assert "06:00-22:00" == "06:00" + "-" + "22:00";
    ParseFormatRoundTrip(360);
    ParseFormatRoundTrip(1320);
    assert FormatClock(360) == "06:00";
    assert FormatClock(1320) == "22:00";
  }

  lemma LateRangeRejected()
    ensures ParseRange("22:00-24:00") == None
  {
    SplitRule("22:00", "24:00");
    assert "22:00-24:00" == "22:00" + "-" + "24:00";
    MidnightAsTwentyFourRejected();
  }

  lemma OvernightRangeParses()
    ensures ParseRange("22:00-06:00") == Some((1320, 360))
  {
    SplitRule("22:00", "06:00");
    assert "22:00-06:00" == "22:00" + "-" + "06:00";
    ParseFormatRoundTrip(1320);
    ParseFormatRoundTrip(360);
    assert FormatClock(1320) == "22:00";
    assert FormatClock(360) == "06:00";
  }

  lemma InvalidRangeRejected()
    ensures ParseRange("invalid-format") == None
  {
    SplitRule("invalid", "format");
    assert "invalid-format" == "invalid" + "-" + "format";
    assert ParseClock("invalid") == None;
  }

  /** With the day/night schedule the night rate applies up to and including 06:00. */
  lemma DayNightEarlyMorning(now: MinuteOfDay)
    requires now <= 360
    ensures GetCurrentRate(DayNight, now) == 0.12
  {
    NightRangeParses();
    RuleMatchesOnMinutes(DayNight.rates[0], now, 0, 360);
    FirstMatchWins(DayNight, now, 0);
  }

  /** After 06:00 and up to and including 22:00 the day rule is the first that matches. */
  lemma DayNightDaytime(now: MinuteOfDay)
    requires 360 < now <= 1320
    ensures GetCurrentRate(DayNight, now) == 0.18
  {
    NightRangeParses();
    DayRangeParses();
    RuleMatchesOnMinutes(DayNight.rates[0], now, 0, 360);
    RuleMatchesOnMinutes(DayNight.rates[1], now, 360, 1320);
    SecondRuleApplies(DayNight, now);
  }

  /** "22:00-24:00" is malformed, so after 22:00 no rule matches and the default rate applies. */
  lemma DayNightLateEvening(now: MinuteOfDay)
    requires 1320 < now
    ensures GetCurrentRate(DayNight, now) == 0.15
  {
    NightRangeParses();
    DayRangeParses();
    LateRangeRejected();
    RuleMatchesOnMinutes(DayNight.rates[0], now, 0, 360);
    RuleMatchesOnMinutes(DayNight.rates[1], now, 360, 1320);
    NoneOfThreeMatch(DayNight, now);
  }

  /** A rule crossing midnight covers 22:00 through 06:00 inclusive. */
  lemma OvernightAtNight(now: MinuteOfDay)
    requires now <= 360 || 1320 <= now
    ensures GetCurrentRate(Overnight, now) == 0.10
  {
    OvernightRangeParses();
    RuleMatchesOnMinutes(Overnight.rates[0], now, 1320, 360);
    FirstMatchWins(Overnight, now, 0);
  }

  lemma OvernightDaytime(now: MinuteOfDay)
    requires 360 < now < 1320
    ensures GetCurrentRate(Overnight, now) == 0.18
  {
    OvernightRangeParses();
    DayRangeParses();
    RuleMatchesOnMinutes(Overnight.rates[0], now, 1320, 360);
    RuleMatchesOnMinutes(Overnight.rates[1], now, 360, 1320);
    SecondRuleApplies(Overnight, now);
  }

  /** A rule without a parsable range is skipped, leaving the default rate. */
  lemma InvalidScheduleGivesDefault(now: MinuteOfDay)
    ensures GetCurrentRate(Invalid, now) == 0.15
  {
    InvalidRangeRejected();
    NoMatchGivesDefault(Invalid, now);
  }
}
