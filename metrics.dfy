/**
 * The Prometheus collector (internal/metrics/metrics.go).
 *
 * One scrape is Collect: a first sweep that fetches every device's status and
 * emits its records, then a second sweep that fetches every status again and
 * emits each configured device's heating share. The metric channel is the
 * sequence of records emitted, in order. What each GetStatus request produced
 * is an input: one Exchange per client for each sweep, and one reading of the
 * clock (a minute of the day) per client for its cost records.
 */
module Metrics {
  import opened Wrappers
  import opened Text
  import opened Clock
  import opened ShellyClient
  import Configuration

  // ---------------------------------------------------------------------------
  // Descriptors and records

  datatype ValueType = GaugeValue | CounterValue

  /** One constructor per descriptor built by NewCollector. */
  datatype Metric =
    | DeviceInfo | DeviceUp | WifiConnected | WifiRssi | RelayState | RelayOverpower
    | PowerWatts | PowerOverpower | EnergyTotal | Temperature | Overtemperature
    | Uptime | RamFree | RamSize | FsFree | FsSize | CloudConnected | MqttConnected
    | UpdateAvailable | CostPerHour | DailyCost | HeatingPercentage | DeviceCategory

  function Name(m: Metric): string {
    match m
    case DeviceInfo => "shelly_device_info"
    case DeviceUp => "shelly_device_up"
    case WifiConnected => "shelly_wifi_connected"
    case WifiRssi => "shelly_wifi_rssi_dbm"
    case RelayState => "shelly_relay_state"
    case RelayOverpower => "shelly_relay_overpower"
    case PowerWatts => "shelly_power_watts"
    case PowerOverpower => "shelly_power_overpower"
    case EnergyTotal => "shelly_energy_total_watthours"
    case Temperature => "shelly_temperature_celsius"
    case Overtemperature => "shelly_overtemperature"
    case Uptime => "shelly_uptime_seconds"
    case RamFree => "shelly_ram_free_bytes"
    case RamSize => "shelly_ram_size_bytes"
    case FsFree => "shelly_filesystem_free_bytes"
    case FsSize => "shelly_filesystem_size_bytes"
    case CloudConnected => "shelly_cloud_connected"
    case MqttConnected => "shelly_mqtt_connected"
    case UpdateAvailable => "shelly_update_available"
    case CostPerHour => "shelly_cost_per_hour_eur"
    case DailyCost => "shelly_daily_cost_eur"
    case HeatingPercentage => "shelly_heating_percentage"
    case DeviceCategory => "shelly_device_category"
  }

  /** The variable labels each descriptor declares. */
  function LabelNames(m: Metric): seq<string> {
    match m
    case DeviceInfo => ["device", "mac", "serial", "firmware"]
    case WifiConnected => ["device", "ssid", "ip"]
    case RelayState => ["device", "relay"]
    case RelayOverpower => ["device", "relay"]
    case PowerWatts => ["device", "meter"]
    case PowerOverpower => ["device", "meter"]
    case EnergyTotal => ["device", "meter"]
    case CostPerHour => ["device", "category"]
    case DailyCost => ["device", "category"]
    case DeviceCategory => ["device", "name", "category", "description"]
    case _ => ["device"]
  }

  /** A constant metric: descriptor, value type, value and label values. */
  datatype Record = Record(metric: Metric, valueType: ValueType, value: real, labels: seq<string>)

  /** MustNewConstMetric panics unless there is one label value per declared label. */
  predicate FitsDescriptor(r: Record) {
    |r.labels| == |LabelNames(r.metric)|
  }

  function Flag(b: bool): real {
    if b then 1.0 else 0.0
  }

  // ---------------------------------------------------------------------------
  // What one device contributes to the first sweep

  function UpRecord(device: string, up: bool): Record {
    Record(DeviceUp, GaugeValue, Flag(up), [device])
  }

  /** device_up = 1, device_info, wifi_connected, wifi_rssi. */
  function HeadRecords(device: string, s: StatusResponse): seq<Record> {
    [ UpRecord(device, true),
      Record(DeviceInfo, GaugeValue, 1.0, [device, s.sys.mac, s.sys.mac, s.sys.availableUpdates.stable.version]),
      Record(WifiConnected, GaugeValue, Flag(s.wifi.status == "got ip"), [device, s.wifi.ssid, s.wifi.staIP]),
      Record(WifiRssi, GaugeValue, s.wifi.rssi as real, [device]) ]
  }

  function RelayName(i: nat): string {
    "relay_" + DecimalString(i)
  }

  function RelayPair(device: string, i: nat, relay: Relay): seq<Record> {
    [ Record(RelayState, GaugeValue, Flag(relay.isOn), [device, RelayName(i)]),
      Record(RelayOverpower, GaugeValue, Flag(relay.overpower), [device, RelayName(i)]) ]
  }

  /** State and overpower of every relay, in index order. */
  function RelayRecords(device: string, relays: seq<Relay>): (rs: seq<Record>)
    ensures |rs| == 2 * |relays|
  {
    if |relays| == 0 then []
    else RelayRecords(device, relays[..|relays| - 1]) + RelayPair(device, |relays| - 1, relays[|relays| - 1])
  }

  /** The active power of each phase and in total. */
  function PowerRecords(device: string, s: StatusResponse): seq<Record> {
    [ Record(PowerWatts, GaugeValue, s.em.aActPower, [device, "phase_a"]),
      Record(PowerWatts, GaugeValue, s.em.bActPower, [device, "phase_b"]),
      Record(PowerWatts, GaugeValue, s.em.cActPower, [device, "phase_c"]),
      Record(PowerWatts, GaugeValue, s.em.totalActPower, [device, "total"]) ]
  }

  /** Energy, temperature, uptime, memory and filesystem. */
  function SystemRecords(device: string, s: StatusResponse): seq<Record> {
    [ Record(EnergyTotal, CounterValue, s.emData.totalAct, [device, "total"]),
      Record(Temperature, GaugeValue, s.temperature.tC, [device]),
      Record(Overtemperature, GaugeValue, 0.0, [device]),
      Record(Uptime, CounterValue, s.sys.uptime as real, [device]),
      Record(RamFree, GaugeValue, s.sys.ramFree as real, [device]),
      Record(RamSize, GaugeValue, s.sys.ramSize as real, [device]),
      Record(FsFree, GaugeValue, s.sys.fsFree as real, [device]),
      Record(FsSize, GaugeValue, s.sys.fsSize as real, [device]) ]
  }

  /** Cloud, MQTT and firmware update flags. */
  function FlagRecords(device: string, s: StatusResponse): seq<Record> {
    [ Record(CloudConnected, GaugeValue, Flag(s.cloud.connected), [device]),
      Record(MqttConnected, GaugeValue, Flag(s.mqtt.connected), [device]),
      Record(UpdateAvailable, GaugeValue, Flag(s.sys.availableUpdates.stable.version != ""), [device]) ]
  }

  /** Everything that follows the relays, up to the cost records. */
  function ReadingRecords(device: string, s: StatusResponse): seq<Record> {
    PowerRecords(device, s) + SystemRecords(device, s) + FlagRecords(device, s)
  }

  /** The power a device draws now: the meter total when positive, else the
      first meter's power, else nothing. */
  function EffectivePower(s: StatusResponse): real {
    if s.em.totalActPower > 0.0 then s.em.totalActPower
    else if |s.meters| > 0 then s.meters[0].power
    else 0.0
  }

  function CategoryOf(info: Option<Configuration.Device>): string {
    if info.Some? then info.value.category else "unknown"
  }

  function CategoryRecords(device: string, info: Option<Configuration.Device>): seq<Record> {
    if info.Some? then
      [Record(DeviceCategory, GaugeValue, 1.0, [device, info.value.name, info.value.category, info.value.description])]
    else []
  }

  /** Cost per hour in EUR from watts and EUR/kWh. */
  function HourlyCost(power: real, rate: real): real {
    (power * rate) / 1000.0
  }

  /** What collectCostMetrics reads besides the status: whether cost
      calculation is on, the configured device with this URL if any, and the
      rate in force. */
  datatype Pricing = Pricing(costOn: bool, info: Option<Configuration.Device>, rate: real)

  /** The pricing of one device at one minute of the day. */
  function PricingAt(config: Configuration.Config, device: string, now: MinuteOfDay): Pricing {
    Pricing(config.costCalculation.enabled, Configuration.GetDeviceByURL(config, device),
            Configuration.GetCurrentRate(config.costCalculation, now))
  }

  /** The category record when the device is configured, then, with cost
      calculation on, the hourly and the daily cost. */
  function CostRecords(device: string, s: StatusResponse, p: Pricing): seq<Record> {
    CategoryRecords(device, p.info) + PricedRecords(device, s, p)
  }

  /** The hourly and daily cost, with cost calculation on. */
  function PricedRecords(device: string, s: StatusResponse, p: Pricing): seq<Record> {
    if !p.costOn then []
    else
      var category := CategoryOf(p.info);
      var cost := HourlyCost(EffectivePower(s), p.rate);
      [ Record(CostPerHour, GaugeValue, cost, [device, category]),
        Record(DailyCost, GaugeValue, cost * 24.0, [device, category]) ]
  }

  /** Everything one device contributes to the first sweep. */
  function DeviceRecords(device: string, outcome: Result<StatusResponse, ClientError>, p: Pricing): seq<Record> {
    if outcome.Failure? then [UpRecord(device, false)]
    else
      var s := outcome.value;
      HeadRecords(device, s) + RelayRecords(device, s.relays) + ReadingRecords(device, s) + CostRecords(device, s, p)
  }

  /** The first sweep over a prefix of the clients. */
  function SweepRecords(config: Configuration.Config, clients: seq<Client>, sweep: seq<Exchange<StatusResponse>>,
                        clock: seq<MinuteOfDay>): seq<Record>
    requires |sweep| == |clients| && |clock| == |clients|
  {
    if |clients| == 0 then []
    else
      var n := |clients| - 1;
      SweepRecords(config, clients[..n], sweep[..n], clock[..n])
      + DeviceRecords(clients[n].BaseURL(), GetStatus(clients[n], sweep[n]).result,
                      PricingAt(config, clients[n].BaseURL(), clock[n]))
  }

  // ---------------------------------------------------------------------------
  // The heating sweep

  /** A reachable device's category and effective power; nothing for an unreachable one. */
  function Contribution(config: Configuration.Config, client: Client, ex: Exchange<StatusResponse>): seq<(string, real)> {
    var outcome := GetStatus(client, ex).result;
    if outcome.Failure? then []
    else [(CategoryOf(Configuration.GetDeviceByURL(config, client.BaseURL())), EffectivePower(outcome.value))]
  }

  function Contributions(config: Configuration.Config, clients: seq<Client>, sweep: seq<Exchange<StatusResponse>>)
    : seq<(string, real)>
    requires |sweep| == |clients|
  {
    if |clients| == 0 then []
    else
      var n := |clients| - 1;
      Contributions(config, clients[..n], sweep[..n]) + Contribution(config, clients[n], sweep[n])
  }

  /** A Go map read: the zero value for a missing key. */
  function Lookup(m: map<string, real>, k: string): real {
    if k in m then m[k] else 0.0
  }

  /** The per-category accumulators after the contributions. */
  function CategoryTotals(cs: seq<(string, real)>): map<string, real> {
    if |cs| == 0 then map[]
    else
      var m := CategoryTotals(cs[..|cs| - 1]);
      m[cs[|cs| - 1].0 := Lookup(m, cs[|cs| - 1].0) + cs[|cs| - 1].1]
  }

  /** The running total after the contributions. */
  function GrandTotal(cs: seq<(string, real)>): real {
    if |cs| == 0 then 0.0 else GrandTotal(cs[..|cs| - 1]) + cs[|cs| - 1].1
  }

  /** The heating share in percent. */
  function Share(totals: map<string, real>, total: real): real {
    if total > 0.0 then (Lookup(totals, "heating") / total) * 100.0 else 0.0
  }

  function HeatingShare(cs: seq<(string, real)>): real {
    Share(CategoryTotals(cs), GrandTotal(cs))
  }

  /** One heating record per configured client, in client order. */
  function HeatingRecords(config: Configuration.Config, clients: seq<Client>, share: real): seq<Record> {
    if |clients| == 0 then []
    else
      var n := |clients| - 1;
      var device := clients[n].BaseURL();
      HeatingRecords(config, clients[..n], share)
      + if Configuration.GetDeviceByURL(config, device).Some? then
          [Record(HeatingPercentage, GaugeValue, share, [device])]
        else []
  }

  function HeatingSection(config: Configuration.Config, clients: seq<Client>, sweep: seq<Exchange<StatusResponse>>)
    : seq<Record>
    requires |sweep| == |clients|
  {
    if !config.costCalculation.enabled then []
    else HeatingRecords(config, clients, HeatingShare(Contributions(config, clients, sweep)))
  }

  /** Everything one scrape emits. */
  function ScrapeRecords(config: Configuration.Config, clients: seq<Client>, firstSweep: seq<Exchange<StatusResponse>>,
                         heatSweep: seq<Exchange<StatusResponse>>, clock: seq<MinuteOfDay>): seq<Record>
    requires |firstSweep| == |clients| && |heatSweep| == |clients| && |clock| == |clients|
  {
    SweepRecords(config, clients, firstSweep, clock) + HeatingSection(config, clients, heatSweep)
  }

  // ---------------------------------------------------------------------------
  // The collector

  datatype Collector = Collector(clients: seq<Client>, config: Configuration.Config) {

    /** Collect: every client in order, then the heating sweep. */
    method Collect(firstSweep: seq<Exchange<StatusResponse>>, heatSweep: seq<Exchange<StatusResponse>>,
                   clock: seq<MinuteOfDay>) returns (out: seq<Record>)
      requires |firstSweep| == |clients| && |heatSweep| == |clients| && |clock| == |clients|
      ensures out == ScrapeRecords(config, clients, firstSweep, heatSweep, clock)
    {
      out := CollectDevices(firstSweep, clock);
      var heating := CollectHeatingPercentage(heatSweep);
      out := out + heating;
    }

    /** The first sweep: collectDeviceMetrics for every client, in order. */
    method CollectDevices(sweep: seq<Exchange<StatusResponse>>, clock: seq<MinuteOfDay>) returns (out: seq<Record>)
      requires |sweep| == |clients| && |clock| == |clients|
      ensures out == SweepRecords(config, clients, sweep, clock)
    {
      out := [];
      var i := 0;
      while i < |clients|
        invariant 0 <= i <= |clients|
        invariant out == SweepRecords(config, clients[..i], sweep[..i], clock[..i])
      {
        var records := CollectDeviceMetrics(clients[i], sweep[i], clock[i]);
        SweepStep(config, clients, sweep, clock, i);
        out := out + records;
        i := i + 1;
      }
      WholeSweep(config, clients, sweep, clock);
    }

    /** collectDeviceMetrics: device_up = 0 alone when the status cannot be had,
        otherwise every record of the status followed by the cost records. */
    method CollectDeviceMetrics(client: Client, ex: Exchange<StatusResponse>, now: MinuteOfDay)
      returns (out: seq<Record>)
      ensures out == DeviceRecords(client.BaseURL(), GetStatus(client, ex).result, PricingAt(config, client.BaseURL(), now))
    {
      var device := client.BaseURL();
      var call := GetStatus(client, ex);
      if call.result.Failure? {
        out := [UpRecord(device, false)];
        return;
      }
      var status := call.result.value;
      out := ReportHead(device, status);
      var i := 0;
      while i < |status.relays|
        invariant 0 <= i <= |status.relays|
        invariant out == HeadRecords(device, status) + RelayRecords(device, status.relays[..i])
      {
        var relay := status.relays[i];
        var relayName := "relay_" + DecimalString(i);
        var relayState := 0.0;
        if relay.isOn {
          relayState := 1.0;
        }
        var overpower := 0.0;
        if relay.overpower {
          overpower := 1.0;
        }
        RelayRecordsStep(device, status.relays, i);
        out := out + [Record(RelayState, GaugeValue, relayState, [device, relayName]),
                      Record(RelayOverpower, GaugeValue, overpower, [device, relayName])];
        i := i + 1;
      }
      assert status.relays[..i] == status.relays;
      var readings := ReportReadings(device, status);
      var cost := CollectCostMetrics(client, status, now);
      out := out + readings + cost;
    }

    /** The up, info and WiFi records of a reachable device. */
    method ReportHead(device: string, status: StatusResponse) returns (out: seq<Record>)
      ensures out == HeadRecords(device, status)
    {
      out := [Record(DeviceUp, GaugeValue, 1.0, [device])];
      out := out + [Record(DeviceInfo, GaugeValue, 1.0,
                           [device, status.sys.mac, status.sys.mac, status.sys.availableUpdates.stable.version])];
      var wifiConnected := 0.0;
      if status.wifi.status == "got ip" {
        wifiConnected := 1.0;
      }
      out := out + [Record(WifiConnected, GaugeValue, wifiConnected, [device, status.wifi.ssid, status.wifi.staIP])];
      out := out + [Record(WifiRssi, GaugeValue, status.wifi.rssi as real, [device])];
    }

    /** The records that follow the relays. */
    method ReportReadings(device: string, status: StatusResponse) returns (out: seq<Record>)
      ensures out == ReadingRecords(device, status)
    {
      out := [Record(PowerWatts, GaugeValue, status.em.aActPower, [device, "phase_a"])];
      out := out + [Record(PowerWatts, GaugeValue, status.em.bActPower, [device, "phase_b"])];
      out := out + [Record(PowerWatts, GaugeValue, status.em.cActPower, [device, "phase_c"])];
      out := out + [Record(PowerWatts, GaugeValue, status.em.totalActPower, [device, "total"])];
      assert out == PowerRecords(device, status);
      out := out + [Record(EnergyTotal, CounterValue, status.emData.totalAct, [device, "total"])];
      out := out + [Record(Temperature, GaugeValue, status.temperature.tC, [device])];
      out := out + [Record(Overtemperature, GaugeValue, 0.0, [device])];
      out := out + [Record(Uptime, CounterValue, status.sys.uptime as real, [device])];
      out := out + [Record(RamFree, GaugeValue, status.sys.ramFree as real, [device])];
      out := out + [Record(RamSize, GaugeValue, status.sys.ramSize as real, [device])];
      out := out + [Record(FsFree, GaugeValue, status.sys.fsFree as real, [device])];
      out := out + [Record(FsSize, GaugeValue, status.sys.fsSize as real, [device])];
      assert out == PowerRecords(device, status) + SystemRecords(device, status);
      var cloudConnected := 0.0;
      if status.cloud.connected {
        cloudConnected := 1.0;
      }
      out := out + [Record(CloudConnected, GaugeValue, cloudConnected, [device])];
      var mqttConnected := 0.0;
      if status.mqtt.connected {
        mqttConnected := 1.0;
      }
      out := out + [Record(MqttConnected, GaugeValue, mqttConnected, [device])];
      var updateAvailable := 0.0;
      if status.sys.availableUpdates.stable.version != "" {
        updateAvailable := 1.0;
      }
      out := out + [Record(UpdateAvailable, GaugeValue, updateAvailable, [device])];
    }

    /** collectCostMetrics. */
    method CollectCostMetrics(client: Client, status: StatusResponse, now: MinuteOfDay) returns (out: seq<Record>)
      ensures out == CostRecords(client.BaseURL(), status, PricingAt(config, client.BaseURL(), now))
    {
      var device := client.BaseURL();
      var deviceInfo := Configuration.GetDeviceByURL(config, device);
      out := [];
      if deviceInfo.Some? {
        out := [Record(DeviceCategory, GaugeValue, 1.0,
                       [device, deviceInfo.value.name, deviceInfo.value.category, deviceInfo.value.description])];
      }
      if !config.costCalculation.enabled {
        return;
      }
      var currentPower := 0.0;
      if status.em.totalActPower > 0.0 {
        currentPower := status.em.totalActPower;
      } else if |status.meters| > 0 {
        currentPower := status.meters[0].power;
      }
      var currentRate := Configuration.GetCurrentRate(config.costCalculation, now);
      var costPerHour := (currentPower * currentRate) / 1000.0;
      var category := "unknown";
      if deviceInfo.Some? {
        category := deviceInfo.value.category;
      }
      out := out + [Record(CostPerHour, GaugeValue, costPerHour, [device, category])];
      var dailyCost := costPerHour * 24.0;
      out := out + [Record(DailyCost, GaugeValue, dailyCost, [device, category])];
      assert currentPower == EffectivePower(status);
      assert category == CategoryOf(deviceInfo);
      assert costPerHour == HourlyCost(EffectivePower(status), currentRate);
      assert PricingAt(config, device, now) == Pricing(config.costCalculation.enabled, deviceInfo, currentRate);
    }

    /** collectHeatingPercentage: accumulate power per category and in total over
        the reachable devices, then emit the share for every configured device. */
    method CollectHeatingPercentage(sweep: seq<Exchange<StatusResponse>>) returns (out: seq<Record>)
      requires |sweep| == |clients|
      ensures out == HeatingSection(config, clients, sweep)
    {
      out := [];
      if !config.costCalculation.enabled {
        return;
      }
      var categoryPower, totalPower := AccumulatePower(sweep);
      out := ReportShares(categoryPower, totalPower);
    }

    /** The first loop of collectHeatingPercentage: power per category and in
        total over the devices whose status could be had. */
    method AccumulatePower(sweep: seq<Exchange<StatusResponse>>) returns (categoryPower: map<string, real>, totalPower: real)
      requires |sweep| == |clients|
      ensures categoryPower == CategoryTotals(Contributions(config, clients, sweep))
      ensures totalPower == GrandTotal(Contributions(config, clients, sweep))
    {
      categoryPower := map[];
      totalPower := 0.0;
      ghost var seen: seq<(string, real)> := [];
      var i := 0;
      while i < |clients|
        invariant 0 <= i <= |clients|
        invariant seen == Contributions(config, clients[..i], sweep[..i])
        invariant categoryPower == CategoryTotals(seen)
        invariant totalPower == GrandTotal(seen)
      {
        var reachable, category, currentPower := MeasureDevice(clients[i], sweep[i]);
        ContributionsStep(config, clients, sweep, i);
        if reachable {
          AccumulateStep(seen, categoryPower, category, currentPower);
          categoryPower := categoryPower[category := Lookup(categoryPower, category) + currentPower];
          totalPower := totalPower + currentPower;
          seen := seen + [(category, currentPower)];
        } else {
          assert seen + [] == seen;
        }
        i := i + 1;
      }
      assert clients[..i] == clients && sweep[..i] == sweep;
    }

    /** The body of that loop: whether the device answered and, if it did, its
        category ("unknown" when not configured) and effective power. */
    method MeasureDevice(client: Client, ex: Exchange<StatusResponse>) returns (reachable: bool, category: string, currentPower: real)
      ensures Contribution(config, client, ex) == if reachable then [(category, currentPower)] else []
    {
      var device := client.BaseURL();
      var deviceInfo := Configuration.GetDeviceByURL(config, device);
      var call := GetStatus(client, ex);
      category := "unknown";
      currentPower := 0.0;
      if call.result.Failure? {
        reachable := false;
        return;
      }
      reachable := true;
      var status := call.result.value;
      if status.em.totalActPower > 0.0 {
        currentPower := status.em.totalActPower;
      } else if |status.meters| > 0 {
        currentPower := status.meters[0].power;
      }
      if deviceInfo.Some? {
        category := deviceInfo.value.category;
      }
    }

    /** The second loop of collectHeatingPercentage: the share, the same for every
        device, for each configured device in client order. */
    method ReportShares(categoryPower: map<string, real>, totalPower: real) returns (out: seq<Record>)
      ensures out == HeatingRecords(config, clients, Share(categoryPower, totalPower))
    {
      out := [];
      var j := 0;
      while j < |clients|
        invariant 0 <= j <= |clients|
        invariant out == HeatingRecords(config, clients[..j], Share(categoryPower, totalPower))
      {
        var device := clients[j].BaseURL();
        var deviceInfo := Configuration.GetDeviceByURL(config, device);
        assert clients[..j + 1][..j] == clients[..j];
        if deviceInfo.Some? {
          var heatingPercentage := 0.0;
          if totalPower > 0.0 {
            var heatingPower := Lookup(categoryPower, "heating");
            heatingPercentage := (heatingPower / totalPower) * 100.0;
          }
          out := out + [Record(HeatingPercentage, GaugeValue, heatingPercentage, [device])];
        }
        j := j + 1;
      }
      assert clients[..j] == clients;
    }
  }

  lemma SweepStep(config: Configuration.Config, clients: seq<Client>, sweep: seq<Exchange<StatusResponse>>,
                  clock: seq<MinuteOfDay>, i: nat)
    requires |sweep| == |clients| && |clock| == |clients| && i < |clients|
    ensures SweepRecords(config, clients[..i + 1], sweep[..i + 1], clock[..i + 1])
         == SweepRecords(config, clients[..i], sweep[..i], clock[..i])
            + DeviceRecords(clients[i].BaseURL(), GetStatus(clients[i], sweep[i]).result,
                            PricingAt(config, clients[i].BaseURL(), clock[i]))
  {
    assert clients[..i + 1][..i] == clients[..i];
    assert sweep[..i + 1][..i] == sweep[..i];
    assert clock[..i + 1][..i] == clock[..i];
  }

  lemma WholeSweep(config: Configuration.Config, clients: seq<Client>, sweep: seq<Exchange<StatusResponse>>,
                   clock: seq<MinuteOfDay>)
    requires |sweep| == |clients| && |clock| == |clients|
    ensures SweepRecords(config, clients[..|clients|], sweep[..|clients|], clock[..|clients|])
         == SweepRecords(config, clients, sweep, clock)
  {
    assert clients[..|clients|] == clients && sweep[..|clients|] == sweep && clock[..|clients|] == clock;
  }

  lemma RelayRecordsStep(device: string, relays: seq<Relay>, i: nat)
    requires i < |relays|
    ensures RelayRecords(device, relays[..i + 1]) == RelayRecords(device, relays[..i]) + RelayPair(device, i, relays[i])
  {
    assert relays[..i + 1][..i] == relays[..i];
  }

  lemma ContributionsStep(config: Configuration.Config, clients: seq<Client>, sweep: seq<Exchange<StatusResponse>>, i: nat)
    requires |sweep| == |clients| && i < |clients|
    ensures Contributions(config, clients[..i + 1], sweep[..i + 1])
         == Contributions(config, clients[..i], sweep[..i]) + Contribution(config, clients[i], sweep[i])
  {
    assert clients[..i + 1][..i] == clients[..i];
    assert sweep[..i + 1][..i] == sweep[..i];
  }

  lemma AccumulateStep(cs: seq<(string, real)>, totals: map<string, real>, category: string, power: real)
    requires totals == CategoryTotals(cs)
    ensures CategoryTotals(cs + [(category, power)]) == totals[category := Lookup(totals, category) + power]
    ensures GrandTotal(cs + [(category, power)]) == GrandTotal(cs) + power
  {
    assert (cs + [(category, power)])[..|cs|] == cs;
  }

  // ---------------------------------------------------------------------------
  // The records of one device

  /** The relay records come in index order, two per relay, labelled relay_<i>. */
  lemma {:induction false} RelayRecordsAt(device: string, relays: seq<Relay>, j: nat)
    requires j < |relays|
    ensures RelayRecords(device, relays)[2 * j]
         == Record(RelayState, GaugeValue, Flag(relays[j].isOn), [device, RelayName(j)])
    ensures RelayRecords(device, relays)[2 * j + 1]
         == Record(RelayOverpower, GaugeValue, Flag(relays[j].overpower), [device, RelayName(j)])
  {
    var n := |relays| - 1;
    if j < n {
      RelayRecordsAt(device, relays[..n], j);
      assert relays[..n][j] == relays[j];
    }
  }

  /** Distinct relays are told apart by their label. */
  lemma RelayNamesDistinct(i: nat, j: nat)
    requires i != j
    ensures RelayName(i) != RelayName(j)
  {
    DecimalStringInjective(i, j);
    assert RelayName(i)[6..] == DecimalString(i);
    assert RelayName(j)[6..] == DecimalString(j);
  }

  /** The records with a given descriptor, in order. */
  function Only(rs: seq<Record>, m: Metric): seq<Record> {
    if |rs| == 0 then []
    else (if rs[0].metric == m then [rs[0]] else []) + Only(rs[1..], m)
  }

  lemma {:induction false} OnlyConcat(a: seq<Record>, b: seq<Record>, m: Metric)
    ensures Only(a + b, m) == Only(a, m) + Only(b, m)
  {
    if |a| == 0 {
      assert a + b == b;
    } else {
      var head := if a[0].metric == m then [a[0]] else [];
      assert (a + b)[0] == a[0];
      assert (a + b)[1..] == a[1..] + b;
      OnlyConcat(a[1..], b, m);
      assert Only(a + b, m) == head + (Only(a[1..], m) + Only(b, m));
    }
  }

  lemma {:induction false} OnlyAbsent(rs: seq<Record>, m: Metric)
    requires forall k :: 0 <= k < |rs| ==> rs[k].metric != m
    ensures Only(rs, m) == []
  {
    if |rs| > 0 {
      OnlyAbsent(rs[1..], m);
    }
  }

  /** The priced records carry only the two cost descriptors. */
  lemma PricedOnlyCost(device: string, s: StatusResponse, p: Pricing, m: Metric)
    requires m != CostPerHour && m != DailyCost
    ensures Only(PricedRecords(device, s, p), m) == []
  {
    OnlyAbsent(PricedRecords(device, s, p), m);
  }

  lemma OnlySingle(r: Record, m: Metric)
    ensures Only([r], m) == if r.metric == m then [r] else []
  {
    assert [r][1..] == [];
  }

  lemma OnlyPair(r1: Record, r2: Record, m: Metric)
    ensures Only([r1, r2], m) == (if r1.metric == m then [r1] else []) + (if r2.metric == m then [r2] else [])
  {
    assert [r1, r2][1..] == [r2];
    OnlySingle(r2, m);
  }

  // Proof helpers: indexing into a concatenation; they model nothing of the exporter.
  lemma IndexLeft(a: seq<Record>, b: seq<Record>, k: int)
    requires 0 <= k < |a|
    ensures (a + b)[k] == a[k]
  {
  }

  lemma IndexRight(a: seq<Record>, b: seq<Record>, k: int)
    requires |a| <= k < |a| + |b|
    ensures (a + b)[k] == b[k - |a|]
  {
  }

  /** A status reading: it fits its descriptor and is neither up, category, cost,
      heating nor power-overpower. */
  predicate ReadingRecord(r: Record) {
    && FitsDescriptor(r)
    && r.metric != DeviceUp && r.metric != DeviceCategory && r.metric != CostPerHour
    && r.metric != DailyCost && r.metric != HeatingPercentage && r.metric != PowerOverpower
  }

  predicate AllReadings(rs: seq<Record>) {
    forall k :: 0 <= k < |rs| ==> ReadingRecord(rs[k])
  }

  lemma AllReadingsConcat(a: seq<Record>, b: seq<Record>)
    requires AllReadings(a) && AllReadings(b)
    ensures AllReadings(a + b)
  {
  }

  lemma {:induction false} RelayRecordsAreReadings(device: string, relays: seq<Relay>)
    ensures AllReadings(RelayRecords(device, relays))
  {
    if |relays| > 0 {
      RelayRecordsAreReadings(device, relays[..|relays| - 1]);
      AllReadingsConcat(RelayRecords(device, relays[..|relays| - 1]), RelayPair(device, |relays| - 1, relays[|relays| - 1]));
    }
  }

  lemma PowerAreReadings(device: string, s: StatusResponse)
    ensures AllReadings(PowerRecords(device, s))
  {
  }

  lemma SystemAreReadings(device: string, s: StatusResponse)
    ensures AllReadings(SystemRecords(device, s))
  {
  }

  lemma FlagsAreReadings(device: string, s: StatusResponse)
    ensures AllReadings(FlagRecords(device, s))
  {
  }

  lemma ReadingGroupsAreReadings(device: string, s: StatusResponse)
    ensures AllReadings(ReadingRecords(device, s))
  {
    PowerAreReadings(device, s);
    SystemAreReadings(device, s);
    FlagsAreReadings(device, s);
    AllReadingsConcat(PowerRecords(device, s), SystemRecords(device, s));
    AllReadingsConcat(PowerRecords(device, s) + SystemRecords(device, s), FlagRecords(device, s));
  }

  /** The head of a reachable device: device_up = 1, then three readings. */
  lemma HeadOnly(device: string, s: StatusResponse, m: Metric)
    requires m != DeviceInfo && m != WifiConnected && m != WifiRssi
    ensures Only(HeadRecords(device, s), m) == if m == DeviceUp then [UpRecord(device, true)] else []
  {
    var head := HeadRecords(device, s);
    OnlyAbsent(head[1..], m);
  }

  lemma OnlyAbsentReadings(rs: seq<Record>, m: Metric)
    requires AllReadings(rs)
    requires m == DeviceUp || m == DeviceCategory || m == CostPerHour || m == DailyCost
    ensures Only(rs, m) == []
  {
    OnlyAbsent(rs, m);
  }

  /** The records with descriptor m among a reachable device's head, relays and
      readings, when m is not a reading: only device_up, and once. */
  lemma OnlyInFront(device: string, s: StatusResponse, m: Metric)
    requires m == DeviceUp || m == DeviceCategory || m == CostPerHour || m == DailyCost
    ensures Only(HeadRecords(device, s) + RelayRecords(device, s.relays) + ReadingRecords(device, s), m)
         == if m == DeviceUp then [UpRecord(device, true)] else []
  {
    var head := HeadRecords(device, s);
    var relays := RelayRecords(device, s.relays);
    var readings := ReadingRecords(device, s);
    OnlyConcat(head + relays, readings, m);
    OnlyConcat(head, relays, m);
    HeadOnly(device, s, m);
    RelayRecordsAreReadings(device, s.relays);
    ReadingGroupsAreReadings(device, s);
    OnlyAbsentReadings(relays, m);
    OnlyAbsentReadings(readings, m);
  }

  /** The records with descriptor m among everything a reachable device sends,
      when m is not a reading. */
  lemma OnlyInStatus(device: string, s: StatusResponse, p: Pricing, m: Metric)
    requires m == DeviceUp || m == DeviceCategory || m == CostPerHour || m == DailyCost
    ensures Only(DeviceRecords(device, Success(s), p), m)
         == (if m == DeviceUp then [UpRecord(device, true)] else []) + Only(CostRecords(device, s, p), m)
  {
    OnlyConcat(HeadRecords(device, s) + RelayRecords(device, s.relays) + ReadingRecords(device, s),
               CostRecords(device, s, p), m);
    OnlyInFront(device, s, m);
  }

  /** The records with descriptor m among the cost records. */
  lemma OnlyInCost(device: string, s: StatusResponse, p: Pricing, m: Metric)
    ensures Only(CostRecords(device, s, p), m)
         == (if m == DeviceCategory then CategoryRecords(device, p.info) else [])
            + Only(PricedRecords(device, s, p), m)
  {
    var category := CategoryRecords(device, p.info);
    OnlyConcat(category, PricedRecords(device, s, p), m);
    if |category| == 1 {
      OnlySingle(category[0], m);
    }
  }

  /** A reachable device: the relays come in index order, two records each,
      right after up, info, WiFi and RSSI. */
  lemma ReachableDeviceRelays(device: string, s: StatusResponse, p: Pricing,
                              j: nat)
    requires j < |s.relays|
    ensures DeviceRecords(device, Success(s), p)[4 + 2 * j]
         == Record(RelayState, GaugeValue, Flag(s.relays[j].isOn), [device, RelayName(j)])
    ensures DeviceRecords(device, Success(s), p)[5 + 2 * j]
         == Record(RelayOverpower, GaugeValue, Flag(s.relays[j].overpower), [device, RelayName(j)])
  {
    var head := HeadRecords(device, s);
    var relays := RelayRecords(device, s.relays);
    var readings := ReadingRecords(device, s);
    var cost := CostRecords(device, s, p);
    RelayRecordsAt(device, s.relays, j);
    forall k | k == 4 + 2 * j || k == 5 + 2 * j
      ensures (head + relays + readings + cost)[k] == relays[k - 4]
    {
      IndexRight(head, relays, k);
      IndexLeft(head + relays, readings, k);
      IndexLeft(head + relays + readings, cost, k);
    }
  }

  /** A reachable device: up first, then info (whose serial label carries the
      MAC) and the WiFi flag, 1 exactly when the station got an address. */
  lemma ReachableDeviceHead(device: string, s: StatusResponse, p: Pricing)
    ensures var rs := DeviceRecords(device, Success(s), p);
      && rs[0] == UpRecord(device, true) && rs[0].value == 1.0
      && rs[1].metric == DeviceInfo && rs[1].labels == [device, s.sys.mac, s.sys.mac, s.sys.availableUpdates.stable.version]
      && rs[2].metric == WifiConnected && (rs[2].value == 1.0 <==> s.wifi.status == "got ip")
  {
    var head := HeadRecords(device, s);
    var relays := RelayRecords(device, s.relays);
    var readings := ReadingRecords(device, s);
    var cost := CostRecords(device, s, p);
    forall k | 0 <= k < 3
      ensures (head + relays + readings + cost)[k] == head[k]
    {
      IndexLeft(head, relays, k);
      IndexLeft(head + relays, readings, k);
      IndexLeft(head + relays + readings, cost, k);
    }
  }

  /** A reachable device: after the relays, the four power records (phases a, b,
      c and the total). */
  lemma ReachableDevicePower(device: string, s: StatusResponse, p: Pricing)
    ensures var rs := DeviceRecords(device, Success(s), p);
      var r := 2 * |s.relays|;
      && |rs| == 19 + r + |CostRecords(device, s, p)|
      && rs[4 + r] == Record(PowerWatts, GaugeValue, s.em.aActPower, [device, "phase_a"])
      && rs[5 + r] == Record(PowerWatts, GaugeValue, s.em.bActPower, [device, "phase_b"])
      && rs[6 + r] == Record(PowerWatts, GaugeValue, s.em.cActPower, [device, "phase_c"])
      && rs[7 + r] == Record(PowerWatts, GaugeValue, s.em.totalActPower, [device, "total"])
    ensures Only(DeviceRecords(device, Success(s), p), PowerWatts) == PowerRecords(device, s)
  {
    PowerWattsOnlyPhases(device, s, p);
    var front := HeadRecords(device, s) + RelayRecords(device, s.relays);
    var power := PowerRecords(device, s);
    var rest := SystemRecords(device, s) + FlagRecords(device, s);
    var cost := CostRecords(device, s, p);
    forall k | 0 <= k < 4
      ensures (front + (power + rest) + cost)[|front| + k] == power[k]
    {
      IndexRight(front, power + rest, |front| + k);
      IndexLeft(power, rest, k);
      IndexLeft(front + (power + rest), cost, |front| + k);
    }
    assert ReadingRecords(device, s) == power + rest;
  }

  /** A reachable device: the over-temperature flag is always 0, and the update
      flag is 1 exactly when a stable version is offered. */
  lemma ReachableDeviceFlags(device: string, s: StatusResponse, p: Pricing)
    ensures var rs := DeviceRecords(device, Success(s), p);
      var r := 2 * |s.relays|;
      && rs[10 + r] == Record(Overtemperature, GaugeValue, 0.0, [device])
      && rs[18 + r].metric == UpdateAvailable
      && (rs[18 + r].value == 1.0 <==> s.sys.availableUpdates.stable.version != "")
  {
    var front := HeadRecords(device, s) + RelayRecords(device, s.relays);
    var readings := ReadingRecords(device, s);
    var cost := CostRecords(device, s, p);
    var power := PowerRecords(device, s);
    var system := SystemRecords(device, s);
    var flags := FlagRecords(device, s);
    IndexRight(front, readings, |front| + 6);
    IndexLeft(front + readings, cost, |front| + 6);
    IndexLeft(power + system, flags, 6);
    IndexRight(power, system, 6);
    IndexRight(front, readings, |front| + 14);
    IndexLeft(front + readings, cost, |front| + 14);
    IndexRight(power + system, flags, 14);
  }

  /** Every relay record is a relay state or a relay overpower record. */
  lemma {:induction false} RelayRecordsAreRelays(device: string, relays: seq<Relay>)
    ensures forall k :: 0 <= k < |RelayRecords(device, relays)| ==>
      RelayRecords(device, relays)[k].metric == RelayState || RelayRecords(device, relays)[k].metric == RelayOverpower
  {
    if |relays| > 0 {
      RelayRecordsAreRelays(device, relays[..|relays| - 1]);
    }
  }

  lemma {:induction false} OnlyAll(rs: seq<Record>, m: Metric)
    requires forall k :: 0 <= k < |rs| ==> rs[k].metric == m
    ensures Only(rs, m) == rs
  {
    if |rs| > 0 {
      OnlyAll(rs[1..], m);
      assert [rs[0]] + rs[1..] == rs;
    }
  }

  /** Among the readings, the power records are the four of PowerRecords. */
  lemma PowerOnlyInReadings(device: string, s: StatusResponse)
    ensures Only(ReadingRecords(device, s), PowerWatts) == PowerRecords(device, s)
  {
    var power := PowerRecords(device, s);
    var system := SystemRecords(device, s);
    var flags := FlagRecords(device, s);
    OnlyConcat(power + system, flags, PowerWatts);
    OnlyConcat(power, system, PowerWatts);
    OnlyAll(power, PowerWatts);
    OnlyAbsent(system, PowerWatts);
    OnlyAbsent(flags, PowerWatts);
  }

  /** A reachable device sends power_watts for the three phases and the total, and no other. */
  lemma PowerWattsOnlyPhases(device: string, s: StatusResponse, p: Pricing)
    ensures Only(DeviceRecords(device, Success(s), p), PowerWatts) == PowerRecords(device, s)
  {
    var head := HeadRecords(device, s);
    var relays := RelayRecords(device, s.relays);
    var readings := ReadingRecords(device, s);
    var cost := CostRecords(device, s, p);
    OnlyConcat(head + relays + readings, cost, PowerWatts);
    OnlyConcat(head + relays, readings, PowerWatts);
    OnlyConcat(head, relays, PowerWatts);
    OnlyAbsent(head, PowerWatts);
    RelayRecordsAreRelays(device, s.relays);
    OnlyAbsent(relays, PowerWatts);
    PowerOnlyInReadings(device, s);
    OnlyInCost(device, s, p, PowerWatts);
    PricedOnlyCost(device, s, p, PowerWatts);
  }

  /** An unreachable device contributes its down record and nothing else. */
  lemma UnreachableDeviceOnlyDown(client: Client, ex: Exchange<StatusResponse>, p: Pricing)
    requires !(ex.Answered? && ex.statusCode == StatusOK && ex.body.Decoded?)
    ensures DeviceRecords(client.BaseURL(), GetStatus(client, ex).result, p)
         == [Record(DeviceUp, GaugeValue, 0.0, [client.BaseURL()])]
  {
  }

  /** The metrics a record of the first sweep can carry: it fits its descriptor,
      is never a power-overpower or heating record, and is a cost record only
      when cost calculation is on. */
  predicate SweepRecord(r: Record, costOn: bool) {
    && FitsDescriptor(r)
    && r.metric != PowerOverpower
    && r.metric != HeatingPercentage
    && (!costOn ==> r.metric != CostPerHour && r.metric != DailyCost)
  }

  predicate AllSweep(rs: seq<Record>, costOn: bool) {
    forall k :: 0 <= k < |rs| ==> SweepRecord(rs[k], costOn)
  }

  lemma AllSweepConcat(a: seq<Record>, b: seq<Record>, costOn: bool)
    requires AllSweep(a, costOn) && AllSweep(b, costOn)
    ensures AllSweep(a + b, costOn)
  {
  }

  lemma ReadingsAreSweep(rs: seq<Record>, costOn: bool)
    requires AllReadings(rs)
    ensures AllSweep(rs, costOn)
  {
  }

  lemma HeadIsSweep(device: string, s: StatusResponse, costOn: bool)
    ensures AllSweep(HeadRecords(device, s), costOn)
  {
  }

  lemma CategoryIsSweep(device: string, info: Option<Configuration.Device>, costOn: bool)
    ensures AllSweep(CategoryRecords(device, info), costOn)
  {
  }

  lemma PricedIsSweep(device: string, s: StatusResponse, p: Pricing)
    ensures AllSweep(PricedRecords(device, s, p), p.costOn)
  {
  }

  lemma CostIsSweep(device: string, s: StatusResponse, p: Pricing)
    ensures AllSweep(CostRecords(device, s, p), p.costOn)
  {
    CategoryIsSweep(device, p.info, p.costOn);
    PricedIsSweep(device, s, p);
    AllSweepConcat(CategoryRecords(device, p.info),
                   PricedRecords(device, s, p), p.costOn);
  }

  /** Every record of one device is a sweep record. */
  lemma DeviceRecordsAreSweep(device: string, outcome: Result<StatusResponse, ClientError>, p: Pricing)
    ensures AllSweep(DeviceRecords(device, outcome, p), p.costOn)
  {
    var on := p.costOn;
    if outcome.Success? {
      var s := outcome.value;
      var head := HeadRecords(device, s);
      var relays := RelayRecords(device, s.relays);
      var readings := ReadingRecords(device, s);
      RelayRecordsAreReadings(device, s.relays);
      ReadingGroupsAreReadings(device, s);
      ReadingsAreSweep(relays, on);
      ReadingsAreSweep(readings, on);
      HeadIsSweep(device, s, on);
      CostIsSweep(device, s, p);
      AllSweepConcat(head, relays, on);
      AllSweepConcat(head + relays, readings, on);
      AllSweepConcat(head + relays + readings, CostRecords(device, s, p), on);
    }
  }

  /** device_up is sent once per device: 1 when its status could be had, else 0. */
  lemma DeviceUpOnce(device: string, outcome: Result<StatusResponse, ClientError>, p: Pricing)
    ensures Only(DeviceRecords(device, outcome, p), DeviceUp) == [UpRecord(device, outcome.Success?)]
  {
    if outcome.Success? {
      var s := outcome.value;
      OnlyInStatus(device, s, p, DeviceUp);
      OnlyInCost(device, s, p, DeviceUp);
      PricedOnlyCost(device, s, p, DeviceUp);
    } else {
      OnlySingle(UpRecord(device, false), DeviceUp);
    }
  }

  // ---------------------------------------------------------------------------
  // The first sweep

  /** device_up of the first sweep, in client order: one per client, 1 exactly when its status could be had. */
  function UpRecords(clients: seq<Client>, sweep: seq<Exchange<StatusResponse>>): seq<Record>
    requires |sweep| == |clients|
  {
    if |clients| == 0 then []
    else
      var n := |clients| - 1;
      UpRecords(clients[..n], sweep[..n]) + [UpRecord(clients[n].BaseURL(), GetStatus(clients[n], sweep[n]).result.Success?)]
  }

  /** Every client is visited, in order, whatever happened to the ones before it. */
  lemma {:induction false} SweepVisitsEveryClient(config: Configuration.Config, clients: seq<Client>,
                                                  sweep: seq<Exchange<StatusResponse>>, clock: seq<MinuteOfDay>)
    requires |sweep| == |clients| && |clock| == |clients|
    ensures Only(SweepRecords(config, clients, sweep, clock), DeviceUp) == UpRecords(clients, sweep)
    ensures AllSweep(SweepRecords(config, clients, sweep, clock), config.costCalculation.enabled)
  {
    if |clients| > 0 {
      var n := |clients| - 1;
      var device := clients[n].BaseURL();
      SweepVisitsEveryClient(config, clients[..n], sweep[..n], clock[..n]);
      var p := PricingAt(config, device, clock[n]);
      var outcome := GetStatus(clients[n], sweep[n]).result;
      SweepUnfold(config, clients, sweep, clock);
      SweepOneMore(SweepRecords(config, clients[..n], sweep[..n], clock[..n]), UpRecords(clients[..n], sweep[..n]),
                   device, outcome, p);
    }
  }

  /** The last client's step of the first sweep and of its device_up list. */
  lemma {:induction false} SweepUnfold(config: Configuration.Config, clients: seq<Client>,
                    sweep: seq<Exchange<StatusResponse>>, clock: seq<MinuteOfDay>)
    requires |sweep| == |clients| && |clock| == |clients| && |clients| > 0
    ensures var n := |clients| - 1;
      var device := clients[n].BaseURL();
      var outcome := GetStatus(clients[n], sweep[n]).result;
      var p := PricingAt(config, device, clock[n]);
      && p.costOn == config.costCalculation.enabled
      && SweepRecords(config, clients, sweep, clock)
           == SweepRecords(config, clients[..n], sweep[..n], clock[..n]) + DeviceRecords(device, outcome, p)
      && UpRecords(clients, sweep) == UpRecords(clients[..n], sweep[..n]) + [UpRecord(device, outcome.Success?)]
  {
    var n := |clients| - 1;
    var device := clients[n].BaseURL();
    var outcome := GetStatus(clients[n], sweep[n]).result;
    var p := PricingAt(config, device, clock[n]);
    assert SweepRecords(config, clients, sweep, clock)
        == SweepRecords(config, clients[..n], sweep[..n], clock[..n]) + DeviceRecords(device, outcome, p);
    assert UpRecords(clients, sweep) == UpRecords(clients[..n], sweep[..n]) + [UpRecord(device, outcome.Success?)];
  }

  /** Appending one device's records to a sweep adds its up record and keeps
      every record a sweep record. */
  lemma SweepOneMore(before: seq<Record>, ups: seq<Record>, device: string,
                     outcome: Result<StatusResponse, ClientError>, p: Pricing)
    requires Only(before, DeviceUp) == ups && AllSweep(before, p.costOn)
    ensures Only(before + DeviceRecords(device, outcome, p), DeviceUp) == ups + [UpRecord(device, outcome.Success?)]
    ensures AllSweep(before + DeviceRecords(device, outcome, p), p.costOn)
  {
    DeviceRecordsAreSweep(device, outcome, p);
    DeviceUpOnce(device, outcome, p);
    OnlyConcat(before, DeviceRecords(device, outcome, p), DeviceUp);
    AllSweepConcat(before, DeviceRecords(device, outcome, p), p.costOn);
  }

  lemma {:induction false} UpRecordsAt(clients: seq<Client>, sweep: seq<Exchange<StatusResponse>>, i: nat)
    requires |sweep| == |clients| && i < |clients|
    ensures |UpRecords(clients, sweep)| == |clients|
    ensures UpRecords(clients, sweep)[i] == UpRecord(clients[i].BaseURL(), GetStatus(clients[i], sweep[i]).result.Success?)
  {
    var n := |clients| - 1;
    if i < n {
      UpRecordsAt(clients[..n], sweep[..n], i);
      assert clients[..n][i] == clients[i] && sweep[..n][i] == sweep[i];
    } else if n > 0 {
      UpRecordsAt(clients[..n], sweep[..n], 0);
    }
  }

  // ---------------------------------------------------------------------------
  // Cost records

  /** The category record appears exactly when the device is reachable and
      configured, and carries its name, category and description. */
  lemma CategoryRecordIffConfigured(device: string, outcome: Result<StatusResponse, ClientError>, p: Pricing)
    ensures outcome.Success? ==>
      Only(DeviceRecords(device, outcome, p), DeviceCategory)
        == CategoryRecords(device, p.info)
    ensures outcome.Failure? ==> Only(DeviceRecords(device, outcome, p), DeviceCategory) == []
    ensures |Only(DeviceRecords(device, outcome, p), DeviceCategory)| == 1
        <==> outcome.Success? && p.info.Some?
  {
    if outcome.Success? {
      CategoryInStatus(device, outcome.value, p);
    } else {
      OnlySingle(UpRecord(device, false), DeviceCategory);
    }
  }

  lemma CategoryInStatus(device: string, s: StatusResponse, p: Pricing)
    ensures Only(DeviceRecords(device, Success(s), p), DeviceCategory) == CategoryRecords(device, p.info)
  {
    OnlyInStatus(device, s, p, DeviceCategory);
    OnlyInCost(device, s, p, DeviceCategory);
    PricedOnlyCost(device, s, p, DeviceCategory);
  }

  /** With cost calculation on, a reachable device gets one hourly and one daily
      cost record: power times rate over 1000, and 24 times that, both labelled
      with the configured category or "unknown". */
  lemma CostRecordsValues(device: string, s: StatusResponse, p: Pricing)
    requires p.costOn
    ensures var hourly := EffectivePower(s) * p.rate / 1000.0;
      && Only(DeviceRecords(device, Success(s), p), CostPerHour)
           == [Record(CostPerHour, GaugeValue, hourly, [device, CategoryOf(p.info)])]
      && Only(DeviceRecords(device, Success(s), p), DailyCost)
           == [Record(DailyCost, GaugeValue, hourly * 24.0, [device, CategoryOf(p.info)])]
  {
    OnlyPricedRecord(device, s, p, CostPerHour);
    OnlyPricedRecord(device, s, p, DailyCost);
    PricedRecordsValues(device, s, p);
  }

  /** The hourly and daily cost records, when m is one of the two. */
  lemma OnlyPricedRecord(device: string, s: StatusResponse, p: Pricing, m: Metric)
    requires p.costOn
    requires m == CostPerHour || m == DailyCost
    ensures Only(DeviceRecords(device, Success(s), p), m)
         == [PricedRecords(device, s, p)[if m == CostPerHour then 0 else 1]]
  {
    var priced := PricedRecords(device, s, p);
    OnlyInStatus(device, s, p, m);
    OnlyInCost(device, s, p, m);
    OnlyPair(priced[0], priced[1], m);
  }

  lemma PricedRecordsValues(device: string, s: StatusResponse, p: Pricing)
    requires p.costOn
    ensures var hourly := EffectivePower(s) * p.rate / 1000.0;
      PricedRecords(device, s, p)
        == [Record(CostPerHour, GaugeValue, hourly, [device, CategoryOf(p.info)]),
            Record(DailyCost, GaugeValue, hourly * 24.0, [device, CategoryOf(p.info)])]
  {
    var pr := PricedRecords(device, s, p);
    assert pr[1].value == EffectivePower(s) * p.rate / 1000.0 * 24.0;
  }

  /** The power rule prefers a positive meter total, even over a larger first meter. */
  lemma EffectivePowerPrefersTotal(s: StatusResponse)
    ensures s.em.totalActPower > 0.0 ==> EffectivePower(s) == s.em.totalActPower
    ensures s.em.totalActPower <= 0.0 && |s.meters| > 0 ==> EffectivePower(s) == s.meters[0].power
    ensures s.em.totalActPower <= 0.0 && |s.meters| == 0 ==> EffectivePower(s) == 0.0
    ensures s.em.totalActPower > 0.0 || |s.meters| == 0 || s.meters[0].power >= 0.0 ==> EffectivePower(s) >= 0.0
  {
  }

  /** Both sweeps derive a device's power and category by the same rule: given
      the same status, the heating sweep's contribution and the hourly cost
      record use the same category and effective power. */
  lemma SweepsAgreeOnPower(config: Configuration.Config, client: Client, ex: Exchange<StatusResponse>,
                           s: StatusResponse, p: Pricing)
    requires p.costOn && p.info == Configuration.GetDeviceByURL(config, client.BaseURL())
    requires GetStatus(client, ex).result == Success(s)
    ensures Contribution(config, client, ex) == [(CategoryOf(p.info), EffectivePower(s))]
    ensures Only(DeviceRecords(client.BaseURL(), Success(s), p), CostPerHour)
         == [Record(CostPerHour, GaugeValue, EffectivePower(s) * p.rate / 1000.0, [client.BaseURL(), CategoryOf(p.info)])]
  {
    CostRecordsValues(client.BaseURL(), s, p);
  }

  /** A validated configuration prices every reachable device's consumption at a
      non-negative cost. */
  lemma ValidatedCostsNonNegative(config: Configuration.Config, device: string, s: StatusResponse, now: MinuteOfDay)
    requires Configuration.WellFormed(config) && config.costCalculation.enabled
    requires EffectivePower(s) >= 0.0
    ensures var rs := DeviceRecords(device, Success(s), PricingAt(config, device, now));
      && |Only(rs, CostPerHour)| == 1 && Only(rs, CostPerHour)[0].value >= 0.0
      && |Only(rs, DailyCost)| == 1 && Only(rs, DailyCost)[0].value >= 0.0
  {
    Configuration.ValidatedRatePositive(config, now);
    CostsNonNegative(device, s, PricingAt(config, device, now));
  }

  /** A non-negative rate prices a non-negative consumption at a non-negative cost. */
  lemma CostsNonNegative(device: string, s: StatusResponse, p: Pricing)
    requires p.costOn && p.rate >= 0.0 && EffectivePower(s) >= 0.0
    ensures var rs := DeviceRecords(device, Success(s), p);
      && |Only(rs, CostPerHour)| == 1 && Only(rs, CostPerHour)[0].value >= 0.0
      && |Only(rs, DailyCost)| == 1 && Only(rs, DailyCost)[0].value >= 0.0
  {
    ProductNonNegative(EffectivePower(s), p.rate);
    CostRecordsValues(device, s, p);
  }

  // Proof helper: real arithmetic, models nothing of the exporter.
  lemma ProductNonNegative(a: real, b: real)
    requires a >= 0.0 && b >= 0.0
    ensures a * b >= 0.0
  {
  }

  // ---------------------------------------------------------------------------
  // The heating sweep

  predicate Distinct(ks: seq<string>) {
    forall i, j :: 0 <= i < j < |ks| ==> ks[i] != ks[j]
  }

  /** The categories seen, in order of first appearance. */
  function Categories(cs: seq<(string, real)>): seq<string> {
    if |cs| == 0 then []
    else
      var ks := Categories(cs[..|cs| - 1]);
      if cs[|cs| - 1].0 in ks then ks else ks + [cs[|cs| - 1].0]
  }

  /** The sum of the accumulators named in ks. */
  ghost function SumOver(m: map<string, real>, ks: seq<string>): real
    requires forall k :: k in ks ==> k in m
  {
    if |ks| == 0 then 0.0 else SumOver(m, ks[..|ks| - 1]) + m[ks[|ks| - 1]]
  }

  /** Each category is listed once. */
  lemma {:induction false} CategoriesDistinct(cs: seq<(string, real)>)
    ensures Distinct(Categories(cs))
  {
    if |cs| > 0 {
      CategoriesDistinct(cs[..|cs| - 1]);
    }
  }

  /** A category not yet listed has no accumulator yet. */
  lemma {:induction false} UnlistedHasNoTotal(cs: seq<(string, real)>, key: string)
    ensures key !in Categories(cs) ==> key !in CategoryTotals(cs)
  {
    if |cs| > 0 {
      UnlistedHasNoTotal(cs[..|cs| - 1], key);
    }
  }

  lemma {:induction false} SumOverAgree(m1: map<string, real>, m2: map<string, real>, ks: seq<string>)
    requires forall k :: k in ks ==> k in m1 && k in m2 && m1[k] == m2[k]
    ensures SumOver(m1, ks) == SumOver(m2, ks)
  {
    if |ks| > 0 {
      SumOverAgree(m1, m2, ks[..|ks| - 1]);
    }
  }

  lemma {:induction false} SumOverBump(m: map<string, real>, ks: seq<string>, key: string, p: real)
    requires forall k :: k in ks ==> k in m
    requires Distinct(ks) && key in ks
    ensures SumOver(m[key := m[key] + p], ks) == SumOver(m, ks) + p
  {
    var n := |ks| - 1;
    var prefix := ks[..n];
    var bumped := m[key := m[key] + p];
    if ks[n] == key {
      assert key !in prefix;
      SumOverAgree(bumped, m, prefix);
    } else {
      assert key in prefix;
      SumOverBump(m, prefix, key, p);
    }
  }

  lemma SumOverExtend(m: map<string, real>, ks: seq<string>, key: string, p: real)
    requires forall k :: k in ks ==> k in m
    requires key !in ks
    ensures SumOver(m[key := p], ks + [key]) == SumOver(m, ks) + p
  {
    assert (ks + [key])[..|ks|] == ks;
    SumOverAgree(m[key := p], m, ks);
  }

  /** The running total is the sum of the per-category accumulators: the
      categories are listed once each, the accumulators are exactly those of
      the listed categories, and the total is their sum. */
  lemma GrandTotalIsSumOfCategories(cs: seq<(string, real)>)
    ensures Distinct(Categories(cs))
    ensures forall k :: k in CategoryTotals(cs) <==> k in Categories(cs)
    ensures GrandTotal(cs) == SumOver(CategoryTotals(cs), Categories(cs))
  {
    CategoriesDistinct(cs);
    forall k | k in CategoryTotals(cs)
      ensures k in Categories(cs)
    {
      UnlistedHasNoTotal(cs, k);
    }
    TotalIsSumOver(cs);
  }

  /** The induction behind GrandTotalIsSumOfCategories. */
  lemma {:induction false} TotalIsSumOver(cs: seq<(string, real)>)
    ensures forall k :: k in Categories(cs) ==> k in CategoryTotals(cs)
    ensures GrandTotal(cs) == SumOver(CategoryTotals(cs), Categories(cs))
  {
    if |cs| > 0 {
      var prefix := cs[..|cs| - 1];
      TotalIsSumOver(prefix);
      CategoriesDistinct(prefix);
      UnlistedHasNoTotal(prefix, cs[|cs| - 1].0);
      var m := CategoryTotals(prefix);
      var ks := Categories(prefix);
      var category := cs[|cs| - 1].0;
      var power := cs[|cs| - 1].1;
      AccumulationStep(cs);
      SumAfterAdding(m, ks, category, power, CategoryTotals(cs), Categories(cs));
    }
  }

  /** One more contribution, as each accumulator sees it. */
  lemma AccumulationStep(cs: seq<(string, real)>)
    requires |cs| > 0
    ensures var prefix := cs[..|cs| - 1];
      var category := cs[|cs| - 1].0;
      var power := cs[|cs| - 1].1;
      && CategoryTotals(cs) == CategoryTotals(prefix)[category := Lookup(CategoryTotals(prefix), category) + power]
      && Categories(cs) == (if category in Categories(prefix) then Categories(prefix) else Categories(prefix) + [category])
      && GrandTotal(cs) == GrandTotal(prefix) + power
  {
  }

  /** Adding power to one accumulator adds it to the sum over all of them. */
  lemma SumAfterAdding(m: map<string, real>, ks: seq<string>, category: string, power: real,
                       m': map<string, real>, ks': seq<string>)
    requires Distinct(ks)
    requires forall k :: k in ks ==> k in m
    requires category !in ks ==> category !in m
    requires m' == m[category := Lookup(m, category) + power]
    requires ks' == if category in ks then ks else ks + [category]
    ensures forall k :: k in ks' ==> k in m'
    ensures SumOver(m', ks') == SumOver(m, ks) + power
  {
    if category in ks {
      SumOverBump(m, ks, category, power);
    } else {
      SumOverExtend(m, ks, category, Lookup(m, category) + power);
    }
  }

  /** With no negative readings the heating share is a percentage. */
  lemma HeatingShareIsPercentage(cs: seq<(string, real)>)
    requires forall i :: 0 <= i < |cs| ==> cs[i].1 >= 0.0
    ensures 0.0 <= HeatingShare(cs) <= 100.0
  {
    CategoryWithinTotal(cs, "heating");
    ShareIsPercentage(CategoryTotals(cs), GrandTotal(cs));
  }

  /** With no negative readings each accumulator lies between 0 and the total. */
  lemma {:induction false} CategoryWithinTotal(cs: seq<(string, real)>, key: string)
    requires forall i :: 0 <= i < |cs| ==> cs[i].1 >= 0.0
    ensures 0.0 <= Lookup(CategoryTotals(cs), key) <= GrandTotal(cs)
  {
    if |cs| > 0 {
      var prefix := cs[..|cs| - 1];
      assert forall i :: 0 <= i < |prefix| ==> prefix[i] == cs[i];
      CategoryWithinTotal(prefix, key);
      AccumulationStep(cs);
    }
  }

  /** A heating sum within the total gives a percentage; no positive total gives 0. */
  lemma ShareIsPercentage(totals: map<string, real>, total: real)
    requires 0.0 <= Lookup(totals, "heating") <= total
    ensures 0.0 <= Share(totals, total) <= 100.0
    ensures total <= 0.0 ==> Share(totals, total) == 0.0
  {
    if total > 0.0 {
      QuotientAtMostOne(Lookup(totals, "heating"), total);
    }
  }

  lemma QuotientAtMostOne(part: real, whole: real)
    requires 0.0 <= part <= whole && whole > 0.0
    ensures 0.0 <= part / whole <= 1.0
  {
    assert part / whole * whole == part;
  }

  lemma {:induction false} ContributionsNonNegative(config: Configuration.Config, clients: seq<Client>,
                                                    sweep: seq<Exchange<StatusResponse>>)
    requires |sweep| == |clients|
    requires forall i :: 0 <= i < |clients| ==> NonNegativeReading(clients[i], sweep[i])
    ensures forall j :: 0 <= j < |Contributions(config, clients, sweep)| ==> Contributions(config, clients, sweep)[j].1 >= 0.0
  {
    if |clients| > 0 {
      var n := |clients| - 1;
      ContributionsNonNegative(config, clients[..n], sweep[..n]);
    }
  }

  /** The device either did not answer or reports no negative effective power. */
  predicate NonNegativeReading(client: Client, ex: Exchange<StatusResponse>) {
    GetStatus(client, ex).result.Success? ==> EffectivePower(GetStatus(client, ex).result.value) >= 0.0
  }

  /** Every heating record carries the one share, labelled with a configured client,
      and every configured client gets one. */
  lemma {:induction false} HeatingRecordsPerConfiguredClient(config: Configuration.Config, clients: seq<Client>, share: real)
    ensures forall k :: 0 <= k < |HeatingRecords(config, clients, share)| ==>
      ShareRecordOf(HeatingRecords(config, clients, share)[k], config, clients, share)
    ensures forall i :: 0 <= i < |clients| && Configured(config, clients[i]) ==>
      Record(HeatingPercentage, GaugeValue, share, [clients[i].BaseURL()]) in HeatingRecords(config, clients, share)
  {
    HeatingRecordsLabelled(config, clients, share);
    HeatingRecordsCoverConfigured(config, clients, share);
  }

  /** A client that has device metadata in the configuration. */
  predicate Configured(config: Configuration.Config, client: Client) {
    Configuration.GetDeviceByURL(config, client.BaseURL()).Some?
  }

  /** A heating gauge carrying the share, labelled with the URL of a configured client. */
  predicate ShareRecordOf(r: Record, config: Configuration.Config, clients: seq<Client>, share: real) {
    && r.metric == HeatingPercentage && r.valueType == GaugeValue && r.value == share
    && exists i :: 0 <= i < |clients| && r.labels == [clients[i].BaseURL()] && Configured(config, clients[i])
  }

  lemma {:induction false} HeatingRecordsLabelled(config: Configuration.Config, clients: seq<Client>, share: real)
    ensures forall k :: 0 <= k < |HeatingRecords(config, clients, share)| ==>
      ShareRecordOf(HeatingRecords(config, clients, share)[k], config, clients, share)
  {
    if |clients| > 0 {
      var n := |clients| - 1;
      var before := HeatingRecords(config, clients[..n], share);
      var last: seq<Record> := if Configured(config, clients[n]) then [Record(HeatingPercentage, GaugeValue, share, [clients[n].BaseURL()])] else [];
      HeatingRecordsLabelled(config, clients[..n], share);
      assert HeatingRecords(config, clients, share) == before + last;
      forall k | 0 <= k < |before + last|
        ensures ShareRecordOf((before + last)[k], config, clients, share)
      {
        if k < |before| {
          var r := before[k];
          assert ShareRecordOf(r, config, clients[..n], share);
          var i :| 0 <= i < n && r.labels == [clients[..n][i].BaseURL()] && Configured(config, clients[..n][i]);
          assert clients[..n][i] == clients[i];
          assert (before + last)[k] == r;
        } else {
          assert (before + last)[k] == last[0];
        }
      }
    }
  }

  lemma {:induction false} HeatingRecordsCoverConfigured(config: Configuration.Config, clients: seq<Client>, share: real)
    ensures forall i :: 0 <= i < |clients| && Configured(config, clients[i]) ==>
      Record(HeatingPercentage, GaugeValue, share, [clients[i].BaseURL()]) in HeatingRecords(config, clients, share)
  {
    if |clients| > 0 {
      var n := |clients| - 1;
      var before := HeatingRecords(config, clients[..n], share);
      var last: seq<Record> := if Configured(config, clients[n]) then [Record(HeatingPercentage, GaugeValue, share, [clients[n].BaseURL()])] else [];
      HeatingRecordsCoverConfigured(config, clients[..n], share);
      assert HeatingRecords(config, clients, share) == before + last;
      forall i | 0 <= i < |clients| && Configured(config, clients[i])
        ensures Record(HeatingPercentage, GaugeValue, share, [clients[i].BaseURL()]) in before + last
      {
        if i < n {
          assert clients[..n][i] == clients[i];
        }
      }
    }
  }

  /** With no negative readings every heating record is between 0 and 100. */
  lemma HeatingSharesInRange(config: Configuration.Config, clients: seq<Client>, sweep: seq<Exchange<StatusResponse>>)
    requires |sweep| == |clients|
    requires forall i :: 0 <= i < |clients| ==> NonNegativeReading(clients[i], sweep[i])
    ensures forall k :: 0 <= k < |HeatingSection(config, clients, sweep)| ==>
      0.0 <= HeatingSection(config, clients, sweep)[k].value <= 100.0
  {
    if config.costCalculation.enabled {
      var cs := Contributions(config, clients, sweep);
      ContributionsNonNegative(config, clients, sweep);
      HeatingShareIsPercentage(cs);
      HeatingRecordsPerConfiguredClient(config, clients, HeatingShare(cs));
    }
  }

  /** Devices that do not answer the heating sweep add nothing; if none answers,
      every share is 0. */
  lemma {:induction false} UnreachableDevicesAddNothing(config: Configuration.Config, clients: seq<Client>,
                                                        sweep: seq<Exchange<StatusResponse>>)
    requires |sweep| == |clients|
    requires forall i :: 0 <= i < |clients| ==> GetStatus(clients[i], sweep[i]).result.Failure?
    ensures Contributions(config, clients, sweep) == []
    ensures forall k :: 0 <= k < |HeatingSection(config, clients, sweep)| ==> HeatingSection(config, clients, sweep)[k].value == 0.0
  {
    if |clients| > 0 {
      var n := |clients| - 1;
      UnreachableDevicesAddNothing(config, clients[..n], sweep[..n]);
    }
    HeatingRecordsPerConfiguredClient(config, clients, 0.0);
  }

  // ---------------------------------------------------------------------------
  // One scrape

  /** What Collect sends: every record fits its descriptor, power-overpower is
      never sent, and the heating records come after every device record. */
  lemma ScrapeShape(config: Configuration.Config, clients: seq<Client>, firstSweep: seq<Exchange<StatusResponse>>,
                    heatSweep: seq<Exchange<StatusResponse>>, clock: seq<MinuteOfDay>)
    requires |firstSweep| == |clients| && |heatSweep| == |clients| && |clock| == |clients|
    ensures var out := ScrapeRecords(config, clients, firstSweep, heatSweep, clock);
      var n := |SweepRecords(config, clients, firstSweep, clock)|;
      && (forall k :: 0 <= k < |out| ==> FitsDescriptor(out[k]) && out[k].metric != PowerOverpower)
      && (forall k :: 0 <= k < |out| ==> (out[k].metric == HeatingPercentage <==> n <= k))
  {
    SweepVisitsEveryClient(config, clients, firstSweep, clock);
    HeatingSectionIsHeating(config, clients, heatSweep);
    SweepThenHeating(SweepRecords(config, clients, firstSweep, clock), HeatingSection(config, clients, heatSweep),
                     config.costCalculation.enabled);
  }

  predicate AllHeating(rs: seq<Record>) {
    forall k :: 0 <= k < |rs| ==> rs[k].metric == HeatingPercentage && FitsDescriptor(rs[k])
  }

  lemma {:induction false} HeatingRecordsAreHeating(config: Configuration.Config, clients: seq<Client>, share: real)
    ensures AllHeating(HeatingRecords(config, clients, share))
  {
    if |clients| > 0 {
      HeatingRecordsAreHeating(config, clients[..|clients| - 1], share);
    }
  }

  lemma HeatingSectionIsHeating(config: Configuration.Config, clients: seq<Client>, sweep: seq<Exchange<StatusResponse>>)
    requires |sweep| == |clients|
    ensures AllHeating(HeatingSection(config, clients, sweep))
  {
    if config.costCalculation.enabled {
      HeatingRecordsAreHeating(config, clients, HeatingShare(Contributions(config, clients, sweep)));
    }
  }

  lemma SweepThenHeating(a: seq<Record>, b: seq<Record>, costOn: bool)
    requires AllSweep(a, costOn) && AllHeating(b)
    ensures forall k :: 0 <= k < |a + b| ==> FitsDescriptor((a + b)[k]) && (a + b)[k].metric != PowerOverpower
    ensures forall k :: 0 <= k < |a + b| ==> ((a + b)[k].metric == HeatingPercentage <==> |a| <= k)
  {
  }

  /** With cost calculation off, no cost, daily-cost or heating record is sent. */
  lemma CostOffMeansNoCostRecords(config: Configuration.Config, clients: seq<Client>, firstSweep: seq<Exchange<StatusResponse>>,
                                  heatSweep: seq<Exchange<StatusResponse>>, clock: seq<MinuteOfDay>)
    requires |firstSweep| == |clients| && |heatSweep| == |clients| && |clock| == |clients|
    requires !config.costCalculation.enabled
    ensures forall r :: r in ScrapeRecords(config, clients, firstSweep, heatSweep, clock) ==>
      r.metric != CostPerHour && r.metric != DailyCost && r.metric != HeatingPercentage
  {
    SweepVisitsEveryClient(config, clients, firstSweep, clock);
  }
}
