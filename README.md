# Shelly Prometheus exporter — verified model of its core

This project models the logic at the core of the Shelly Prometheus exporter and proves properties about it. The exporter is a Go service. It polls Shelly smart-plug and energy-meter devices over HTTP and republishes what they report as Prometheus metrics. The model covers three parts.

* **Configuration** (`config.dfy`, module `Configuration`):
  * the configuration record;
  * `Validate`, which collects one message per failed check;
  * `GetAllDeviceURLs`;
  * `GetDeviceByURL`, a first-match lookup;
  * `GetCurrentRate`, which resolves the electricity rate from an ordered list of `"HH:MM-HH:MM"` rules. A rule is either a normal range or an overnight range that wraps past midnight.
* **Device client** (`client.dfy`, module `ShellyClient`):
  * the `StatusResponse` record a device returns;
  * `New` and `BaseURL`;
  * `GetStatus` and `GetMeters` as pure classifications of one HTTP exchange. An exchange is rejected before sending, fails in transport, or is answered with a status code and a body that decodes or not.
* **Collector** (`metrics.dfy`, module `Metrics`):
  * one Prometheus scrape, `Collect`, as the sequence of constant metrics it sends down its channel;
  * the first sweep: `collectDeviceMetrics` runs once per client, in client order, and, for each client that answered, `collectCostMetrics`;
  * then the heating sweep, `collectHeatingPercentage`. With cost calculation on, it queries every device again, sums power per category and in total, and emits the heating share for every configured device. With cost calculation off it sends nothing.

Helpers:
* `clock.dfy` (module `Clock`) models Go's `time.Parse("15:04", …)` and `Format("15:04")` on minutes of the day.
* `text.dfy` (module `Text`) models `strings.Split`, `strings.Join` and decimal rendering.
* `wrappers.dfy` holds `Option` and `Result`.

How the imperative Go functions are modelled:
* The Go loops are methods with loop invariants: `ValidateDevices`, `ValidateCost`, `GetAllDeviceURLs`, `CollectDevices`, the relay loop in `CollectDeviceMetrics`, `AccumulatePower` and `ReportShares`. The straight-line parts (`ValidateGeneral`, `ValidateTls`, `ReportHead`, `ReportReadings`, `CollectCostMetrics`) are methods without loops that append in source order.
* Each such method is proved equal to a specification function, such as `Checks`, `SweepRecords`, `HeatingSection` or `CategoryTotals`. The lemmas prove what the source promises about those functions.
* `GetDeviceByURL` and `GetCurrentRate` are first-match scans. They are recursive functions with lemmas.

What the model takes as inputs:
* every HTTP exchange (one per client for each sweep);
* one reading of the clock (a minute of the day) per device. The Go code calls `time.Now()` inside every `GetCurrentRate`.

The collector holds no mutable state: after `NewCollector` its fields are only read. It is therefore a datatype whose methods return the records they emit.

Where the code does something other than what the repository's tests or comments expect, this model follows the code:
* A rule whose end is `"24:00"` is malformed and skipped, because the `15:04` layout accepts hours 0..23 only. `internal/config/config_test.go:432` labels `"22:00-24:00"` as a night rate, but the code never matches it, and the test only checks that some positive rate comes back. With the test schedule `00:00-06:00, 06:00-22:00, 22:00-24:00`, the default rate therefore applies after 22:00 (`DayNightLateEvening`).
* `GetStatus` uses the RPC endpoint only. `internal/client/client_test.go:226-305` expects a fallback to the legacy `/status` endpoint after a 404. The code has none and reports the unexpected status code.
* `GetMeters` ignores the response body and returns the zero `MetersResponse` on status 200. `internal/client/client_test.go:355-377` expects the power and total from the body.
* `StatusResponse` carries `relays` and `meters` lists. The collector reads them (`internal/metrics/metrics.go:338`, `:531`, `:597`), although the Go struct in `internal/client/client.go` does not declare them.

Other behaviour of the code worth knowing:
* The effective power of a device is a priority rule. It is the meter total when that is positive, else the first meter's power, else 0 (`EffectivePowerPrefersTotal`).
* The `serial` label of `shelly_device_info` carries the MAC address (`internal/metrics/metrics.go:311-312`).

## Model

| member | source | states |
|---|---|---|
| Configuration.GeneralChecksMembership | internal/config/config.go:125-147 | a general error is reported exactly when its check fails: empty listen address or metrics path, no devices in either list, interval or timeout not positive, timeout not below interval |
| Configuration.DeviceErrorsMembership | internal/config/config.go:150-160 | device i reports an empty url, name or category exactly when that field is empty |
| Configuration.RateErrorsMembership | internal/config/config.go:167-174 | rule i reports an empty time or a rate not positive exactly when that holds |
| Configuration.CostChecksMembership | internal/config/config.go:163-175 | cost errors appear only with cost calculation on: a default rate not positive, or a faulty rule |
| Configuration.TlsChecksMembership | internal/config/config.go:178-185 | with TLS on, a missing key file or a missing cert file is reported exactly when only the other one is set |
| Configuration.DeviceChecksListViolations | internal/config/config.go:150-160 | the device errors are exactly the violations over all devices, by index |
| Configuration.RateChecksListViolations | internal/config/config.go:167-174 | the rule errors are exactly the violations over all rules, by index |
| Configuration.ChecksListViolations | internal/config/config.go:122-185 | an error is in the collected list if and only if its check is violated |
| Configuration.ChecksEmptyIffWellFormed | internal/config/config.go:187-191 | the collected list is empty if and only if the configuration is well formed |
| Configuration.Messages | internal/config/config.go:122-185 | one message per collected error, the i-th message for the i-th error |
| Configuration.Validate | internal/config/config.go:122-192 | returns no error if and only if the configuration is well formed; otherwise "validation failed: " followed by the messages joined with "; ", in check order |
| Configuration.ValidateGeneral | internal/config/config.go:125-147 | appends the general errors in the order of the checks |
| Configuration.ValidateDevices | internal/config/config.go:150-160 | appends the errors of every device, in index order |
| Configuration.ValidateDevice | internal/config/config.go:151-159 | appends the url, name and category errors of one device |
| Configuration.ValidateCost | internal/config/config.go:163-175 | with cost on, appends the default-rate error and then the errors of every rule in index order; nothing with cost off |
| Configuration.ValidateRate | internal/config/config.go:168-173 | appends the time and rate errors of one rule |
| Configuration.ValidateTls | internal/config/config.go:178-185 | with TLS on, appends the key-file and cert-file errors |
| Configuration.GetAllDeviceURLs | internal/config/config.go:194-207 | the legacy URLs followed by every device URL in index order; the length is the sum of both lengths |
| Configuration.FindDevice | internal/config/config.go:210-216 | a found device is in the list and has the URL; nothing is found if and only if no device has it |
| Configuration.GetDeviceByURL | internal/config/config.go:209-217 | a found device is configured and has the URL; none if and only if no configured device has it |
| Configuration.FindDeviceIsFirst | internal/config/config.go:211-214 | the lookup returns the first device with the URL |
| Configuration.ParseRange | internal/config/config.go:237-251 | a parsed rule has both ends within the day |
| Configuration.ScanRates | internal/config/config.go:235-267 | the result is the default or the rate of a rule that matches now |
| Configuration.GetCurrentRate | internal/config/config.go:219-268 | 0 when cost calculation is off; otherwise the default rate or the rate of a matching rule |
| Configuration.RuleMatchesOnMinutes | internal/config/config.go:253-263 | a normal rule matches iff start <= now <= end; an overnight rule iff now >= start or now <= end; both ends inclusive |
| Configuration.OvernightIsComplementOfGap | internal/config/config.go:258-263 | an overnight rule matches exactly outside the open gap between its end and its start |
| Configuration.MalformedRuleSkipped | internal/config/config.go:237-240 | a rule that does not split into two parts never matches |
| Configuration.FirstMatchWins | internal/config/config.go:235-264 | with cost on, the earliest matching rule gives the rate |
| Configuration.ScanFirstMatch | internal/config/config.go:235-264 | the scan returns the rate of the earliest matching rule |
| Configuration.NoMatchGivesDefault | internal/config/config.go:266-267 | with cost on and no matching rule (for instance no rules at all), the default rate |
| Configuration.ScanNoMatch | internal/config/config.go:266-267 | a scan with no matching rule returns the default |
| Configuration.LaterRulesNeverOverride | internal/config/config.go:235-264 | rules appended after a matching rule do not change the result |
| Configuration.SecondRuleApplies | internal/config/config.go:235-264 | the second rule applies when the first misses and the second matches |
| Configuration.NoneOfThreeMatch | internal/config/config.go:266-267 | three missing rules give the default rate |
| Configuration.ValidatedRatePositive | internal/config/config.go:163-174 | a validated configuration with cost on always resolves to a positive rate |
| Configuration.SplitRule | internal/config/config.go:237 | "start-end" splits into exactly its two parts when neither contains a dash |
| Configuration.NightRangeParses | internal/config/config_test.go:430 | "00:00-06:00" is the minutes 0..360 |
| Configuration.DayRangeParses | internal/config/config_test.go:431 | "06:00-22:00" is the minutes 360..1320 |
| Configuration.LateRangeRejected | internal/config/config_test.go:432 | "22:00-24:00" is malformed |
| Configuration.OvernightRangeParses | internal/config/config_test.go:452 | "22:00-06:00" is the overnight range 1320..360 |
| Configuration.InvalidRangeRejected | internal/config/config_test.go:443 | "invalid-format" splits in two but does not parse |
| Configuration.DayNightEarlyMorning | internal/config/config_test.go:429-439 | under the day/night schedule of the tests, 0.12 up to 06:00 |
| Configuration.DayNightDaytime | internal/config/config_test.go:429-439 | under the day/night schedule, 0.18 after 06:00 up to 22:00 |
| Configuration.DayNightLateEvening | internal/config/config_test.go:429-439 | under the day/night schedule, the default 0.15 after 22:00, since "22:00-24:00" never matches |
| Configuration.OvernightAtNight | internal/config/config_test.go:450-458 | under the overnight schedule, 0.10 from 22:00 to 06:00 |
| Configuration.OvernightDaytime | internal/config/config_test.go:450-458 | under the overnight schedule, 0.18 strictly between 06:00 and 22:00 |
| Configuration.InvalidScheduleGivesDefault | internal/config/config_test.go:441-448 | a schedule with only "invalid-format" always gives the default 0.15 |
| Clock.ParseClock | internal/config/config.go:246-248 | a parsed time is a minute of the day |
| Clock.FormatClock | internal/config/config.go:232 | the formatted time has five characters |
| Clock.ParseFormatRoundTrip | internal/config/config.go:232-248 | parsing a formatted minute gives it back |
| Clock.FormatParseRoundTrip | internal/config/config.go:246-248 | a five-character time that parses formats back to itself |
| Clock.MidnightAsTwentyFourRejected | internal/config/config.go:246-247 | "24:00" does not parse |
| Clock.OneDigitHourAccepted | internal/config/config.go:246-247 | a one-digit hour parses; a one-digit minute does not |
| Text.DecimalString | internal/metrics/metrics.go:339 | the rendering is a non-empty string of digits, of two or more digits exactly from 10 up |
| Text.DecimalStringInjective | internal/metrics/metrics.go:339 | different numbers render differently |
| Text.Split | internal/config/config.go:237 | splitting always gives at least one part |
| Text.SplitCount | internal/config/config.go:237-238 | splitting gives one more part than there are separators |
| Text.SplitPiecesFree | internal/config/config.go:237 | no part contains the separator |
| Text.SplitJoin | internal/config/config.go:237 | joining the parts with the separator gives the string back |
| Text.SplitWithoutSeparator | internal/config/config.go:237-240 | a string without the separator is one part |
| Text.SplitAtFirst | internal/config/config.go:237 | splitting breaks at the first separator |
| ShellyClient.New | internal/client/client.go:21-54 | keeps the base URL, sets the timeout from the configuration, and sets a TLS setting, with its verification flag, exactly when TLS is on |
| ShellyClient.Sent | internal/client/client.go:65-73 | at most one request, to the given URL, and none when request creation fails |
| ShellyClient.GetStatus | internal/client/client.go:61-87 | requests the status URL; succeeds if and only if the device answered 200 with a decodable body |
| ShellyClient.GetMeters | internal/client/client.go:89-110 | requests the meter URL; succeeds if and only if the device answered 200, and then always with the zero `MetersResponse` |
| ShellyClient.NewKeepsBaseURL | internal/client/client.go:49-59 | BaseURL returns exactly the string given to New, the empty string included |
| ShellyClient.RequestsStayOnDevice | internal/client/client.go:63-91 | both request URLs start with the base URL and differ from each other |
| ShellyClient.GetStatusReturnsDecoded | internal/client/client.go:80-86 | a successful status is the decoded body, unchanged |
| ShellyClient.ErrorsByCause | internal/client/client.go:65-106 | request creation, transport, status code and decoding failures give their own error |
| ShellyClient.GetStatusFailsWithoutRecord | internal/client/client.go:70-84 | a transport failure, a non-200 status or an undecodable body is an error after exactly one request, with no retry |
| ShellyClient.GetMetersIgnoresBody | internal/client/client.go:108-109 | the meters result does not depend on the body |
| ShellyClient.SameTransportErrors | internal/client/client.go:93-106 | for the same transport outcome and status, GetStatus fails whenever GetMeters fails, and only by decoding when GetMeters succeeds |
| Metrics.RelayRecords | internal/metrics/metrics.go:337-364 | two records per relay |
| Metrics.Collector.Collect | internal/metrics/metrics.go:263-274 | emits the first sweep over all clients and then the heating section |
| Metrics.Collector.CollectDevices | internal/metrics/metrics.go:268-270 | runs collectDeviceMetrics for every client in order |
| Metrics.Collector.CollectDeviceMetrics | internal/metrics/metrics.go:276-500 | emits the records of one device: device_up = 0 alone on failure, otherwise the status records followed by the cost records |
| Metrics.Collector.ReportHead | internal/metrics/metrics.go:297-335 | up, info, WiFi and RSSI records |
| Metrics.Collector.ReportReadings | internal/metrics/metrics.go:366-496 | power, energy, temperature, uptime, memory, filesystem, cloud, MQTT and update records |
| Metrics.Collector.CollectCostMetrics | internal/metrics/metrics.go:502-567 | the category record when configured, then with cost on the hourly and the daily cost |
| Metrics.Collector.CollectHeatingPercentage | internal/metrics/metrics.go:569-633 | nothing with cost off; otherwise the share records from the accumulated power |
| Metrics.Collector.AccumulatePower | internal/metrics/metrics.go:575-609 | the per-category map and the total are the accumulation over the reachable devices |
| Metrics.Collector.MeasureDevice | internal/metrics/metrics.go:580-605 | a reachable device yields its category, or "unknown", and its effective power; an unreachable one yields nothing |
| Metrics.Collector.ReportShares | internal/metrics/metrics.go:611-632 | one share record per configured client, in client order |
| Metrics.AccumulateStep | internal/metrics/metrics.go:607-608 | step lemma for the accumulation loop, one unfolding of the definitions: one contribution adds its power to its category's accumulator (from 0 when new) and to the total |
| Metrics.RelayRecordsAt | internal/metrics/metrics.go:338-364 | relay j gives state (1 iff on) and overpower (1 iff overpowered) labelled relay_j, at positions 2j and 2j+1 |
| Metrics.RelayNamesDistinct | internal/metrics/metrics.go:339 | different relays get different labels |
| Metrics.ReachableDeviceHead | internal/metrics/metrics.go:297-325 | a reachable device starts with device_up = 1, then info with the MAC as serial, then wifi_connected = 1 iff the status is "got ip" |
| Metrics.ReachableDeviceRelays | internal/metrics/metrics.go:337-364 | the relays come right after the four head records, in index order |
| Metrics.ReachableDevicePower | internal/metrics/metrics.go:366-400 | four power records follow the relays: phase_a, phase_b, phase_c, total; they are the only power_watts records the device sends; 19 status records plus two per relay plus the cost records in all |
| Metrics.PowerWattsOnlyPhases | internal/metrics/metrics.go:366-400 | the power_watts records of a reachable device are exactly the phase_a, phase_b, phase_c and total records, in that order |
| Metrics.ReachableDeviceFlags | internal/metrics/metrics.go:419-496 | overtemperature is always 0; update_available is 1 iff a stable version is offered |
| Metrics.UnreachableDeviceOnlyDown | internal/metrics/metrics.go:283-295 | a device whose status cannot be had contributes device_up = 0 with its URL and nothing else |
| Metrics.DeviceRecordsAreSweep | internal/metrics/metrics.go:283-566 | every record fits its descriptor's labels; no power-overpower or heating record; no cost record with cost off |
| Metrics.DeviceUpOnce | internal/metrics/metrics.go:283-303 | exactly one device_up per device: 1 iff its status could be had |
| Metrics.SweepVisitsEveryClient | internal/metrics/metrics.go:268-270 | the device_up records of the first sweep are one per client, in client order, whatever happened to earlier clients |
| Metrics.UpRecordsAt | internal/metrics/metrics.go:268-270 | the i-th device_up belongs to the i-th client |
| Metrics.CategoryRecordIffConfigured | internal/metrics/metrics.go:509-520 | a category record with name, category and description appears iff the device answered and is configured |
| Metrics.CostRecordsValues | internal/metrics/metrics.go:527-566 | with cost on, one hourly cost = power × rate / 1000 and one daily cost = 24 × that, labelled with the category or "unknown" |
| Metrics.OnlyPricedRecord | internal/metrics/metrics.go:539-566 | with cost on, exactly one hourly and one daily cost record per reachable device |
| Metrics.CategoryInStatus | internal/metrics/metrics.go:509-520 | the category records of a reachable device are those of its configuration entry, if any |
| Metrics.PricedRecordsValues | internal/metrics/metrics.go:536-566 | step lemma, one unfolding of the definition: the two cost records, in order, with their values and labels |
| Metrics.EffectivePowerPrefersTotal | internal/metrics/metrics.go:527-533 | the three cases of the definition (the positive total, else the first meter, else 0), and that effective power is not negative unless a non-positive total falls back on a negative first meter |
| Metrics.SweepsAgreeOnPower | internal/metrics/metrics.go:594-605 | given the same status, the heating sweep's contribution and the hourly cost record use the same category and effective power |
| Metrics.ValidatedCostsNonNegative | internal/metrics/metrics.go:536-557 | under a validated configuration, costs of a non-negative consumption are non-negative |
| Metrics.CostsNonNegative | internal/metrics/metrics.go:539-557 | a non-negative rate prices a non-negative consumption at non-negative hourly and daily costs |
| Metrics.GrandTotalIsSumOfCategories | internal/metrics/metrics.go:607-608 | the categories are listed once each, the accumulators are exactly those of the listed categories, and the grand total equals their sum |
| Metrics.CategoryWithinTotal | internal/metrics/metrics.go:607-608 | with no negative readings every accumulator lies between 0 and the total |
| Metrics.HeatingShareIsPercentage | internal/metrics/metrics.go:620-624 | with no negative readings the heating share lies in [0, 100] |
| Metrics.ShareIsPercentage | internal/metrics/metrics.go:620-624 | a heating sum within the total gives a share in [0, 100], and 0 when the total is not positive |
| Metrics.ContributionsNonNegative | internal/metrics/metrics.go:593-608 | non-negative readings give non-negative contributions |
| Metrics.HeatingRecordsPerConfiguredClient | internal/metrics/metrics.go:612-632 | every share record carries the share and a configured client's URL, and every configured client gets one |
| Metrics.HeatingRecordsLabelled | internal/metrics/metrics.go:626-631 | every share record is a heating gauge carrying the share, labelled with the URL of a configured client |
| Metrics.HeatingRecordsCoverConfigured | internal/metrics/metrics.go:612-632 | every client with device metadata gets a share record labelled with its URL |
| Metrics.HeatingRecordsAreHeating | internal/metrics/metrics.go:626-631 | share records are heating records that fit their descriptor |
| Metrics.HeatingSharesInRange | internal/metrics/metrics.go:611-632 | with non-negative readings every emitted share is in [0, 100] |
| Metrics.UnreachableDevicesAddNothing | internal/metrics/metrics.go:588-591 | when no device answers nothing is accumulated and every share is 0 |
| Metrics.HeatingSectionIsHeating | internal/metrics/metrics.go:626-631 | the heating section holds only heating records that fit their descriptor |
| Metrics.ScrapeShape | internal/metrics/metrics.go:263-274 | every record fits its descriptor, power_overpower is never sent, and heating records are exactly the ones after the first sweep |
| Metrics.CostOffMeansNoCostRecords | internal/metrics/metrics.go:522-573 | with cost off no cost-per-hour, daily-cost or heating record is sent |

## Left out

- Loading the configuration (`Load`, `setDefaults`): the viper file and environment reading. The configuration is an input.
- HTTP transport, JSON decoding and the TLS transport set-up are left out. The exchange is an input, and so is whether the body decodes. The TLS CA and client-certificate branches are stubs in the source and change nothing.
- The legacy `/status` fallback and its response type: no shown source implements them.
- The collector's read-write mutex, goroutines and concurrent scrapes: one scrape is modelled as a sequential run.
- Timeouts and contexts (10 s per device, 2 s in the heating sweep): each sweep's per-device outcome is given data. A deadline that expires is a transport failure.
- `time.Now()`: one minute-of-day reading per device is an input, taken where `GetCurrentRate` reads the clock.
- IEEE-754 behaviour of the float64 power, rate and cost values: the model uses `real`, with no rounding, overflow or NaN.
- The server, the command-line program and `test-config.go`: HTTP routing, HTML, flags, signals.
- `NewCollector`'s descriptor construction and `Describe`: the descriptors are modelled by their name and label names only. Help texts and the registration with Prometheus are left out.
- Logging calls.
- The text of the error values the client returns: errors are classified by cause, not by message.
- Metrics.CollectDeviceMetrics, Metrics.CollectCostMetrics: the state of the `Client` (its HTTP client and logger) is not modelled. A client is its base URL and its transport settings.
- Metrics.DeviceRecords and the lemmas about one device take the device's `Pricing` as a parameter. That value is whether cost calculation is on, the configured device with that URL, and the rate in force. The sweep computes it from the configuration and the clock with `PricingAt`, as `collectCostMetrics` does.
