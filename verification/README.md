# Crypto anomaly monitor: rolling window and alert cooldown, in Dafny

This project models the two pieces of logic in the crypto price monitor that
have invariants worth proving:

- **The rolling price window** (`internal/detection/rolling.go`). A
  `RollingWindow` holds the most recent prices, up to a fixed capacity. When
  it is full, `AddPrice` drops the oldest price before it appends the new
  one. `GetMean` returns the arithmetic mean, or 0 for an empty window.
  `GetStandardDeviation` returns the population standard deviation (dividing
  by n), or 0 below two prices. `CheckAnomalies` returns a z-score flag
  (`|p − mean| / sd > 2`) and a Bollinger-band flag (`p` outside
  `mean ± 2·sd`), and both are false below two prices.
- **The alert cooldown gate** (`internal/alerts/twilio.go`). `CanSendAlert`
  reads `last_alert:<source>` from a store with per-key expiry:
  - a missing key allows the alert;
  - a read error or a value that is not an RFC 3339 time denies it;
  - otherwise the alert is allowed once 30 seconds have passed.

  `SendTwilioAlert` checks the gate and sends the SMS. Only when the SMS
  succeeds does it write the current time under that key, with a 30-second
  expiry.

`rolling.dfy` (module `Detection`) contains:
- a `RollingWindow` class whose `Prices` field is a `seq<real>`;
- loop methods for the mean and the variance, each proved equal to a
  recursive specification function;
- the two anomaly tests as functions, and the verdict of both on a window;
- lemmas: the window keeps the latest `min(M, N)` arrivals in order, the
  mean's and variance's properties, the two flags agree, the threshold is
  strict, and the worked examples.

`alerts.dfy` (module `Alerts`) contains:
- the store as a `map` from keys to entries with an optional expiry;
- the read, the gate decision and the record step as functions;
- an `Alerter` class whose `store` field `SendTwilioAlert` updates;
- a replay of many attempts, with the theorem that two alerts for one source
  are more than 29 seconds apart whenever the attempts come in time order and
  every record is written.

Modelling choices:

- **Prices are reals.** The model does not compute the square root that
  `GetStandardDeviation` takes. `IsStdDev(sd, s)` says that `sd` is the
  standard deviation of `s`: `sd ≥ 0` and `sd² = Variance(s)`.
  `CheckAnomalies` compares squares: `(p − mean)² > 4·variance`. The lemmas
  `ZScoreIffSquare` and `BandIffSquare` prove this equals the source's
  comparisons for every such `sd`.
- **Zero spread.** A window of two or more prices that are all equal has
  `sd = 0`. The source then divides by zero at `rolling.go:59`. The model
  assumes the result IEEE-754 gives: a price away from the mean has an
  infinite z-score and is flagged; a price at the mean gives NaN and is not.
  Under this assumption the two flags agree for every window (`FlagsAgree`, `FlatWindowFlagsAnyChange`).
- **Time is an integer number of nanoseconds.** The clock is the parameter
  `now`. The store's availability (`readFault`) and the success of the SMS
  call (`delivered`) are inputs, and so is the success of the write
  (`writeOk`), whose error the source ignores.
- **RFC 3339 parsing** is abstracted. A stored value is either `Stamp(t)`,
  a timestamp that parses to `t`, or `Malformed`.
- **The stored time is whole seconds.** The source writes
  `time.Now().Format(time.RFC3339)`, which has no fractional seconds. So the
  time read back is the send time rounded down (`WholeSeconds`). As a
  result, the gate opens between 29 and 30 seconds after a send
  (`GateAfterRecord`), although the cooldown constant is `30*time.Second`
  (`twilio.go:53`, `twilio.go:89`). `SendsAreSpaced` proves that, over a run
  of attempts in time order whose records are all written, two alerts for one
  source are more than 29 seconds apart. `SpacingBoundIsTight` shows a gap of
  29.000000001 s. A failed SET is ignored at `twilio.go:89`, so after one the
  next attempt can send at once.
- **Nothing calls the detector or the alerter.** No Go file calls
  `NewRollingWindow`, `CheckAnomalies` or `SendTwilioAlert`, and
  `internal/kafka/consumer.go:50-59` only prints each observation.
- **Capacity must be positive.** A window created with a capacity of 0 or
  less panics on its first `AddPrice`, because it slices an empty slice. The
  model makes this a precondition, `CanSlide`.
  `FreshWindowNeedsPositiveSize` shows exactly which capacities satisfy it.

## Model

| member | source | states |
|---|---|---|
| `Detection.RollingWindow.constructor` | internal/detection/rolling.go:12-14 | NewRollingWindow: an empty window of the given capacity, valid when the capacity is positive |
| `Detection.Slide` | internal/detection/rolling.go:17-22 | the prices after AddPrice are a suffix of the old ones, in order, with the new price last; at most one is dropped, and one is dropped exactly when the window is at or above its capacity |
| `Detection.RollingWindow.AddPrice` | internal/detection/rolling.go:17-22 | the new contents are the old ones with the oldest dropped when full, then the price appended; the capacity is unchanged and the bound `len ≤ WindowSize` is preserved |
| `Detection.FreshWindowNeedsPositiveSize` | internal/detection/rolling.go:18-19 | the first AddPrice on a fresh window avoids slicing an empty slice exactly when the capacity is at least 1 |
| `Detection.SlideKeepsCapacity` | internal/detection/rolling.go:17-22 | one AddPrice on a valid window stays within capacity, puts the price last, and keeps the survivors in order: everything kept when not full, the oldest dropped when full |
| `Detection.Fill` | internal/detection/rolling.go:17-22 | a fresh window of capacity N holds `min(M, N)` prices after M additions |
| `Detection.FillStep` | internal/detection/rolling.go:17-22 | AddPrice on a window filled from a sequence of arrivals gives the window filled from that sequence plus the new price |
| `Detection.FillKeepsLatest` | internal/detection/rolling.go:12-22 | after M additions to a fresh window of capacity N, the window is exactly the last `min(M, N)` arrivals, in arrival order |
| `Detection.RollingWindow.GetMean` | internal/detection/rolling.go:25-34 | the loop's result is the arithmetic mean of the window, 0 when it is empty |
| `Detection.DeviationsFromMeanCancel` | internal/detection/rolling.go:25-34 | the signed deviations of a non-empty window from its mean sum to 0 |
| `Detection.MeanWithin` | internal/detection/rolling.go:25-34 | the mean of a non-empty window lies between any lower and upper bound of its prices |
| `Detection.RollingWindow.GetVariance` | internal/detection/rolling.go:37-46 | the loop of GetStandardDeviation gives the population variance (sum of squared deviations divided by n), 0 below two prices, never negative |
| `Detection.VarianceNonNegative` | internal/detection/rolling.go:42-46 | the variance whose square root is returned is never negative |
| `Detection.StdDevUnique` | internal/detection/rolling.go:46-46 | the non-negative square root of the variance is unique |
| `Detection.StdDevOfShortWindow` | internal/detection/rolling.go:38-40 | with fewer than two prices the standard deviation is exactly 0 |
| `Detection.VarianceZeroIffConstant` | internal/detection/rolling.go:37-47 | a window of two or more prices has zero spread if and only if all its prices are equal |
| `Detection.ZScoreAnomaly` | internal/detection/rolling.go:58-60 | for a non-zero sd, the z-score test flags a price exactly when its distance from the mean exceeds twice the absolute value of sd; a price at the mean is never flagged, which with sd = 0 is the IEEE-754 NaN outcome |
| `Detection.BandAnomaly` | internal/detection/rolling.go:62-65 | for a non-negative sd, the price is outside the band exactly when it is more than 2·sd from the mean |
| `Detection.Anomalies` | internal/detection/rolling.go:50-67 | no flag below two prices; for a true standard deviation both flags are equal and raised exactly when (p − mean)² > 4·variance |
| `Detection.RollingWindow.CheckAnomalies` | internal/detection/rolling.go:50-68 | both flags are false below two prices; otherwise the z-score flag is raised exactly when (p − mean)² > 4·variance; the two flags are always equal; they are the z-score and band verdicts for the window's own mean and any standard deviation of it; the window is not modified |
| `Detection.ZScoreIffSquare` | internal/detection/rolling.go:59-60 | `|p − mean| / sd > 2` holds exactly when `(p − mean)² > 4·sd²` |
| `Detection.BandIffSquare` | internal/detection/rolling.go:63-65 | `p > mean + 2·sd or p < mean − 2·sd` holds exactly when `(p − mean)² > 4·sd²` |
| `Detection.FlagsAgree` | internal/detection/rolling.go:55-67 | for every window and price, the z-score flag equals the band flag |
| `Detection.FlatWindowFlagsAnyChange` | internal/detection/rolling.go:55-67 | a window of equal prices has standard deviation 0 and flags exactly the prices that differ from them |
| `Detection.BoundaryNotFlagged` | internal/detection/rolling.go:58-67 | the threshold is strict: a price exactly two standard deviations from the mean raises neither flag |
| `Detection.WorkedExample` | internal/detection/rolling.go:25-67 | `[100,100,100,100,200]` has mean 120 and standard deviation 40; 200 is not flagged, 201 raises both flags |
| `Detection.SpikeAfterFlatRun` | internal/detection/rolling.go:25-67 | after n ≥ 1 equal prices c, a new price x in the window is flagged by both tests exactly when x ≠ c and n > 4, whatever the size of the jump |
| `Alerts.KeyFor` | internal/alerts/twilio.go:36-36 | the key is `last_alert:` followed by the source name |
| `Alerts.KeysDistinct` | internal/alerts/twilio.go:88-88 | different sources read and write different keys |
| `Alerts.WholeSeconds` | internal/alerts/twilio.go:89-89 | the time written as RFC 3339 and read back is the send time rounded down to a whole second: at most the send time, less than a second before it |
| `Alerts.Get` | internal/alerts/twilio.go:37-50 | a failed read gives an error; a missing or expired key gives not-found; otherwise the stored value parses to a time or fails to parse |
| `Alerts.Record` | internal/alerts/twilio.go:88-89 | after the SET, the source's key reads back as the send time rounded down to the second and expires one cooldown after the send; every other key is unchanged |
| `Alerts.Allows` | internal/alerts/twilio.go:38-57 | the decision allows exactly when no alert is on record or the recorded time is at least 30 s before now; read errors and parse errors deny; exactly 30 s elapsed allows |
| `Alerts.Alerter.CanSendAlert` | internal/alerts/twilio.go:35-59 | on the current store: a read fault denies; a missing or expired key allows; a stored time allows once 30 s have passed; an unparseable value denies |
| `Alerts.Alerter.SendTwilioAlert` | internal/alerts/twilio.go:61-92 | the outcome and new store are those of the gate, then the send, then the record on success |
| `Alerts.Dispatch` | internal/alerts/twilio.go:61-92 | an alert goes out exactly when the gate allows and the SMS call succeeds; the store changes only by the record of a sent alert whose SET succeeded |
| `Alerts.NoRecordWithoutSend` | internal/alerts/twilio.go:66-86 | a denied gate sends nothing, a failed send records nothing, and in both cases the store is unchanged; the outcome is suppressed exactly when the gate denies |
| `Alerts.FailsClosed` | internal/alerts/twilio.go:41-44 | when the store cannot be read, no alert is sent and nothing is written |
| `Alerts.OtherSourcesUntouched` | internal/alerts/twilio.go:88-89 | a dispatch for one source leaves what every other source reads unchanged |
| `Alerts.GateAfterRecord` | internal/alerts/twilio.go:52-57 | after a send recorded at t, the source's gate is open at now exactly when now ≥ t rounded down to the second + 30 s; the key's expiry never opens it earlier |
| `Alerts.CooldownSchedule` | internal/alerts/twilio.go:53-53 | after a recorded send, a second attempt within 29 s (including at once) is suppressed; from 30 s on it is not |
| `Alerts.SentAreGuarded` | internal/alerts/twilio.go:88-89 | over any run of attempts in time order whose writes succeed, each source that was sent an alert keeps an entry stamped less than a second before that alert and alive at least a cooldown past its stamp |
| `Alerts.SendsAreSpaced` | internal/alerts/twilio.go:61-89 | over any run of attempts in time order whose writes succeed, two alerts sent for one source are more than 29 s apart |
| `Alerts.SpacingBoundIsTight` | internal/alerts/twilio.go:89-89 | two alerts 29.000000001 s apart are both sent when the first is recorded as the preceding whole second |

## Left out

- `Detection.RollingWindow.GetVariance`: models the loop of `GetStandardDeviation` but not its final `math.Sqrt`. Reals here have no square root function, so the standard deviation is stated through `IsStdDev` (`sd ≥ 0`, `sd² = variance`).
- Floating point: rounding, overflow, and NaN/Inf. The model uses exact reals, with the single stated assumption for a zero standard deviation.
- `InitRedis`: an endless retry loop against a network service.
- The Twilio client, `godotenv`, the phone-number environment variables, the message body with its `%.2f` formatting, and all logging and printing.
- Concurrency: the race between `CanSendAlert` and the later write when two alerts for one source run at once. The model is sequential.
- Different instants. The source reads the clock separately for the key's expiry, for `time.Since` and for `time.Now`. The model uses one `now` per call.
- The exact expiry boundary of the store: a key is modelled as present while `now` is before its expiry. `GateAfterRecord` shows the decision does not depend on the boundary for keys this code writes.
- Go's 64-bit overflow of `time.Duration`: times are unbounded integers.
- Go slice aliasing: `Prices[1:]` shares its backing array. The contents are modelled as a value.
- The price fetchers (`internal/api/api.go`), Kafka transport (`internal/kafka/`), the placeholder exchange client (`internal/exchange/binance.go`) and process wiring (`cmd/monitor/main.go`): network and process plumbing with no logic of its own to prove.
