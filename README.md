# Plant-care station: control rules and device commands in Dafny

This project models the two cores of the plant-care station, a
Raspberry Pi service. It weighs a potted plant every minute, keeps
bounded minute and hourly histories, and once a day decides how long the
pump runs. It drives the watering microcontroller over I2C, which also
turns the plant's rotating plate.

- **`main.go`: the control arithmetic.**
  - The drop-oldest history buffer (`pushSlice`).
  - The hourly median of the minute samples (`hourMedian`).
  - The dry-phase sample extraction and the trimmed-mean dryout rate of `calculateDryoutAndWateringTime`, on integers.
  - The watering decision `calculateWatering` with `clamp`.
  - The two ticks `updateMinute` and `updateWeightAndWatering`, which update the station's fields in place.
  - The daily turntable angles of `update`.
- **`wuc.go`: the microcontroller commands.** `ReadWeight`, `waitForStop`, `Rotate`, `DoWatering`, `readLastWatering`/`ReadLastWatering`, `ReadWateringLimit` and `Echo`. Each is a method of a `Wuc` class that talks to a scripted I2C `Connection`:
  - every frame written is logged;
  - reads are answered from a queue of replies;
  - writes are acknowledged from a queue of acknowledgements.

Layout:

| file | module | contents |
|---|---|---|
| `go_int.dfy` | `GoInt` | Go's truncating `/` and `%`, `uint64` wrap-around |
| `wrappers.dfy` | `Wrappers` | `Option`, `Result` |
| `sorting.dfy` | `Sorting` | the model of `sort.Ints`; counting elements beyond a pivot |
| `history.dfy` | `History` | `pushSlice`, repeated pushes, `hourMedian` |
| `estimator.dfy` | `Estimator` | sample extraction loop, trimmed-mean dryout |
| `decision.dfy` | `Decision` | `clamp`, hours since watering, reference weight, `dw`, clamped pump time |
| `bus.dfy` | `Bus` | the scripted I2C connection class |
| `wuc.dfy` | `Wuc` | byte encodings and the `Wuc` command class |
| `station.dfy` | `Station` | the station class and its ticks, the angle schedule |

Conventions:

- Go's `int` division truncates toward zero, so it is `GoInt.TruncDiv`/`TruncRem` wherever an operand can be negative.
- `uint64` conversions are `GoInt.U64` (modulo 2^64).
- Bytes are the integers 0..255. Bit masks and shifts are written as `%`, `/` and `*` by 256 (and `b & 0x80 != 0` as `b >= 128`).
- The connection's script semantics are:
  - a read with no reply left fails;
  - a read delivers at most the buffer's size;
  - `ReadByte` needs a non-empty reply;
  - a write with no acknowledgement left is fully accepted.

## Model

| member | source | states |
|---|---|---|
| GoInt.TruncDivBounds | main.go:466 | Go's `/` truncates toward zero: the remainder `a - (a/b)*b` has the dividend's sign and is smaller than the divisor in magnitude |
| GoInt.TruncDivFloor | main.go:466 | for a non-negative dividend and positive divisor the truncated quotient is the floor: `q*b <= a < (q+1)*b` |
| GoInt.TruncRem | main.go:721 | Go's `%`: the remainder of truncated division, with the dividend's sign |
| GoInt.TruncDivUnique | main.go:466 | a non-negative dividend between `q*b` and `q*b + b` has truncated quotient `q` |
| GoInt.U64 | main.go:646 | conversion to `uint64`: the value modulo 2^64, in `[0, 2^64)` |
| Sorting.Sort | main.go:593 | `sort.Ints`: the result is sorted, a permutation of the input and of the same length |
| Sorting.SortedUnique | main.go:456 | two sorted permutations of the same elements are equal, so the sort algorithm does not matter |
| Sorting.CountSort | main.go:593 | sorting keeps the number of elements below and above any pivot |
| Sorting.RankBounds | main.go:594 | in a sorted slice at most `k` elements lie below index `k` and at most `len-1-k` above it |
| History.PushSlice | main.go:381-388 | the result is the last `min(len(s)+1, maxLen)` elements of `s ++ [v]`, so it is at most `maxLen` long and ends in `v` |
| History.PushStep | main.go:381-388 | one more push onto the newest `n` elements gives the newest `min(n+1, maxLen)` elements of the history extended by `v` |
| History.PushRepeatKeepsNewest | main.go:732-734 | `k` pushes of `v` keep the newest `min(len(s)+k, maxLen)` elements of `s` followed by `k` copies of `v` |
| History.Window | main.go:588-592 | the samples `hourMedian` looks at are the newest `min(60, n)` |
| History.HourMedian | main.go:580-595 | needs a non-empty slice; the result is one of the window's samples, with at most `len/2` of them strictly below and at most `len-1-len/2` strictly above |
| History.ConstantMedian | main.go:580-595 | samples that all read `x` have the median `x` |
| History.MedianOfAnySort | main.go:592-594 | the median is the element at `len/2` of any sorted copy of the window |
| Estimator.ExtractSamples | main.go:419-441 | the accumulator loop yields exactly the index-wise dry-phase samples and regression points: watering `i` pairs with weight `numm-numw+i`, and unpaired waterings still set `prevw` |
| Estimator.Classified | main.go:423-437 | each watering entry gives at most one dry-phase sample and at most one regression point; a sample needs a predecessor pair whose watering is not positive, a regression point one whose watering is positive; no pair is both, and every pair with a positive earlier weight is one of the two |
| Estimator.DrySampleOrigin | main.go:423-437 | every dry-phase sample is `prevm - m` for a pair whose earlier weight is positive and whose previous watering is not positive |
| Estimator.SampleCount | main.go:419-441 | each watering entry but the first contributes at most one sample |
| Estimator.Trim | main.go:457-460 | dropping `n/6` samples from each end of a non-empty slice leaves `n - 2*(n/6) >= 1` of them, drawn from the input and sorted when the input is |
| Estimator.SumOf | main.go:462-465 | the summing loop computes the sum of the slice |
| Estimator.TrimmedMean | main.go:457-466 | on the sorted samples, the slice, the summing loop and the rounding division compute `Mean24` of the trimmed samples |
| Estimator.Mean24 | main.go:466 | the rounded mean keeps the sign of the total: non-negative for a non-negative sum, not positive for a negative one |
| Estimator.Dryout | main.go:455-470 | non-negative samples give a non-negative dryout rate |
| Estimator.TrimmedDryout | main.go:455-470 | sorting and then the trimmed mean compute the dryout of the samples, 0 without samples |
| Estimator.CalculateDryout | main.go:419-470 | the dryout of the histories is the trimmed mean of their dry-phase samples |
| Estimator.MeanRoundsHalfUp | main.go:466 | with a non-negative sum `(sum*24 + na/2)/na` is `24 * mean` rounded half up: `m*na <= 24*sum + na/2 < (m+1)*na` |
| Estimator.ConstantDryout | main.go:455-470 | identical non-negative samples `c` give `24 * c` |
| Estimator.SteadyDryout | main.go:419-470 | weights falling steadily by `c >= 0` per hour with no watering give the dryout `24 * c` (240 for 10 per hour) |
| Estimator.NegativeMeanRounding | main.go:466 | for a negative mean the truncating division rounds toward zero: two samples of -1 give -23, not -24 |
| Decision.Clamp | main.go:571-578 | `v` when in range, otherwise the nearer bound; the result lies in `[min, max]` when `min <= max` |
| Decision.ClampMonotone | main.go:571-578 | clamping preserves order |
| Decision.HoursSince | main.go:515-526 | 1 for an empty history; otherwise `len-i` for the newest `i` with a positive watering, or `len` if none is positive |
| Decision.HoursSinceWatering | main.go:515-526 | the backward search loop with its early exit computes `HoursSince` |
| Decision.ReferenceAfterLastWatering | main.go:529-532 | with aligned histories, `prevw` is the weight of the hour right after the newest watering |
| Decision.ReferenceWeight | main.go:529-532 | the `(durw-1)`-th newest recorded weight, which is never the oldest entry, when `durw > 1` and the history reaches that far; otherwise the current weight |
| Decision.WeightGain | main.go:549-557 | above `LowLevel`, `dw <= prevw - weight`; at or below it, `weight + dw == HighLevel` |
| Decision.TargetWeight | main.go:550-555 | above `LowLevel` the target weight is `min(prevw, prevw - dryout*durw/24 + DailyRefill)` |
| Decision.ClampedPumpTime | main.go:512-568 | the clamped time `clamp(wts*dw + wto, WaterStart, MaxWater)` lies in `[WaterStart, MaxWater]` when that range is non-empty |
| Decision.CriticalLowScenario | main.go:549-568 | at weight 1000 under the default configuration, pump model (5, 100) gives the unclamped time 2600 |
| Wuc.DecodeWeight | wuc.go:62-70 | a reply not 2 bytes long is an error; high byte 0xFF is the failure marker; otherwise `hi*256 + lo`, in `[0, 0xFEFF]` |
| Wuc.WeightRoundTrip | wuc.go:62-70 | every reading in `[0, 0xFEFF]` decodes from its two-byte encoding |
| Wuc.WeightReplyRoundTrip | wuc.go:62-70 | every successfully decoded reply is the encoding of its reading |
| Wuc.EncoderCount | wuc.go:111 | `(angle*CPR/360) % CPR` with the `uint64` product wrapped is below `CPR` |
| Wuc.RotateFrame | wuc.go:118-122 | the frame is `[0x13, lo, hi]` and `lo + 256*hi` reassembles the encoder count |
| Wuc.FullTurn | wuc.go:111 | `angle` and `angle + 360` give the same encoder count when no wrap-around occurs |
| Wuc.FullTurns | wuc.go:111 | any number of full turns gives the same encoder count when no wrap-around occurs |
| Wuc.FirstStop | wuc.go:76-101 | the first status reply within `timeout` polls that is 2 bytes with bit 0x80 clear; none before it qualifies |
| Wuc.Quantize | wuc.go:142-152 | `(ms+125)/250` truncated is accepted exactly for `ms` in `[-374, 63874]`, is within 125 ms of `ms` for `ms >= -125`, and is 0 below that |
| Wuc.OverRangeScenario | wuc.go:142-152 | 3000 ms is 12 units, 99000 ms (396 units) is rejected |
| Wuc.NegativeStartAccepted | wuc.go:142-146 | a start of -200 ms truncates to 0 units and is accepted |
| Wuc.LastWatering | wuc.go:220-234 | a successful last-watering reading is never the 0xFF failure marker, and a 0xFF answer after a successful write is the last-watering error |
| Wuc.WaterLimit | wuc.go:237-255 | a successful limit reading is never the 0xFF failure marker, and a 0xFF answer after a successful write is the limit error |
| Wuc.Requery | wuc.go:182-197 | the re-queried last watering is a byte other than 0xFF; a failed re-query reads as 0 |
| Wuc.RequeryTraffic | wuc.go:182-197 | the re-query sends `[0x15]` first and `[0x10]` last, with the stop command of a timed-out wait between them |
| Wuc.WateringFrame | wuc.go:142-155 | a frame exists exactly when both times quantize into a byte, and it is `[0x1A, s, u]` |
| Wuc.WateringReported | wuc.go:138-204 | the reported watering is a multiple of 250 in `[0, 63750]`; out-of-range times report 0 and leave the script untouched; a positive report needs the whole frame written, and the frame is the first thing logged |
| Wuc.Wuc.RequeryLastWatering | wuc.go:182-197 | the status command, the wait for the motor when that write went through, then the last-watering query; the byte is `Requery` of the script and the log and script afterwards are `RequeryTraffic`'s |
| Wuc.Wuc.ReadWeight | wuc.go:46-72 | sends `[0x12]`, reads 2 bytes, returns the decoded weight, or 0 with the bus, length or sensor error |
| Wuc.WeightReading | wuc.go:46-72 | a successful reading needs the write to go through and a 2-byte reply that is the reading's encoding, in `[0, 0xFEFF]`; failures are a bus, length or sensor error |
| Wuc.PollConsumption | wuc.go:75-106 | the wait consumes replies from the front, at most `timeout` of them, and at most the acknowledgement of the stop command |
| Wuc.Wuc.WaitForStop | wuc.go:75-106 | succeeds at the first stopped status without writing; otherwise spends `timeout` polls, sends `[0x14]` and fails |
| Wuc.Wuc.Rotate | wuc.go:109-135 | writes the rotate frame of `angle`; a write error or a short write is an error and consumes one acknowledgement and no reply; otherwise it succeeds exactly when the motor stops within 20 polls, and the log gains the frame and the `[0x14]` stop frame when the wait times out, with the script left as `waitForStop` leaves it |
| Wuc.Wuc.ReadLastWateringUnits | wuc.go:220-234 | sends `[0x10]`, reads one byte; 0xFF or a bus error gives `(0, error)` |
| Wuc.Wuc.ReadLastWatering | wuc.go:207-218 | the valid last-watering byte scaled by 250, or `(0, error)`; one acknowledgement is used, and one reply unless the write failed |
| Wuc.Wuc.ReadWateringLimit | wuc.go:237-255 | sends `[0x11]`, reads one byte; 0xFF or a bus error gives `(0, error)`; one acknowledgement is used, and one reply unless the write failed |
| Wuc.Wuc.Echo | wuc.go:258-277 | writes `[0x29] ++ buf`, reads into `len(buf)+1` bytes and returns what was read; only a write error stops it; one acknowledgement is used, and one reply unless the write failed |
| Wuc.Wuc.DoWatering | wuc.go:138-204 | the result is `WateringOutcome` of the times and the script, and the log and script afterwards are `WateringTraffic`'s: nothing for out-of-range times; the frame alone after a failed or short write or a non-zero readback; the frame followed by the re-query's `[0x15]`, optional `[0x14]` and `[0x10]` when the readback is 0 |
| Station.Fallback | main.go:598-608 | the reading when it succeeded, otherwise the newest sample of the history, or 0 when there is none |
| Station.HourReading | main.go:601-614 | with minute samples the hour's weight is one of the samples of the median window; without them it is the direct reading with its fallback on the hourly history |
| Station.MinutesSinceWraps | main.go:721-725 | for minute labels, `numMins` is `(min - last) mod 60`: 0 for a repeated label, 1 for the next minute |
| Station.MinutesSince | main.go:721-725 | 1 for an empty buffer; otherwise a value in `(-60, 60)` congruent to `min - last` modulo 60 |
| Station.PlannedWatering | main.go:558-568 | what `calculateWatering` returns plus the pump offset lies in `[WaterStart, MaxWater]` when that range is non-empty |
| Station.PlannedAt | main.go:616-620 | the planned pump time is 0 outside `WaterHour`, and at `WaterHour` is the clamped pump time of the histories minus the offset |
| Station.WateringEntry | main.go:620-626 | the recorded watering is a multiple of 250 in `[0, 63750]`: 0 for a plan that is not positive, otherwise what `DoWatering` reports |
| Station.Station.CalculateWatering | main.go:512-569 | the result plus the stored offset is the clamped pump time of the current histories; with `save` the pump model is stored first, so the sum lies in `[WaterStart, MaxWater]` |
| Station.Station.UpdateMinute | main.go:705-737 | the reading, or its fallback, is pushed `numMins` times (1 for an empty buffer, 0 for a repeated minute), so the buffer is the old one followed by those copies, cut to the newest 480; `MinData.Time` becomes `min`; exactly one weight command is sent |
| Station.Station.MinuteWeight | main.go:706-714 | sends one weight command, using one acknowledgement and one reply unless the write failed; the result is the reading, or on error the newest minute sample, or 0 |
| Station.Station.PushMinutes | main.go:732-734 | the padding loop leaves the buffer equal to `numMins` pushes of `w` (none for a negative count), within 480 when it was, and `[w]` for a single push onto an empty buffer |
| Station.Station.HourWeight | main.go:598-614 | the hour's weight is the median of the minute samples, or a direct reading with its fallback when there are none; only then is the weight command sent and the script consumed |
| Station.Station.WaterIfDue | main.go:616-626 | the planned time is `PlannedAt`: what `calculateWatering` returns at `WaterHour` with the new pump model stored, elsewhere 0; the result is `WateringEntry`, what `DoWatering(offset, planned)` reports when the planned time is positive and 0 otherwise; the bus traffic is `DoWatering`'s or none |
| Station.Station.RecordHour | main.go:616-635 | each hourly history gains one entry (capped at 288): the weight `w` and the watering `DoWatering` reported for the planned time, or 0; `Data.Time` becomes `hour`; the bus traffic is the watering step's |
| Station.Station.UpdateWeightAndWatering | main.go:597-635 | one entry is appended to each hourly history (capped at 288), so equal lengths stay equal; `Data.Time` becomes `hour`; the weight entry is the hour's reading and the watering entry is what `DoWatering` reports at `WaterHour` when the planned time is positive, on the script the weight query left, and 0 otherwise; the log is the weight query (when there are no minute samples) followed by the watering traffic |
| Station.DailyAngles | main.go:645-664 | four `uint64` angles: the picture angles `day`, `day+120`, `day+240`, then the resting angle, which is `uint64(fixed)` when an orientation is fixed and `uint64(day*190)` otherwise |
| Station.RestingOrientationCycle | main.go:661-663 | without a fixed orientation the resting encoder count repeats every 36 days (19 full turns) |

## Left out

- The floating-point pump regression of `calculateDryoutAndWateringTime` (main.go:401-416, 443-453, 472-507) is not modelled. It is a `float32` least-squares fit with `int(float32)` truncation. Its result `(scale, offset)` is the input `fit: PumpModel` of `CalculateWatering`, and nothing is assumed about its sign.
- Station.Station.CalculateWatering: `fit` stands for what the regression would return for the current histories and stored pump model. The link between the two is not modelled.
- Mutexes (`sync.RWMutex`, `sync.Mutex`) are not modelled: they only serialise concurrent callers.
- `time.Sleep` delays are not modelled.
- `run`'s timers and the wall-clock time labels are not modelled. The hour, minute and day are parameters.
- MQTT `publish`, HTTP handlers, basic auth, JSON/TOML persistence and configuration parsing are not modelled. The same goes for `pushPictures`, `takePictures` (camera and file moves), `picam.go`, the web UI script and `genpasshash`: all are network, process or file I/O.
- `update` is modelled only through its angle schedule (`DailyAngles`). The `Rotate` calls it makes are modelled as `Wuc.Wuc.Rotate`.
- History.PushSlice is modelled on values. `pushSlice` shifts the caller's backing array with `copy`, so the aliasing of the slice passed in is not captured. Every caller overwrites its own slice with the result.
- Sorting.Sort is an insertion sort standing in for `sort.Ints`. `Sorting.SortedUnique` shows that the result is independent of the algorithm.
- Go's `int` (32 or 64 bits, depending on the target) is modelled as an unbounded integer in the station arithmetic. Overflow of `sum*24` or `dryout*durw` is not captured. The `uint64` wrap-around in `Rotate` and in the angle conversions is modelled. `day` is an `int64`, and converting its wrapped product `day*190` to `uint64` gives the same value as `U64` of the exact product, so `Station.DailyAngles` captures that overflow.
- Wuc.FullTurns and Station.RestingOrientationCycle: both hold only while `angle*CPR` does not wrap modulo 2^64.
- The I2C connection is a script, not a device. `Bus.Connection` defines its behaviour: what a read returns, and how many bytes a write gets through. The logging in the commands is not modelled.
- Station.Station.UpdateMinute and Station.Station.UpdateWeightAndWatering do not model the `publish` of the new weight and watering.
