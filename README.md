# capture-windows metrics core, in Dafny

capture-windows is a small Windows HTTP exporter. On each request it reads host
metrics from the operating system and returns them as JSON. The metrics are CPU,
memory, the `C:\` volume, host identity and two placeholder network interfaces.
This project models the part of `src/main.rs` that turns those readings into
snapshots. It also models how the listening port is chosen at start-up.

Every operating-system reading is a parameter:

- the sysinfo values: core count, per-core rated frequencies, total and
  available memory, OS name, long OS version and kernel version;
- the status codes and the counter value the PDH performance-counter library
  returns;
- the outcome of `GetDiskFreeSpaceExW`;
- the `PORT` environment variable.

Modules, one per collector:

- `Ints`: the Rust integer widths (`u16`, `u32`, `u64`, `i64`) as ranges of `int`,
  `saturating_sub`, and the `i64 as u64` cast.
- `Wrappers`: `Option` and `Result`.
- `Snapshots`: the response value types (`CPUData`, `MemoryData`, `DiskData`,
  `HostData`, `NetData`, `MetricError`).
- `Decimal`: decimal text. It formats the `u32` status codes in PDH error messages
  and parses `u16` text as `str::parse` does: an optional `+`, ASCII digits,
  checked overflow. Proved: parsing gives back every `u16` that was formatted, with
  or without a leading '+'; formatting gives back every canonical digit string (no
  sign, no leading zero) from its value.
- `Host`: `gather_host`. `platform` is the pretty name with a leading "windows "
  removed, compared without regard to case.
- `Memory`, `Disk`, `Net`: `gather_memory`, `gather_disk`, `gather_net`.
- `Pdh`: `query_current_freq_mhz`. The PDH library is a class. It records a trace of
  the calls made on it, and a ghost flag says whether a query is open. The class
  invariant ties the flag to a replay of the trace. Opening a second query, or using
  or closing a query that is not open, is refused by the methods' preconditions.
  Proved: every path leaves no query open, and closes the query exactly once when
  opening succeeded.
- `Cpu`: `gather_cpu`. The caller's `Vec<MetricError>` is a class holding a
  `seq<MetricError>`. `GatherCpu` runs the PDH reading and appends at most a
  frequency error, then always the temperature error.

Two behaviours of the code worth noting:

- when the disk query fails, the disk list is empty; there is no entry with
  absent fields;
- memory `usage_percent` is `used / total` even when `total` is 0, which gives
  NaN. It is an `f32` field and is not modelled.

## Model

| member | source | states |
|---|---|---|
| `Ints.SaturatingSub` | src/main.rs:262 | the result is the least non-negative value that, added to the subtrahend, reaches the minuend: the difference when it is non-negative, else 0 |
| `Ints.I64AsU64` | src/main.rs:141 | the cast keeps the 64 bits: the result is congruent to the input modulo 2^64, equals it for non-negative inputs, and is at least 2^63 for negative ones |
| `Decimal.Format` | src/main.rs:118 | the status text is canonical decimal (digits only, no leading zero) and denotes the number formatted |
| `Decimal.FormatValue` | src/main.rs:118 | formatting inverts reading: any canonical digit string is the text of its own value |
| `Decimal.CanonicalValue` | src/main.rs:118 | canonical text has value 0 only as "0", and a value below 10 only as one digit |
| `Decimal.ParseU16` | src/main.rs:349 | `parse::<u16>` succeeds exactly when the text after an optional '+' is non-empty, all ASCII digits, and its value is below 2^16; the value is then that number |
| `Decimal.Accumulate` | src/main.rs:349 | the digit loop behind `parse()`: a run succeeds only when it has read nothing but ASCII digits, never lowers the accumulated value, and fails at once on a non-digit |
| `Decimal.AccumulateValue` | src/main.rs:349 | the digit loop with checked multiply-and-add, continued from a parsed prefix, yields the value of the whole text exactly when the rest is digits and the value fits in 16 bits |
| `Decimal.ValueGrows` | src/main.rs:349 | appending digits never lowers the value, so once the loop overflows the whole text is out of range |
| `Decimal.ParseFormat` | src/main.rs:349 | every `u16` written in decimal, with or without a leading '+', parses back to itself |
| `Port.SelectPort` | src/main.rs:347-350 | the port is the parsed value when `PORT` is set and parses as a `u16`; when it is unset or does not parse, the port is 59232 |
| `Port.DefaultTextParses` | src/main.rs:348-350 | the fallback text "59232" parses to the fallback number 59232, so the two defaults agree |
| `Port.EveryPortSelectable` | src/main.rs:347-350 | every port 0..65535 is selected by its decimal text, with or without '+' |
| `Port.NonNumericFallsBack` | src/main.rs:349-350 | empty text, a lone '+', letters, a minus sign and leading blanks all give port 59232 instead of failing start-up |
| `Port.OutOfRangeFallsBack` | src/main.rs:349-350 | "65536", one past the `u16` range, gives port 59232 |
| `Host.Lower` | src/main.rs:313 | lower-casing keeps the length and maps every character on its own, as the comment at line 315 relies on |
| `Host.Skip` | src/main.rs:316 | skipping n characters leaves all characters after the first n, so the skipped part followed by the rest is the string |
| `Host.Platform` | src/main.rs:311-320 | when the first 8 characters lower-case to "windows " the platform is the pretty name minus those 8 characters; otherwise it is the pretty name unchanged |
| `Host.PlatformIsSuffix` | src/main.rs:311-320 | in both cases the platform is a tail of the pretty name and no longer than it |
| `Host.PlatformRestores` | src/main.rs:314-316 | when stripped, the removed 8 characters followed by the platform give back the pretty name |
| `Host.PlatformStripExamples` | src/main.rs:313-316 | "Windows 11 Pro" gives "11 Pro"; "WINDOWS Server 2022" gives "Server 2022" |
| `Host.PlatformKeepExamples` | src/main.rs:317-319 | "Ubuntu 22.04" and "Windows11" (no space) are kept as they are |
| `Host.GatherHost` | src/main.rs:306-328 | missing name, pretty name or kernel version become "unknown"; the platform follows the prefix rule on the pretty name, so a missing pretty name gives platform "unknown" |
| `Memory.GatherMemory` | src/main.rs:257-270 | each byte field is the corresponding sysinfo reading times 1024; used bytes equal the saturating difference of total and available bytes, so they never exceed total and are a multiple of 1024; used plus available is total when available does not exceed total |
| `Disk.GatherDisk` | src/main.rs:272-304 | the list is empty exactly when the query failed or the total is 0; otherwise it has one entry for "C:\\" with every field present, total and free as reported, and used the saturating difference, never above total |
| `Net.Named` | src/main.rs:333-340 | a named interface built from the defaults has every counter zero |
| `Net.GatherNet` | src/main.rs:331-342 | exactly two interfaces, "lo" then "eth0", every counter zero |
| `Pdh.Library.OpenQuery` | src/main.rs:116 | the status is the library's answer; a query is open afterwards exactly when it is 0; the call is appended to the trace |
| `Pdh.Library.AddCounter` | src/main.rs:121-123 | needs an open query; records the counter path and its status; the query stays open |
| `Pdh.Library.CollectQueryData` | src/main.rs:129-131 | needs an open query; recorded in the trace; the query stays open |
| `Pdh.Library.GetFormattedCounterValue` | src/main.rs:133-135 | needs an open query; returns the library's status and 64-bit value; the query stays open |
| `Pdh.Library.CloseQuery` | src/main.rs:125 | needs an open query, which is closed afterwards |
| `Pdh.ReplayAppend` | src/main.rs:113-142 | replaying two traces one after the other equals replaying their concatenation, which lets each library call preserve the trace invariant |
| `Pdh.FreqQueryCalls` | src/main.rs:116-136 | a reading always opens a query; it adds the counter only after a successful open; it collects and formats only when the add succeeded; it ends with a close exactly when the open succeeded, including the close after a failed add at line 125 |
| `Pdh.Failed` | src/main.rs:118 | an error text is the library function's name, " failed: ", then the status in canonical decimal, from which the status can be read back |
| `Pdh.FreqQueryResult` | src/main.rs:115-141 | the result is `Ok` exactly when the open, add and format statuses are all 0, and then it is the formatted value cast to `u64`; otherwise it is the message of the first failing step: "PdhOpenQueryW failed: N", "PdhAddCounterW failed: N" or "PdhGetFormattedCounterValue failed: N" |
| `Pdh.QueryCurrentFreqMhz` | src/main.rs:113-142 | no query is left open on any path; the calls made and the result are those of the step where the reading stopped |
| `Pdh.FreqQueryBalanced` | src/main.rs:115-141 | every path uses the query only while it is open and ends with it closed; it is closed exactly once when opening succeeded, and never when opening failed |
| `Pdh.OpenFailureStopsAtOpen` | src/main.rs:116-119 | a failed open makes no further call (no counter added, no close) and returns the "PdhOpenQueryW failed: <status>" error |
| `Pdh.AddFailureClosesQuery` | src/main.rs:123-127 | when adding the counter fails, the calls are open, add, close, with nothing collected, and the result is "PdhAddCounterW failed: N" |
| `Pdh.FormatFailureClosesQuery` | src/main.rs:133-139 | when formatting fails, the query is still closed, exactly once, right after the format call, and the result is "PdhGetFormattedCounterValue failed: N" |
| `Pdh.FreqQueryExtendsTrace` | src/main.rs:113-142 | a reading started with no query open leaves the library's whole history well formed with no query open |
| `Cpu.ErrorList.Push` | src/main.rs:227 | appends one error at the end and leaves earlier entries as they were |
| `Cpu.MaxFrequency` | src/main.rs:216-221 | the base frequency is at least every core's rated frequency, is one of them, and is 0 when there are no cores |
| `Cpu.CpuErrors` | src/main.rs:224-239 | one appended error when the frequency read succeeded, two when it failed; the last is always `cpu.temperature` with the message "unable to read CPU temperature"; when there are two, the first is `cpu.current_frequency` carrying the failure's message |
| `Cpu.FrequencyErrorIff` | src/main.rs:224-233 | a `cpu.current_frequency` entry is among the appended errors if and only if the frequency read failed |
| `Cpu.GatherCpu` | src/main.rs:206-255 | the caller's errors become the old list followed by those errors; the live frequency is present exactly when the PDH reading succeeded; the temperature is absent; base frequency, logical and physical core counts come from the readings; the PDH library is left with no query open |
| `Cpu.CpuErrorsFromPdh` | src/main.rs:224-239 | two errors are appended, and the live frequency is absent, exactly when some checked PDH status was non-zero; the frequency error then carries the PDH message and the temperature error still comes last |

## Left out

- HTTP routing, the handlers (`all_metrics`, `cpu_metrics`, `memory_metrics`, the `{"data": null}` fallback), the access-log middleware, the socket bind and the tokio runtime (src/main.rs:147-202, 352-362): framework plumbing, wall-clock timing and date formatting.
- The sysinfo, PDH and `GetDiskFreeSpaceExW` calls themselves: their results are parameters (`CpuReadings`, `Pdh.Answers`, `Disk.DiskSpace`, the `Option<string>` arguments).
- The statuses of `PdhCollectQueryData` and `PdhCloseQuery`: the code ignores them.
- The `query` and `counter` handle values: one `Pdh.Library` object stands for the one query a reading opens.
- The settle delays (`thread::sleep` of 250 ms and 120 ms): timing only.
- The `f32` fields: CPU `usage_percent` and `free_percent`, memory and disk `usage_percent`. The temperature is modelled as an absent `Option<real>`.
- JSON serialisation.
- Host.Lower: maps only ASCII letters. Rust's `to_lowercase` also lowers other letters, and a few of them change the string's length. The code's comment at line 315 assumes no length change.
- The unit of sysinfo's memory readings: the model multiplies them by 1024, as the code does. Recent sysinfo versions report bytes, and then the byte fields come out 1024 times the real byte counts.
- Memory.GatherMemory: requires both readings times 1024 to fit in a `u64`. The source would panic on overflow in a debug build and wrap in a release build.
- Decimal.ParseU16: returns `None` for every parse error. Rust's error kinds (empty, invalid digit, overflow) are not kept, because `unwrap_or` discards them.
- Port.SelectPort: an unset `PORT` and a value that is not valid Unicode are both `None`, as `env::var` fails for both.
