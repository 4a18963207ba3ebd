# serverCheck: registry and health-check model

A Dafny model of the bookkeeping inside the server-status monitor (`src/main.rs`).
The monitor keeps an ordered list of HTTP endpoints (`Server`: name, ip, port,
status, url). The user adds entries through a dialog and deletes them by row
index. The header shows aggregate counts. A periodic or manual check cycle
probes a snapshot of the list concurrently. It then writes each probe's status
back into the live list **by position**.

The model is functional. Statuses and servers are immutable datatypes, the list
is a `seq<Server>`, and every operation is a pure function:

- `Numbers` holds Rust's `u16` decimal formatting and parsing. The parse follows
  Rust's `str::parse::<u16>`: an optional `+`, then ASCII digits with a checked
  accumulation. It is proved equal to a reference grammar and to invert the
  formatting.
- `Servers` holds the `Status`/`Server` records, the derived URL
  `http://<ip>:<port>`, and the classification of one probe outcome.
- `Registry` holds removal by index, the `(total, online, offline)` counts,
  and the nine-entry fallback list.
- `Checks` holds the probe results for a snapshot and the positional write-back.
  It also holds lemmas for the undisturbed cycle and for the two races:
  - a removal during a cycle shifts later results by one position and drops the last result;
  - an append during a cycle leaves the new entries untouched.
- `Monitor` holds the application state: start-up (file or fallback), loading,
  `add_server`, the automatic-check step of `update`, "check now", and the
  pending deletion.

Two facts about the code that the model follows exactly:

- Port 0 is accepted: `parse::<u16>` accepts `0`, leading zeros and a leading
  `+`. Valid ports are exactly 0–65535.
- Records loaded from the configuration file are copied verbatim. The URL rule
  `url == http://<ip>:<port>` holds only for entries made by `add_server` and by
  the fallback list. `LoadServers` promises nothing about it.

## Model

| member | source | states |
|---|---|---|
| Numbers.Decimal | src/main.rs:120-124 | the `{}` rendering of a port is non-empty, all digits, has no leading zero, and denotes the port |
| Numbers.ParseU16 | src/main.rs:220 | no contract of its own; characterised by ParseU16Correct, ParseDecimalRoundTrip, ParseU16Accepts and ParseU16Rejects |
| Numbers.AccumulateValue | src/main.rs:220 | the parse's digit loop succeeds exactly when every character is a digit and `acc·10^n + value ≤ 65535`, and then yields that value |
| Numbers.ParseU16Correct | src/main.rs:220 | the `u16` parse accepts exactly "optional `+`, one or more digits, value ≤ 65535" and returns the value of the digits |
| Numbers.ParseDecimalRoundTrip | src/main.rs:220-226 | parsing the decimal text of any port, with or without a `+`, gives the port back |
| Numbers.DecimalInjective | src/main.rs:226 | distinct ports have distinct decimal texts |
| Numbers.ParseU16Accepts | src/main.rs:220 | `"0"`, `"+8080"`, `"08025"` and `"65535"` parse to 0, 8080, 8025 and 65535 |
| Numbers.ParseU16Rejects | src/main.rs:220 | `""`, `"+"`, `"-1"`, `"80a"` and `"65536"` are rejected |
| Servers.Url | src/main.rs:124 | no contract of its own; characterised by UrlDecomposes and UrlInjective: `http://`, the host, `:`, and the port in decimal |
| Servers.UrlDecomposes | src/main.rs:226 | a derived URL splits back into `http://`, the host, `:` and a text that parses to the port |
| Servers.UrlInjective | src/main.rs:124 | on one host, different ports give different URLs |
| Servers.IsSuccess | src/main.rs:160 | no contract of its own; the HTTP client's 2xx test (200–299), used by Classify |
| Servers.Classify | src/main.rs:186-197 | a transport error gives `Offline`, a 2xx response gives `Online`, any other response gives `Error` with its code, and never `Unchecked` |
| Servers.ClassifyRecoversFailures | src/main.rs:158-167 | every non-`Online` status determines the probe outcome that produced it |
| Servers.ClassifyExamples | src/main.rs:155-168 | 200 and 204 give `Online`; 301, 404 and 500 give `Error` with that code; a refused connection gives `Offline` |
| Registry.RemoveServer | src/main.rs:241-246 | an out-of-range index changes nothing; an in-range index drops exactly that entry, keeps the others in order, and removes exactly one copy of it |
| Registry.CountOnline | src/main.rs:252-255 | the online count never exceeds the list length |
| Registry.CountOnlineIsOnlineIndices | src/main.rs:252-255 | the filter-and-count equals the number of positions whose status is `Online` |
| Registry.GetStats | src/main.rs:249-258 | total is the length; online is the number of `Online` entries; `online ≤ total`; `online + offline == total` |
| Registry.CountOnlineAppend | src/main.rs:252-255 | the online count of a concatenation is the sum of the counts of its parts |
| Registry.StatsEmpty | src/main.rs:249-258 | an empty list gives `(0, 0, 0)` |
| Registry.StatsAfterRemove | src/main.rs:241-258 | removing an entry lowers total by one, and lowers online or offline by one depending on the removed entry's status |
| Registry.DefaultName | src/main.rs:120 | no contract of its own; the name `服务器-` followed by the port in decimal, fixed per entry by DefaultServers |
| Registry.ServersOn | src/main.rs:118-126 | one unchecked entry per port, in port order, on the given host, with the generated name and derived URL |
| Registry.DefaultServers | src/main.rs:111-126 | the fallback list has nine entries on the default host, in the listed port order, all `Unchecked`, named `服务器-<port>`, with URL `http://<ip>:<port>` |
| Registry.DefaultServersConsistent | src/main.rs:119-125 | every fallback entry obeys the URL rule |
| Registry.DefaultServersStats | src/main.rs:111-126 | the fallback list counts as `(9, 0, 9)` |
| Registry.DefaultPortsDistinct | src/main.rs:113 | the nine fallback ports are pairwise distinct |
| Registry.DefaultUrlsDistinct | src/main.rs:113-124 | no two fallback entries share a URL |
| Checks.Probe | src/main.rs:186-198 | a probed copy of an entry carries the classified status and is otherwise identical |
| Checks.ProbeAll | src/main.rs:176-205 | the collected results hold one probed copy per snapshot entry, in snapshot order |
| Checks.Reconcile | src/main.rs:207-213 | write-back keeps the length and all non-status fields; entry `i` takes result `i`'s status when both exist; entries past the results are unchanged |
| Checks.CheckCycle | src/main.rs:171-214 | no contract of its own; characterised by CycleUndisturbed, CycleAfterRemoval and CycleAfterAppend |
| Checks.ReconcileKeepsUrls | src/main.rs:208-213 | write-back preserves the URL rule |
| Checks.ReconcileDropsExtra | src/main.rs:209-211 | results past the end of the live list have no effect |
| Checks.ReconcileIdempotent | src/main.rs:208-213 | writing the same results back twice equals writing them once |
| Checks.CycleUndisturbed | src/main.rs:171-214 | with no concurrent change, each entry ends with its own probe's status and nothing else changes |
| Checks.CycleUndisturbedStats | src/main.rs:171-258 | after an undisturbed cycle, the online count equals the number of probes that got a 2xx response, and the total is unchanged |
| Checks.CycleAfterRemoval | src/main.rs:176-213 | if entry `k` is removed mid-cycle: entries before `k` get their own results, later entries get their predecessor's result, and the last result is dropped |
| Checks.CycleAfterAppend | src/main.rs:176-213 | entries appended mid-cycle keep their status; the snapshot's entries get their own results |
| Monitor.Initial | src/main.rs:66-91 | start-up uses the loaded list when loading succeeds, else the fallback list; auto-check is on every 30 s, the dialog is closed and empty, nothing is selected |
| Monitor.LoadDefaultServers | src/main.rs:111-129 | the list becomes the fallback list whatever it held; nothing else changes |
| Monitor.LoadServers | src/main.rs:142-152 | a successful load replaces the list verbatim; a failed load changes nothing |
| Monitor.ValidInput | src/main.rs:219-220 | no contract of its own; name and ip non-empty and the port text a `u16`, as AddServer and AddGrowsIffValid use it |
| Monitor.AddServer | src/main.rs:218-238 | invalid input changes nothing, fields and dialog included; valid input appends one unchecked server with the typed name and host, parsed port and derived URL, keeps earlier entries, clears the fields and closes the dialog |
| Monitor.AddGrowsIffValid | src/main.rs:219-229 | the list grows by one exactly when name and ip are non-empty and the port parses; otherwise it is unchanged |
| Monitor.RemoveUndoesAdd | src/main.rs:218-246 | removing the last index right after a valid add restores the list |
| Monitor.AddKeepsUrls | src/main.rs:221-229 | adding preserves the URL rule |
| Monitor.AddStats | src/main.rs:218-258 | a valid add raises total and offline by one and leaves online unchanged |
| Monitor.AddAcceptsZeroAndSign | src/main.rs:220-226 | port texts `"0"` and `"+0"` are accepted as port 0 |
| Monitor.AutoCheck | src/main.rs:264-267 | a check starts iff auto-check is on and elapsed ≥ interval; it then resets the last-check time to now, otherwise nothing changes |
| Monitor.Elapsed | src/main.rs:264 | no contract of its own; `Instant::elapsed`, saturating at zero; characterised by AutoCheck, FiresAfterInterval and NoDoubleFire |
| Monitor.CheckNow | src/main.rs:298-301 | the manual button always starts a check and resets only the last-check time |
| Monitor.TakePendingRemoval | src/main.rs:391-393 | a pending deletion is consumed and applied with the bounds-checked removal |
| Monitor.Update | src/main.rs:262-393 | a frame starts a check exactly under the auto-check condition and sets the last-check time to match; it then applies and clears the pending deletion, and changes nothing else |
| Monitor.NoDoubleFire | src/main.rs:264-267 | with a positive interval, a second frame at the same instant does not start another check |
| Monitor.FiresAfterInterval | src/main.rs:264 | with auto-check on, a frame at least one interval after the last check starts a check |
| Monitor.SilentWhenDisabled | src/main.rs:264 | with auto-check off, no frame starts a check |
| Monitor.InitialFallbackSound | src/main.rs:84-87 | start-up without a configuration file gives nine unchecked servers obeying the URL rule |

## Left out

- HTTP probing: the `reqwest` GET with its 5-second timeout (src/main.rs:78-81, 156, 187) is a foreign library call. A probe is an abstract `Outcome` input: a transport failure or a response code. The client keeps its default redirect policy (up to 10 redirects), so the `Outcome` is the final response. A 3xx reaches the classification only when it is not followed, and a redirect loop is a transport failure, i.e. `Offline`.
- `IsSuccess` is the HTTP client's 2xx test (200–299). It is written out rather than taken from the library.
- Concurrency: `tokio::spawn`, `join_all` and the mutex (src/main.rs:172-214) are not modelled as interleavings. A cycle is a pure function of the snapshot, the outcomes and the live list at write-back time. The races appear as the `CycleAfterRemoval` and `CycleAfterAppend` lemmas.
- Overlapping cycles are not modelled: two cycles started close together each write back independently.
- Persistence: `save_servers`, the serde JSON encoding, file I/O and the path helpers `get_exe_dir`/`get_config_path` (src/main.rs:95-152) are not modelled. A load is an abstract `Option` input (`None` for any read or parse failure). No save/load round trip is stated, because it would only restate serde.
- Diagnostics printed with `println!`/`eprintln!` are left out.
- Presentation: egui rendering, the status `to_string`/`color` helpers, opening URLs in a browser, the add dialog's open and cancel buttons, the auto-check checkbox, font loading in `init_chinese_font`, icon loading, and `main` (src/main.rs:29-47, 269-397, 400-494). Only the state effects of the add button (`AddServer`), the load button (`LoadServers`), the "check now" button (`CheckNow`) and the pending deletion (`TakePendingRemoval`) are modelled.
- `build.rs` only embeds Windows resources and has no logic.
- Time: `Instant`/`Duration` are natural numbers of nanoseconds supplied by the caller. `Elapsed` saturates at zero, as `Instant::elapsed` does. The source sets `last_check` from a second `Instant::now()` read just after the cycle is spawned (src/main.rs:266, 300). The model reuses the `now` the frame compared against, so `NoDoubleFire`'s "same instant" is that compared instant.
- `check_server_status` (src/main.rs:155-168) is never called. Its classification is the same as the cycle's, and `Servers.Classify` models both.
