# mcp-compute-scout in Dafny

A model of the core of mcp-compute-scout. The scout is a service that looks at a set of
compute hosts over `ssh` and reports their CPU, memory, load and GPU usage. It also picks the
least loaded host that meets a set of criteria.

The model covers three parts.

- **Configuration** (`config.dfy`):
  - server definitions, including host-range patterns such as `orca{01..16}`, matched the way
    `re.match` matches `(.+)\{(\d+)\.\.(\d+)\}` when `\d` is read as the ASCII digits;
  - the defaults of the `ssh` and `cache` sections;
  - looking up a server by name and selecting the GPU servers;
  - building the `ssh` argument vector.
- **Parsers** (`parsers.dfy`): the parsers for the outputs of remote commands, which cover
  CPU, memory, load average, GPU utilisation, GPU memory and GPU processes.
- **Server checker** (`checker.dfy`):
  - running one command and classifying how it failed;
  - probing one host into a snapshot;
  - the snapshot cache and its time-to-live (TTL);
  - checking several hosts at once;
  - choosing the best host.

Supporting modules:
- `text.dfy`: the Python string operations the source relies on (`strip`, `rstrip`,
  `split`, `re.split(r'[,\s]+')`, `in`, `lower`, `str(int)`, `zfill`).
- `numerals.dfy`: `int()` and `float()` on decimal literals, and `round(x, 1)`.
- `seqs.dfy`: the keep-what-parses loop that every list parser shares.
- `wrappers.dfy`: `Option`.

The source works through side effects. These appear in the model as parameters:
- The `ssh` subprocess is an `Executor`, a function from the argument vector to an `Outcome`:
  a completed run with return code, stdout and stderr, a timeout, or a launch failure.
- The clock `time.time()` is a `now` parameter.
- `$USER` is a `user` parameter.

The `ServerChecker` keeps its cache as a `map` field that its methods update. Each method is
proved against a function of the old cache: `Lookup` and `Batch` give the returned snapshots,
and `Refresh` gives the new cache.

A result dictionary is a `Snapshot`. Each of its optional keys is a `Field`: `Missing` when
the key is absent, `Stored(v)` when present. The distinction matters because `score_server`
treats an absent `cpu_usage` as 100 but fails with a `TypeError` on a stored `None`. The model
returns `ScoreFailed` in that case.

## Model

| member | source | states |
|---|---|---|
| Text.IsSpace | src/mcp_compute_scout/parsers.py:17 | the characters Python's `str.isspace` accepts, which `strip()` removes |
| Text.Strip | src/mcp_compute_scout/parsers.py:17 | `str.strip()`: the result is no longer than the input and has no whitespace at either end |
| Text.RStrip | src/mcp_compute_scout/parsers.py:17 | `str.rstrip(c)`: the result is a prefix of the input that does not end in `c`, and everything dropped is `c` |
| Text.Split | src/mcp_compute_scout/parsers.py:65 | `str.split(c)`: at least one piece, none containing `c`, and at most one more piece than characters |
| Text.SplitRuns | src/mcp_compute_scout/parsers.py:47 | `re.split(r'[,\s]+', s)`: at least one piece, and no piece holds a comma or whitespace |
| Text.Contains | src/mcp_compute_scout/parsers.py:61 | Python's `sub in s`: some position of `s` starts with `sub` |
| Text.ContainsAt | src/mcp_compute_scout/parsers.py:61 | an occurrence of `sub` at any position makes `sub in s` true |
| Text.ContainsWitness | src/mcp_compute_scout/parsers.py:61 | when `sub in s` holds, there is a position where `sub` occurs |
| Text.NotContains | src/mcp_compute_scout/parsers.py:61 | a string without the first character of `sub` does not contain `sub` |
| Text.NatToString | src/mcp_compute_scout/config.py:91 | `str(n)` for a natural number: at least one decimal digit and no leading zero unless the numeral is `0` |
| Text.StripIdempotent | src/mcp_compute_scout/parsers.py:17 | stripping twice is stripping once |
| Text.StripSpan | src/mcp_compute_scout/parsers.py:17 | `strip()` leaves a slice of the text with no whitespace at its ends, and everything it drops before and after that slice is whitespace |
| Text.RStripRepeat | src/mcp_compute_scout/parsers.py:17 | `rstrip('%')` removes any number of trailing percent signs and nothing else |
| Text.JoinSplit | src/mcp_compute_scout/parsers.py:65 | joining the pieces of `split('\n')` with newlines gives back the text |
| Text.SplitJoin | src/mcp_compute_scout/parsers.py:65 | splitting a join of separator-free pieces gives back the pieces |
| Text.SplitRunsJoin | src/mcp_compute_scout/parsers.py:47 | `re.split(r'[,\s]+')` of non-empty separator-free tokens joined by any run of commas and whitespace gives back the tokens |
| Text.Lower | src/mcp_compute_scout/parsers.py:61 | lowercasing keeps the length, leaves no capital letter, turns each capital into its small letter and keeps every other character |
| Text.NatToStringValue | src/mcp_compute_scout/config.py:91 | `str(n)` is a decimal numeral that reads back as `n` |
| Text.ZFillValue | src/mcp_compute_scout/config.py:91 | a zero-filled numeral of `n` is all digits and still reads back as `n` |
| Text.ZFill | src/mcp_compute_scout/config.py:91 | `zfill(w)` pads with leading zeros to width `w` and never shortens |
| Numerals.ParseInt | src/mcp_compute_scout/parsers.py:67 | `int(s)`: surrounding whitespace, an optional sign and one or more ASCII digits; anything else is `None` (a `ValueError`); an accepted text ends, once stripped, in a digit |
| Numerals.ParseFloat | src/mcp_compute_scout/parsers.py:18 | `float(s)` on plain decimal literals with optional sign, digits and at most one point; anything else is `None` (a `ValueError`) |
| Numerals.FloatOfInt | src/mcp_compute_scout/parsers.py:18 | every text `int()` accepts, `float()` accepts with the same value |
| Numerals.FloatOfNat | src/mcp_compute_scout/parsers.py:18 | `float(str(n))` is `n` |
| Numerals.DecimalLiteral | src/mcp_compute_scout/parsers.py:18 | `float` of `ip.fp` is the integer part plus the fraction's value |
| Numerals.FloatLiteralEnd | src/mcp_compute_scout/parsers.py:18 | text `float()` accepts ends, once stripped, in a digit or a point |
| Numerals.PercentNotLiteral | src/mcp_compute_scout/parsers.py:31-34 | text ending in `%` is not a `float()` literal |
| Numerals.IntLiteral | src/mcp_compute_scout/parsers.py:67 | a text `int()` accepts ends in a digit |
| Numerals.RoundTenth | src/mcp_compute_scout/parsers.py:92 | `round(x, 1)` is a multiple of a tenth within 0.05 of `x` |
| Numerals.RoundTenthNearest | src/mcp_compute_scout/parsers.py:92 | no multiple of a tenth is nearer to `x` than `round(x, 1)` |
| Numerals.RoundTenthExact | src/mcp_compute_scout/parsers.py:92 | a value that is already a multiple of a tenth is unchanged |
| Numerals.RoundTenthWithin | src/mcp_compute_scout/parsers.py:92 | rounding stays within any tenth-aligned interval holding `x` |
| Seqs.FilterMapAppend | src/mcp_compute_scout/parsers.py:64-71 | the keep-what-parses loop distributes over concatenation, so input order is kept |
| Seqs.FilterMapMember | src/mcp_compute_scout/parsers.py:64-71 | a value is kept iff some element yields it |
| Seqs.FilterMapEmpty | src/mcp_compute_scout/parsers.py:64-71 | nothing is kept iff no element yields a value |
| Seqs.FilterMapTotal | src/mcp_compute_scout/parsers.py:64-71 | when every element yields a value, all are kept one for one |
| Parsers.ParseCpuUsage | src/mcp_compute_scout/parsers.py:7-20 | empty output gives `None` |
| Parsers.CpuUsageIgnoresPercent | src/mcp_compute_scout/parsers.py:15-18 | trailing percent signs after stripped text do not change the reading |
| Parsers.CpuUsageOfNat | src/mcp_compute_scout/parsers.py:7-20 | `"<n>%"` reads as `n` |
| Parsers.CpuUsageDecimal | src/mcp_compute_scout/parsers.py:7-20 | a decimal `ip.fp` reads as its value |
| Parsers.CpuUsageExample | src/mcp_compute_scout/parsers.py:10 | `"12.5"` reads as 12.5 |
| Parsers.CpuUsageRejectsWord | src/mcp_compute_scout/parsers.py:19-20 | the word `"abc"` is no number and gives `None` instead of raising |
| Parsers.ParseMemoryUsage | src/mcp_compute_scout/parsers.py:23-34 | empty output gives `None` |
| Parsers.MemoryUsageRejectsPercent | src/mcp_compute_scout/parsers.py:31-34 | unlike the CPU parser, a reading that still ends in `%` once stripped makes the memory reading `None` |
| Parsers.MemoryAgreesWithCpu | src/mcp_compute_scout/parsers.py:7-34 | without a percent sign the memory and CPU parsers agree |
| Parsers.Unsupported | src/mcp_compute_scout/parsers.py:61 | the output reports a missing command: its lower-cased text contains `not found` |
| Parsers.Lines | src/mcp_compute_scout/parsers.py:65 | the lines of the stripped output, split at each newline; there is always at least one |
| Parsers.LoadTriple | src/mcp_compute_scout/parsers.py:47-49 | the first three tokens as floats, `None` when there are fewer than three or one is no float |
| Parsers.ParseLoadAverage | src/mcp_compute_scout/parsers.py:37-53 | empty output gives `None`; a triple needs at least three tokens |
| Parsers.LoadAverageSeparators | src/mcp_compute_scout/parsers.py:45-49 | tokens joined by one run of commas and whitespace, the same run repeated between every pair, parse as the first three tokens do |
| Parsers.LoadAverageDecimals | src/mcp_compute_scout/parsers.py:37-49 | three decimals with any such separators give the triple of their values |
| Parsers.UsageLine | src/mcp_compute_scout/parsers.py:67 | one utilisation line: `int(line.strip())`, `None` on `ValueError` |
| Parsers.GpuUsageOf | src/mcp_compute_scout/parsers.py:56-71 | never an empty list; empty or "not found" output gives `None`; at most one reading per line |
| Parsers.ParseGpuUsage | src/mcp_compute_scout/parsers.py:56-71 | the loop over lines computes `GpuUsageOf` |
| Parsers.CollectUsages | src/mcp_compute_scout/parsers.py:64-69 | the loop keeps, in order, the value of every line that `int()` accepts |
| Parsers.ReadingsEach | src/mcp_compute_scout/parsers.py:65-69 | each printed reading, on its own line, parses as that reading |
| Parsers.ReadingsParse | src/mcp_compute_scout/parsers.py:65-69 | each line of a listing of readings parses to its reading, so all are kept |
| Parsers.GpuUsageMember | src/mcp_compute_scout/parsers.py:64-69 | a reading is listed iff some line parses to it |
| Parsers.GpuUsageNone | src/mcp_compute_scout/parsers.py:71 | when no line parses, the result is `None` |
| Parsers.NoLetterNSupported | src/mcp_compute_scout/parsers.py:61 | text without the letter n never triggers the "not found" test |
| Parsers.GpuUsageRoundTrip | src/mcp_compute_scout/parsers.py:56-71 | a listing of readings, one per line, parses back to those readings |
| Parsers.ListingLines | src/mcp_compute_scout/parsers.py:65 | such a listing splits into its lines and is not a "not found" message |
| Parsers.UsedPercent | src/mcp_compute_scout/parsers.py:92 | with a positive total and used within it, the percentage lies in 0..100 |
| Parsers.UsedPercentExample | src/mcp_compute_scout/parsers.py:92 | 1000 of 4000 MB is 25.0 percent |
| Parsers.MemoryLine | src/mcp_compute_scout/parsers.py:85-93 | one memory line: the stripped line split at commas, at least two integer fields, their rounded percentage; `None` otherwise |
| Parsers.GpuMemoryOf | src/mcp_compute_scout/parsers.py:74-97 | never an empty list; empty or "not found" output gives `None`; at most one entry per line |
| Parsers.ParseGpuMemory | src/mcp_compute_scout/parsers.py:74-97 | the loop over lines computes `GpuMemoryOf` |
| Parsers.CollectMemories | src/mcp_compute_scout/parsers.py:82-95 | the loop keeps, in order, the entry of every line that parses as `used,total` |
| Parsers.GpuMemoryMember | src/mcp_compute_scout/parsers.py:83-95 | each entry comes from a line, its percentage is the rounded ratio, and it is 0 when the total is not positive |
| Parsers.MemoryLineRoundTrip | src/mcp_compute_scout/parsers.py:85-93 | a line `used,total` parses back to those numbers and their percentage |
| Parsers.GpuMemoryRoundTrip | src/mcp_compute_scout/parsers.py:74-97 | such a line on its own is a one-GPU report |
| Parsers.ProcessLine | src/mcp_compute_scout/parsers.py:110-119 | one process line: blank lines skipped, otherwise the first three of at least three comma-separated fields, stripped |
| Parsers.GpuProcessesOf | src/mcp_compute_scout/parsers.py:100-121 | never an empty list; empty or "not found" output gives `None`; at most one process per line |
| Parsers.ParseGpuProcesses | src/mcp_compute_scout/parsers.py:100-121 | the loop over lines computes `GpuProcessesOf` |
| Parsers.CollectProcesses | src/mcp_compute_scout/parsers.py:108-119 | the loop keeps, in order, the process of every non-blank line with three fields |
| Parsers.ProcessLineFields | src/mcp_compute_scout/parsers.py:113-119 | a line of three or more comma-free fields gives a process of the first three fields, stripped |
| Parsers.ProcessLineShort | src/mcp_compute_scout/parsers.py:114 | a line with fewer than three fields gives no process |
| Config.ParseSsh | src/mcp_compute_scout/config.py:111-124 | absent keys get timeout 10, username `$USER`, and no options |
| Config.ParseSshKeeps | src/mcp_compute_scout/config.py:119-122 | defaults only fill gaps: complete settings come back unchanged |
| Config.Load | src/mcp_compute_scout/config.py:48-54 | servers are the expanded definitions; no `commands` section gives an empty map; no `cache` section gives a TTL of 30 |
| Config.DigitRunExact | src/mcp_compute_scout/config.py:83 | `\d+` takes exactly the digits before a non-digit |
| Config.DigitRunSpan | src/mcp_compute_scout/config.py:83 | `\d+` takes a run of digits that is not followed by another digit |
| Config.GroupAtSound | src/mcp_compute_scout/config.py:83 | a match found at a prefix length is a match of the pattern with that prefix |
| Config.GroupAtComplete | src/mcp_compute_scout/config.py:83 | every match of the pattern is found at its prefix length |
| Config.MatchFromGreedy | src/mcp_compute_scout/config.py:83 | the search from the right finds a match, and its prefix is at least as long as that of any prefix end that matches |
| Config.MatchRangeSound | src/mcp_compute_scout/config.py:83 | a found match matches, and its prefix is the longest possible (greedy `.+`) |
| Config.MatchFromSound | src/mcp_compute_scout/config.py:83 | whatever the search from the right finds is a match of the pattern |
| Config.MatchFromNone | src/mcp_compute_scout/config.py:83-84 | the search from the right finds nothing iff no prefix end up to its start yields a match |
| Config.MatchFromSkip | src/mcp_compute_scout/config.py:83 | prefix ends that yield no match do not affect the search |
| Config.MatchRange | src/mcp_compute_scout/config.py:83 | a found match is a match of the pattern |
| Config.MatchRangeNone | src/mcp_compute_scout/config.py:83-84 | no match is found iff the pattern has none |
| Config.MatchRangeOf | src/mcp_compute_scout/config.py:83-88 | `prefix{a..b}` followed by brace-free text yields exactly the groups `prefix`, `a`, `b` |
| Config.AppendRange | src/mcp_compute_scout/config.py:90-98 | the range loop appends one host per number from start to end |
| Config.ParseServers | src/mcp_compute_scout/config.py:63-109 | the loop over definitions computes `Expand` |
| Config.ExpandDef | src/mcp_compute_scout/config.py:67-107 | one definition: a named host, a host range, a literal pattern, or nothing |
| Config.Expand | src/mcp_compute_scout/config.py:63-109 | the definitions expanded one after another, in order |
| Config.ExpandAppend | src/mcp_compute_scout/config.py:67 | expansion distributes over the definition list, keeping order |
| Config.ExpandNamed | src/mcp_compute_scout/config.py:68-76 | a named definition gives one host whose address defaults to the name and whose GPU flag defaults to false |
| Config.ExpandNothing | src/mcp_compute_scout/config.py:67-77 | a definition with neither name nor pattern gives nothing |
| Config.ExpandLiteral | src/mcp_compute_scout/config.py:99-107 | a pattern without a range is used as name and address |
| Config.ExpandRangeCount | src/mcp_compute_scout/config.py:84-90 | a range gives `end - start + 1` hosts, none if end < start |
| Config.ExpandRangeNames | src/mcp_compute_scout/config.py:85-97 | the k-th host's name is the prefix followed by `str(start + k).zfill(len(start))`, so its number part is exactly as wide as the start as written, or as wide as the numeral when that is longer, and never cut; those digits read as `start + k`; its address is its name and its GPU flag the pattern's |
| Config.RangeNameValue | src/mcp_compute_scout/config.py:91 | a range name is the prefix followed by digits reading as the host's number |
| Config.RangeAscending | src/mcp_compute_scout/config.py:90-91 | range hosts carry strictly increasing numbers |
| Config.Count | src/mcp_compute_scout/config.py:90 | the number of hosts `range(start, end + 1)` yields: `end - start + 1`, or none when the end is below the start |
| Config.RangeName | src/mcp_compute_scout/config.py:91 | the name of the k-th host: the prefix and `str(start + k).zfill(width)` |
| Config.RangeServers | src/mcp_compute_scout/config.py:90-98 | the hosts of a range, one per number, each named as `RangeName` says, with the name as address and the pattern's GPU flag; there are exactly as many as asked |
| Config.TimeoutOption | src/mcp_compute_scout/config.py:145 | the `-o` value `ConnectTimeout=` followed by the timeout in decimal |
| Config.GetServer | src/mcp_compute_scout/config.py:126-131 | `None` iff no server has the name; otherwise the first server with that name |
| Config.GpuServers | src/mcp_compute_scout/config.py:133-135 | only GPU servers are kept |
| Config.GpuServersMember | src/mcp_compute_scout/config.py:133-135 | a server is kept iff it is configured and has a GPU |
| Config.GpuServersAppend | src/mcp_compute_scout/config.py:133-135 | selection distributes over concatenation, keeping order |
| Config.GpuServersAll | src/mcp_compute_scout/config.py:133-135 | when every server has a GPU, all are kept |
| Config.Target | src/mcp_compute_scout/config.py:147-151 | the target always ends in the host |
| Config.TargetSplit | src/mcp_compute_scout/config.py:148-149 | with a username, the target splits at `@` into username and host |
| Config.SshArgv | src/mcp_compute_scout/config.py:137-156 | the argument vector is `ssh`, the options, `-o`, the timeout option, the target, and finally the command |
| Config.GetSshCommand | src/mcp_compute_scout/config.py:137-156 | the method builds `SshArgv` |
| Config.TimeoutOptionValue | src/mcp_compute_scout/config.py:145 | the digits after `ConnectTimeout=` read back as the configured timeout |
| Checker.Classify | src/mcp_compute_scout/server_checker.py:36-45 | the failure class of a non-zero exit, by the first stderr marker tested that occurs |
| Checker.ErrorMessage | src/mcp_compute_scout/server_checker.py:38-45 | the message for each failure class, naming the host |
| Checker.Interpret | src/mcp_compute_scout/server_checker.py:24-52 | output is returned iff the run completed with code 0, and it is the stripped stdout |
| Checker.RunSshCommand | src/mcp_compute_scout/server_checker.py:24-52 | the method computes `Interpret` of the executor's outcome for the argument vector |
| Checker.ClassifyPrecedence | src/mcp_compute_scout/server_checker.py:36-45 | the markers are tested in a fixed order: a failure is of a class iff its marker occurs and no earlier-tested marker does; with none of them the detail is the stripped stderr |
| Checker.DecodeErrorMessage | src/mcp_compute_scout/server_checker.py:36-52 | the raised message determines the failure class: the classes' messages are distinct |
| Checker.TimeoutNotDecoded | src/mcp_compute_scout/server_checker.py:49-52 | a timeout's message lacks the `SSH failed: ` prefix |
| Checker.HostnameMarkerFirst | src/mcp_compute_scout/server_checker.py:38-43 | an unresolved hostname wins over any other marker in stderr |
| Checker.RunCommand | src/mcp_compute_scout/server_checker.py:65 | a missing command key raises `KeyError`; otherwise the configured command runs |
| Checker.Run | src/mcp_compute_scout/server_checker.py:65 | looking the command up by key (a `KeyError` when absent) and running it |
| Checker.KeyErrorMessage | src/mcp_compute_scout/server_checker.py:65 | the text of the `KeyError` for a missing command key, which is what `str(e)` gives: the key in single quotes |
| Checker.Stamp | src/mcp_compute_scout/server_checker.py:56-61 | the dictionary before any command runs: name, host, GPU flag and check time, no other key, and read as not online |
| Checker.Offline | src/mcp_compute_scout/server_checker.py:92-94 | an exception's message stored as `error`, with `online` false and every other key kept |
| Checker.GpuStage | src/mcp_compute_scout/server_checker.py:76-90 | the GPU stage changes only the GPU keys |
| Checker.GpuMemoryStage | src/mcp_compute_scout/server_checker.py:82-87 | the memory step changes only the memory, process and error keys |
| Checker.GpuProcessStage | src/mcp_compute_scout/server_checker.py:85-87 | the process step changes only the process and error keys |
| Checker.CheckGpu | src/mcp_compute_scout/server_checker.py:76-90 | the method computes `GpuStage` |
| Checker.GpuStageFailure | src/mcp_compute_scout/server_checker.py:78-90 | a failing GPU command records its message and sets no later GPU key; successful ones store their parses; processes need a configured command |
| Checker.Probe | src/mcp_compute_scout/server_checker.py:54-61 | the snapshot carries the server's name, host and GPU flag, and the check time |
| Checker.CheckServerSync | src/mcp_compute_scout/server_checker.py:54-98 | the method computes `Probe` |
| Checker.ProbeOnline | src/mcp_compute_scout/server_checker.py:63-96 | online iff the three mandatory commands answer. Offline after the k-th command: the error is that command's message; when k ≥ 1 the CPU entry holds the parse of the first output, when k ≥ 2 the memory entry holds the parse of the second; nothing later is set and no GPU key. Online: no error and the three parsed metrics |
| Checker.LaterCommandsIgnored | src/mcp_compute_scout/server_checker.py:63-94 | after a mandatory failure the snapshot depends on no later command's outcome |
| Checker.ProbeGpu | src/mcp_compute_scout/server_checker.py:76-96 | GPU keys appear only on an online GPU host; a GPU failure leaves the host online |
| Checker.UnknownHostOffline | src/mcp_compute_scout/server_checker.py:36-39 | an unresolvable host is offline with `SSH failed: Unknown host: <host>` |
| Checker.UnknownHostRun | src/mcp_compute_scout/server_checker.py:36-39 | a non-zero exit whose stderr names an unresolved hostname raises `SSH failed: Unknown host: <host>` |
| Checker.MissingCommandOffline | src/mcp_compute_scout/server_checker.py:65 | no `cpu_usage` command leaves the host offline with error `'cpu_usage'` and nothing else set |
| Checker.NoCommandsOffline | src/mcp_compute_scout/config.py:52 | a configuration without commands takes every host offline |
| Checker.RecheckWithinTtl | src/mcp_compute_scout/server_checker.py:103-113 | a just-probed host is served from the cache, whatever the executor, until the TTL elapses |
| Checker.Lookup | src/mcp_compute_scout/server_checker.py:100-115 | `check_server`'s result: the cached snapshot when fresh and caching is on, otherwise a new probe |
| Checker.Batch | src/mcp_compute_scout/server_checker.py:117-120 | one result per host, in input order, each with that host's name |
| Checker.Refresh | src/mcp_compute_scout/server_checker.py:110-113 | the cache after a batch: each probed host's snapshot written under its name, in input order |
| Checker.RefreshKeyed | src/mcp_compute_scout/server_checker.py:113 | writing back keeps every cached snapshot under its own name |
| Checker.RefreshOthers | src/mcp_compute_scout/server_checker.py:113 | a name not in the batch keeps its cache entry |
| Checker.RefreshStoresBatch | src/mcp_compute_scout/server_checker.py:110-120 | with distinct names, the cache afterwards holds exactly the returned snapshots |
| Checker.LookupAll | src/mcp_compute_scout/server_checker.py:100-120 | the lookup loop returns `Batch` of the cache on entry and records which hosts were fresh cache hits |
| Checker.WriteBack | src/mcp_compute_scout/server_checker.py:112-113 | writing back every probed snapshot gives `Refresh` of the cache on entry |
| Checker.ServerChecker.constructor | src/mcp_compute_scout/server_checker.py:19-22 | the cache starts empty |
| Checker.ServerChecker.CheckServer | src/mcp_compute_scout/server_checker.py:100-115 | a fresh entry is returned with the cache unchanged; otherwise a new probe is returned and written back |
| Checker.ServerChecker.CheckServers | src/mcp_compute_scout/server_checker.py:117-120 | the results are `Batch` of the cache on entry, and the new cache is `Refresh` of it |
| Checker.ServerChecker.CheckAll | src/mcp_compute_scout/server_checker.py:122-124 | `CheckServers` over all configured servers |
| Checker.ServerChecker.CheckGpuServers | src/mcp_compute_scout/server_checker.py:126-129 | `CheckServers` over the GPU servers |
| Checker.ServerChecker.FindBestServer | src/mcp_compute_scout/server_checker.py:131-191 | the choice is `Select` over the batch of the GPU servers, or of all servers |
| Checker.ServerChecker.ClearCache | src/mcp_compute_scout/server_checker.py:193-195 | the cache is empty, so every lookup probes |
| Checker.Eligible | src/mcp_compute_scout/server_checker.py:148-172 | every kept result passes the filters |
| Checker.EligibleMember | src/mcp_compute_scout/server_checker.py:148-172 | a result is kept iff it is among the results and passes the filters |
| Checker.EligibleIgnoresMemoryAmount | src/mcp_compute_scout/server_checker.py:160-165 | the amount of a memory requirement does not affect the filtering |
| Checker.FilterResults | src/mcp_compute_scout/server_checker.py:148-172 | the filter loop computes `Eligible` |
| Checker.ScoreAll | src/mcp_compute_scout/server_checker.py:178-189 | the scoring loop computes `Scores`: the keys in order, or `None` when some candidate cannot be scored |
| Checker.Hit | src/mcp_compute_scout/server_checker.py:103-105 | `check_server` answers from the cache exactly when `use_cache` is on, the name is cached, and the entry's age is below the ttl |
| Checker.Pool | src/mcp_compute_scout/server_checker.py:139-143 | the hosts checked: the GPU servers when a GPU is asked for, otherwise every server |
| Checker.Known | src/mcp_compute_scout/server_checker.py:156-157 | a metric the filters can compare: present and not `None` |
| Checker.HasGpuReadings | src/mcp_compute_scout/server_checker.py:168-170 | `server.get('gpu_usage')` is truthy: a stored, non-empty list |
| Checker.Passes | src/mcp_compute_scout/server_checker.py:148-172 | a result passes when it is online, its CPU is known and at most `max_cpu` when that is given, its memory is known and at most 80 when `min_memory_gb` is given, and it has GPU readings when a GPU is asked for |
| Checker.Metric | src/mcp_compute_scout/server_checker.py:179-180 | `server.get(key, 100)`: 100 for an absent key, the stored value (possibly `None`) otherwise |
| Checker.GpuScore | src/mcp_compute_scout/server_checker.py:183-185 | the mean of the GPU usage readings when there are any, otherwise 0 |
| Checker.Score | src/mcp_compute_scout/server_checker.py:178-187 | `score_server`: cpu plus memory plus mean GPU usage, an absent metric counting 100; `None` where a stored `None` raises `TypeError` |
| Checker.FirstMin | src/mcp_compute_scout/server_checker.py:189-191 | the position a stable ascending sort moves to the front: a least key, before which all keys are larger |
| Checker.FirstMinUnique | src/mcp_compute_scout/server_checker.py:189-191 | that position is unique |
| Checker.FirstMinimum | src/mcp_compute_scout/server_checker.py:189-191 | the minimum loop finds `FirstMin` |
| Checker.Select | src/mcp_compute_scout/server_checker.py:148-191 | `find_best_server`'s choice: none, the first eligible host of least score, or the scoring failure |
| Checker.SelectNone | src/mcp_compute_scout/server_checker.py:174-175 | no host is chosen iff no result passes the filters |
| Checker.SelectBestSound | src/mcp_compute_scout/server_checker.py:177-191 | the chosen host passes the filters, scores no more than any passing host, and every passing host before it in the input scores strictly more |
| Checker.SelectEarliest | src/mcp_compute_scout/server_checker.py:189-191 | the chosen host sits at a position of the input before which every passing host scores strictly more: among equal scores the earliest wins |
| Checker.EligiblePosition | src/mcp_compute_scout/server_checker.py:152-172 | filtering keeps input order: the m-th kept result is at some input position whose predecessors yield exactly the first m kept results |
| Checker.SelectFailed | src/mcp_compute_scout/server_checker.py:178-189 | scoring fails iff some passing host has a cpu or memory value stored as `None` (`TypeError`); an absent one scores 100 |
| Checker.SelectBest | src/mcp_compute_scout/server_checker.py:148-191 | the filter, score and minimum loops compute `Select` |
| Checker.MemoryAmountIgnored | src/mcp_compute_scout/server_checker.py:160-165 | only the presence of `min_memory_gb` affects the choice, which filters at 80 percent memory use |

## Left out

- Reading the YAML file: the search for it, `os.path.expandvars` and `yaml.safe_load`. The
  model starts from the loaded `RawConfig`.
- The `ssh.key_file` entry and its `os.path.expanduser`. Nothing in the core reads it.
- The `display` section. Nothing in the core reads it.
- YAML values of unexpected types, such as a `null` host, a non-boolean `has_gpu`, a
  fractional timeout or a non-string option. A `cache` section without `ttl` is also left out.
  In the source it raises `KeyError` only when a `check_server` call with `use_cache` on finds
  the host already in the cache (server_checker.py:103-105).
- `subprocess.run`, the thread pool and `asyncio`. The executor parameter stands for them.
- Checker.ServerChecker.CheckServers: snapshots are written back in input order, not in the
  order the probes complete. The two differ only when several hosts share a name.
- Checker.Probe: one `now` stands for every `time.time()` reading of a call.
- Numerals.ParseFloat: covers optional sign, digits and one point. Exponents, `inf`/`nan`,
  underscores and Unicode digits are not modelled, and values are exact reals rather than
  binary doubles.
- Numerals.ParseInt: covers optional sign and ASCII digits. Underscores and Unicode digits
  are not modelled, nor the limit of 4300 digits from Python 3.11 on, beyond which `int()` raises
  `ValueError` (parsers.py would skip such a line, config.py would fail): numerals of any length are read.
- Parsers.UsedPercent: the `OverflowError` of `used / total` when the quotient is beyond the range
  of a double (a `used` of some 400 digits over a total of 1) is not modelled. In the source it
  escapes the line's `except (ValueError, IndexError)`, so the host records a `gpu_error`, keeps no
  `gpu_memory` and skips `gpu_processes`; the model keeps the entry.
- Text.Lower: lowercases ASCII letters only.
- Config.DigitRunExact: `\d` is taken as the ASCII digits `0`-`9`. Python 3's `\d` in a `str` pattern
  also matches every other Unicode decimal digit, which the model does not represent.
- Config.DigitRunSpan: the digit run is ASCII-only, for the same reason.
- Config.MatchRange: `\d` is ASCII-only. A pattern such as `gpu{١..٣}`, written with Arabic-Indic
  digits, is a range in the source but a literal host name in the model.
- Parsers.UsedPercent: the ratio is an exact rational rounded half to even. The source rounds
  a binary double, so the two can differ on exact ties: 13 of 2000 MB is exactly 0.65 percent, which
  the model rounds to 0.6, while the source rounds the nearest double, which is not a tie.
- Numerals.RoundTenth: rounds exact rationals rather than binary doubles, with the same consequence.
- `format_bytes` and `format_server_status` (parsers.py). They only format output for display.
- `ServerChecker.__del__` (the thread-pool shutdown). It concerns resource management only.
- Checker.Score: scores are exact reals, so ties and comparisons ignore floating-point rounding.
