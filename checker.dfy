/**
 * The server checker (server_checker.py): running one metric command over `ssh` and
 * classifying its failure, probing one host into a snapshot, the snapshot cache with its TTL,
 * checking many hosts at once, and choosing the least loaded host.
 *
 * The `ssh` subprocess is an executor passed in as a function from the argument vector to
 * what the run reported; the wall clock is a `now` parameter.
 */
module Checker {
  import opened Wrappers
  import opened Text
  import opened Parsers
  import opened Config

  // ---------------------------------------------------------------------------------------
  // one remote command

  /** What the executor reports for one `ssh` run. */
  datatype Outcome =
    | Completed(returnCode: int, stdout: string, stderr: string)
    | TimedOut
    | LaunchFailed(reason: string)

  /** The executor: the outcome of running an argument vector. */
  type Executor = seq<string> -> Outcome

  /** The failure classes of a run that exited non-zero. */
  datatype SshError = UnknownHost | ConnectionRefused | PermissionDenied | OtherError(detail: string)

  /** `_run_ssh_command`'s result: the stripped output, or the message of the exception it raises. */
  datatype CommandResult = Output(text: string) | Raised(message: string)

  /** Which failure a non-zero exit was, by the first of three `stderr` markers that occurs. */
  function Classify(stderr: string): SshError {
    if Contains(stderr, "Could not resolve hostname") then UnknownHost
    else if Contains(stderr, "Connection refused") then ConnectionRefused
    else if Contains(stderr, "Permission denied") then PermissionDenied
    else OtherError(Strip(stderr))
  }

  /** The message of the exception raised for a classified failure. */
  function ErrorMessage(host: string, e: SshError): string {
    match e
    case UnknownHost => "Unknown host: " + host
    case ConnectionRefused => "Connection refused to " + host
    case PermissionDenied => "Permission denied for " + host
    case OtherError(detail) => "SSH error: " + detail
  }

  /**
   * What `_run_ssh_command` makes of an outcome. Exceptions raised inside its `try` are
   * re-raised with the prefix `"SSH failed: "`; the timeout message is raised from the
   * handler itself and escapes without it.
   */
  function Interpret(host: string, o: Outcome): (r: CommandResult)
    ensures r.Output? <==> o.Completed? && o.returnCode == 0
    ensures r.Output? ==> r.text == Strip(o.stdout)
  {
    match o
    case Completed(code, out, err) =>
      if code != 0 then Raised("SSH failed: " + ErrorMessage(host, Classify(err))) else Output(Strip(out))
    case TimedOut => Raised("Connection timeout to " + host)
    case LaunchFailed(reason) => Raised("SSH failed: " + reason)
  }

  /** `_run_ssh_command(server, command)`. */
  method RunSshCommand(config: Config, server: ServerConfig, command: string, exec: Executor) returns (r: CommandResult)
    ensures r == Interpret(server.host, exec(SshArgv(config.ssh, server.host, command)))
  {
    var argv := GetSshCommand(config.ssh, server.host, command);
    var result := exec(argv);
    match result {
      case TimedOut =>
        return Raised("Connection timeout to " + server.host);
      case LaunchFailed(reason) =>
        return Raised("SSH failed: " + reason);
      case Completed(code, out, err) =>
        if code != 0 {
          return Raised("SSH failed: " + ErrorMessage(server.host, Classify(err)));
        }
        return Output(Strip(out));
    }
  }

  /**
   * The three `stderr` markers are tested in a fixed order: a failure is of a class exactly when
   * its marker occurs and the markers tested before it do not.
   */
  lemma ClassifyPrecedence(stderr: string)
    ensures Classify(stderr) == UnknownHost <==> Contains(stderr, "Could not resolve hostname")
    ensures Classify(stderr) == ConnectionRefused
      <==> !Contains(stderr, "Could not resolve hostname") && Contains(stderr, "Connection refused")
    ensures Classify(stderr) == PermissionDenied
      <==> (!Contains(stderr, "Could not resolve hostname") && !Contains(stderr, "Connection refused")
            && Contains(stderr, "Permission denied"))
    ensures Classify(stderr).OtherError?
      <==> (!Contains(stderr, "Could not resolve hostname") && !Contains(stderr, "Connection refused")
            && !Contains(stderr, "Permission denied"))
    ensures Classify(stderr).OtherError? ==> Classify(stderr).detail == Strip(stderr)
  {
  }

  /** Reads a failure back out of a message `_run_ssh_command` raised for `host`. */
  function DecodeFailure(host: string, message: string): Option<SshError> {
    if StartsWith(message, "SSH failed: ") then
      var m := message[12..];
      if m == "Unknown host: " + host then Some(UnknownHost)
      else if m == "Connection refused to " + host then Some(ConnectionRefused)
      else if m == "Permission denied for " + host then Some(PermissionDenied)
      else if StartsWith(m, "SSH error: ") then Some(OtherError(m[11..]))
      else None
    else None
  }

  /** The message of a classified failure determines the failure: no two classes share a message. */
  lemma DecodeErrorMessage(host: string, e: SshError)
    ensures DecodeFailure(host, "SSH failed: " + ErrorMessage(host, e)) == Some(e)
  {
    var message := "SSH failed: " + ErrorMessage(host, e);
    assert message[..12] == "SSH failed: ";
    var m := message[12..];
    assert m == ErrorMessage(host, e);
    match e {
      case UnknownHost =>
      case ConnectionRefused =>
        assert m[0] == 'C' && ("Unknown host: " + host)[0] == 'U';
      case PermissionDenied =>
        assert m[0] == 'P' && ("Unknown host: " + host)[0] == 'U' && ("Connection refused to " + host)[0] == 'C';
      case OtherError(d) =>
        assert m[0] == 'S' && ("Unknown host: " + host)[0] == 'U' && ("Connection refused to " + host)[0] == 'C';
        assert ("Permission denied for " + host)[0] == 'P';
        assert m[..11] == "SSH error: " && m[11..] == d;
    }
  }

  /** A timeout is never reported as an `ssh` failure: its message lacks the prefix. */
  lemma TimeoutNotDecoded(host: string)
    ensures DecodeFailure(host, Interpret(host, TimedOut).message) == None
    ensures !StartsWith(Interpret(host, TimedOut).message, "SSH failed: ")
  {
    var message := "Connection timeout to " + host;
    assert message[0] == 'C';
    assert !StartsWith(message, "SSH failed: ") by {
      assert |message| >= 12 ==> message[..12][0] == 'C';
    }
  }

  /**
   * The hostname marker takes precedence: a `stderr` holding it is an unknown host, whatever
   * other markers surround it.
   */
  lemma HostnameMarkerFirst(before: string, after: string)
    ensures Classify(before + "Could not resolve hostname" + after) == UnknownHost
  {
    var s := before + "Could not resolve hostname" + after;
    assert s[|before|..|before| + 26] == "Could not resolve hostname";
    ContainsAt(s, "Could not resolve hostname", |before|);
  }

  /** The message of the `KeyError` a missing command key raises: the key in single quotes. */
  function KeyErrorMessage(key: string): string {
    "'" + key + "'"
  }

  /** Looking up the command configured under `key` and running it on `server`. */
  function Run(config: Config, server: ServerConfig, key: string, exec: Executor): CommandResult {
    if key !in config.commands then Raised(KeyErrorMessage(key))
    else Interpret(server.host, exec(SshArgv(config.ssh, server.host, config.commands[key])))
  }

  /** `self.config.commands[key]` followed by `_run_ssh_command`. */
  method RunCommand(config: Config, server: ServerConfig, key: string, exec: Executor) returns (r: CommandResult)
    ensures r == Run(config, server, key, exec)
  {
    if key !in config.commands {
      return Raised(KeyErrorMessage(key));
    }
    r := RunSshCommand(config, server, config.commands[key], exec);
  }

  // ---------------------------------------------------------------------------------------
  // one host

  /**
   * The value of an optional key of the result dictionary: absent, or present with what the
   * parser returned (which may itself be `None`).
   */
  datatype Field<T> = Missing | Stored(value: Option<T>)

  /** The dictionary `_check_server_sync` builds; an absent `online` key reads as `false`. */
  datatype Snapshot = Snapshot(
    name: string, host: string, hasGpu: bool, checkedAt: real,
    cpuUsage: Field<real>, memoryUsage: Field<real>, loadAverage: Field<LoadAverage>,
    gpuUsage: Field<seq<int>>, gpuMemory: Field<seq<GpuMemory>>, gpuProcesses: Field<seq<GpuProcess>>,
    gpuError: Option<string>, error: Option<string>, online: bool)

  /** The dictionary before any command ran. */
  function Stamp(server: ServerConfig, now: real): Snapshot {
    Snapshot(server.name, server.host, server.hasGpu, now,
      Missing, Missing, Missing, Missing, Missing, Missing, None, None, false)
  }

  function Offline(s: Snapshot, message: string): Snapshot {
    s.(error := Some(message), online := false)
  }

  /** The GPU commands, in order; the first failure ends the stage and is kept as `gpuError`. */
  function GpuStage(config: Config, server: ServerConfig, exec: Executor, s: Snapshot): (r: Snapshot)
    ensures r.(gpuUsage := s.gpuUsage, gpuMemory := s.gpuMemory, gpuProcesses := s.gpuProcesses, gpuError := s.gpuError) == s
  {
    var usage := Run(config, server, "gpu_usage", exec);
    if usage.Raised? then s.(gpuError := Some(usage.message))
    else GpuMemoryStage(config, server, exec, s.(gpuUsage := Stored(GpuUsageOf(usage.text))))
  }

  /** The GPU stage after `gpu_usage` answered. */
  function GpuMemoryStage(config: Config, server: ServerConfig, exec: Executor, s: Snapshot): (r: Snapshot)
    ensures r.(gpuMemory := s.gpuMemory, gpuProcesses := s.gpuProcesses, gpuError := s.gpuError) == s
  {
    var memory := Run(config, server, "gpu_memory", exec);
    if memory.Raised? then s.(gpuError := Some(memory.message))
    else GpuProcessStage(config, server, exec, s.(gpuMemory := Stored(GpuMemoryOf(memory.text))))
  }

  /** The GPU stage after `gpu_memory` answered: processes only when a command is configured. */
  function GpuProcessStage(config: Config, server: ServerConfig, exec: Executor, s: Snapshot): (r: Snapshot)
    ensures r.(gpuProcesses := s.gpuProcesses, gpuError := s.gpuError) == s
  {
    if "gpu_processes" !in config.commands then s
    else
      var processes := Run(config, server, "gpu_processes", exec);
      if processes.Raised? then s.(gpuError := Some(processes.message))
      else s.(gpuProcesses := Stored(GpuProcessesOf(processes.text)))
  }

  /** What `_check_server_sync` returns for `server`, checked at time `now`. */
  function Probe(config: Config, server: ServerConfig, now: real, exec: Executor): (r: Snapshot)
    ensures r.name == server.name && r.host == server.host && r.hasGpu == server.hasGpu && r.checkedAt == now
  {
    var s0 := Stamp(server, now);
    var cpu := Run(config, server, "cpu_usage", exec);
    if cpu.Raised? then Offline(s0, cpu.message) else
    var s1 := s0.(cpuUsage := Stored(ParseCpuUsage(cpu.text)));
    var memory := Run(config, server, "memory_usage", exec);
    if memory.Raised? then Offline(s1, memory.message) else
    var s2 := s1.(memoryUsage := Stored(ParseMemoryUsage(memory.text)));
    var load := Run(config, server, "load_average", exec);
    if load.Raised? then Offline(s2, load.message) else
    var s3 := s2.(loadAverage := Stored(ParseLoadAverage(load.text)));
    (if server.hasGpu then GpuStage(config, server, exec, s3) else s3).(online := true)
  }

  /** The GPU part of `_check_server_sync`, whose failures are caught by the inner `try`. */
  method CheckGpu(config: Config, server: ServerConfig, exec: Executor, s: Snapshot) returns (data: Snapshot)
    ensures data == GpuStage(config, server, exec, s)
  {
    data := s;
    var usage := RunCommand(config, server, "gpu_usage", exec);
    if usage.Raised? {
      return data.(gpuError := Some(usage.message));
    }
    var readings := ParseGpuUsage(usage.text);
    data := data.(gpuUsage := Stored(readings));
    var memory := RunCommand(config, server, "gpu_memory", exec);
    if memory.Raised? {
      return data.(gpuError := Some(memory.message));
    }
    var memories := ParseGpuMemory(memory.text);
    data := data.(gpuMemory := Stored(memories));
    if "gpu_processes" in config.commands {
      var processes := RunCommand(config, server, "gpu_processes", exec);
      if processes.Raised? {
        return data.(gpuError := Some(processes.message));
      }
      var found := ParseGpuProcesses(processes.text);
      data := data.(gpuProcesses := Stored(found));
    }
  }

  /** `_check_server_sync(server)`, with `time.time()` read as `now`. */
  method CheckServerSync(config: Config, server: ServerConfig, now: real, exec: Executor) returns (data: Snapshot)
    ensures data == Probe(config, server, now, exec)
  {
    data := Stamp(server, now);
    var cpu := RunCommand(config, server, "cpu_usage", exec);
    if cpu.Raised? {
      return Offline(data, cpu.message);
    }
    data := data.(cpuUsage := Stored(ParseCpuUsage(cpu.text)));
    var memory := RunCommand(config, server, "memory_usage", exec);
    if memory.Raised? {
      return Offline(data, memory.message);
    }
    data := data.(memoryUsage := Stored(ParseMemoryUsage(memory.text)));
    var load := RunCommand(config, server, "load_average", exec);
    if load.Raised? {
      return Offline(data, load.message);
    }
    data := data.(loadAverage := Stored(ParseLoadAverage(load.text)));
    if server.hasGpu {
      data := CheckGpu(config, server, exec, data);
    }
    data := data.(online := true);
  }

  /** The three commands every host must answer, in the order they are issued. */
  function MandatoryResults(config: Config, server: ServerConfig, exec: Executor): seq<CommandResult> {
    [Run(config, server, "cpu_usage", exec), Run(config, server, "memory_usage", exec), Run(config, server, "load_average", exec)]
  }

  /** The position of the first raised result, or the length when every command answered. */
  function FailedAt(results: seq<CommandResult>): (k: nat)
    ensures k <= |results|
    ensures forall j :: 0 <= j < k ==> results[j].Output?
    ensures k < |results| ==> results[k].Raised?
  {
    if results == [] || results[0].Raised? then 0 else 1 + FailedAt(results[1..])
  }

  /**
   * A host is online exactly when its three mandatory commands answer. Offline, the error is
   * the first failure's message, the metrics parsed before it are kept as parsed, and no GPU key
   * is set; online, there is no error and each metric holds its parsed output.
   */
  lemma ProbeOnline(config: Config, server: ServerConfig, now: real, exec: Executor)
    ensures var rs := MandatoryResults(config, server, exec);
      var k := FailedAt(rs);
      var r := Probe(config, server, now, exec);
      (r.online <==> k == 3)
      && (!r.online ==>
            (r.error == Some(rs[k].message)
             && (r.cpuUsage.Stored? <==> k >= 1) && (r.memoryUsage.Stored? <==> k >= 2) && r.loadAverage == Missing
             && (k >= 1 ==> r.cpuUsage == Stored(ParseCpuUsage(rs[0].text)))
             && (k >= 2 ==> r.memoryUsage == Stored(ParseMemoryUsage(rs[1].text)))
             && r.gpuUsage == Missing && r.gpuMemory == Missing && r.gpuProcesses == Missing && r.gpuError == None))
      && (r.online ==>
            (r.error == None
             && r.cpuUsage == Stored(ParseCpuUsage(rs[0].text))
             && r.memoryUsage == Stored(ParseMemoryUsage(rs[1].text))
             && r.loadAverage == Stored(ParseLoadAverage(rs[2].text))))
  {
    var rs := MandatoryResults(config, server, exec);
    assert rs[1..][1..] == [rs[2]] && rs[1..][1..][1..] == [];
    var k := FailedAt(rs);
    if rs[0].Raised? {
      assert k == 0;
    } else if rs[1].Raised? {
      assert k == 1;
    } else if rs[2].Raised? {
      assert k == 2;
    } else {
      assert k == 3;
    }
  }

  /**
   * Once a mandatory command fails nothing later is consulted: any executor that answers the
   * commands up to the failing one alike yields the same snapshot.
   */
  lemma LaterCommandsIgnored(config: Config, server: ServerConfig, now: real, exec: Executor, exec': Executor)
    requires FailedAt(MandatoryResults(config, server, exec)) < 3
    requires forall i :: 0 <= i <= FailedAt(MandatoryResults(config, server, exec)) ==>
      MandatoryResults(config, server, exec')[i] == MandatoryResults(config, server, exec)[i]
    ensures Probe(config, server, now, exec') == Probe(config, server, now, exec)
  {
    var rs := MandatoryResults(config, server, exec);
    var rs' := MandatoryResults(config, server, exec');
    assert rs[0] == rs'[0];
    assert rs[1..][1..] == [rs[2]];
    if rs[0].Output? {
      assert rs[1] == rs'[1];
    }
  }

  /**
   * The GPU stage: a failing GPU command records its message and sets no later GPU key;
   * `gpuProcesses` is set only when a `gpu_processes` command is configured.
   */
  lemma GpuStageFailure(config: Config, server: ServerConfig, exec: Executor, s: Snapshot)
    requires s.gpuUsage == Missing && s.gpuMemory == Missing && s.gpuProcesses == Missing && s.gpuError == None
    ensures var r := GpuStage(config, server, exec, s);
      var usage := Run(config, server, "gpu_usage", exec);
      var memory := Run(config, server, "gpu_memory", exec);
      (r.gpuProcesses.Stored? ==> "gpu_processes" in config.commands)
      && (usage.Raised? ==>
            (r.gpuError == Some(usage.message) && r.gpuUsage == Missing && r.gpuMemory == Missing && r.gpuProcesses == Missing))
      && (usage.Output? ==> r.gpuUsage == Stored(GpuUsageOf(usage.text)))
      && (usage.Output? && memory.Raised? ==>
            (r.gpuError == Some(memory.message) && r.gpuMemory == Missing && r.gpuProcesses == Missing))
      && (usage.Output? && memory.Output? ==> r.gpuMemory == Stored(GpuMemoryOf(memory.text)))
      && (usage.Output? && memory.Output? && "gpu_processes" !in config.commands ==>
            (r.gpuProcesses == Missing && r.gpuError == None))
      && (usage.Output? && memory.Output? && "gpu_processes" in config.commands ==>
            var processes := Run(config, server, "gpu_processes", exec);
            && (processes.Raised? ==> r.gpuError == Some(processes.message) && r.gpuProcesses == Missing)
            && (processes.Output? ==> r.gpuProcesses == Stored(GpuProcessesOf(processes.text)) && r.gpuError == None))
  {
    var usage := Run(config, server, "gpu_usage", exec);
    if usage.Output? {
      var t1 := s.(gpuUsage := Stored(GpuUsageOf(usage.text)));
      var memory := Run(config, server, "gpu_memory", exec);
      if memory.Output? {
        var t2 := t1.(gpuMemory := Stored(GpuMemoryOf(memory.text)));
        var r := GpuProcessStage(config, server, exec, t2);
        assert r.gpuUsage == t2.gpuUsage && r.gpuMemory == t2.gpuMemory;
        assert r.gpuProcesses.Stored? ==> "gpu_processes" in config.commands;
      }
    }
  }

  /**
   * GPU keys are set only on a GPU host that answered its mandatory commands, and a GPU
   * failure leaves the host online.
   */
  lemma ProbeGpu(config: Config, server: ServerConfig, now: real, exec: Executor)
    ensures var r := Probe(config, server, now, exec);
      (r.gpuUsage.Stored? || r.gpuMemory.Stored? || r.gpuProcesses.Stored? || r.gpuError.Some? ==> server.hasGpu && r.online)
      && (server.hasGpu && FailedAt(MandatoryResults(config, server, exec)) == 3 ==> r.online)
  {
    ProbeOnline(config, server, now, exec);
  }

  /** An `ssh` run that cannot resolve the host takes the host offline with that message. */
  lemma UnknownHostOffline(config: Config, server: ServerConfig, now: real, exec: Executor, code: int, out: string, err: string)
    requires "cpu_usage" in config.commands && code != 0 && Contains(err, "Could not resolve hostname")
    requires exec(SshArgv(config.ssh, server.host, config.commands["cpu_usage"])) == Completed(code, out, err)
    ensures !Probe(config, server, now, exec).online
    ensures Probe(config, server, now, exec).error == Some("SSH failed: Unknown host: " + server.host)
  {
    UnknownHostRun(config, server, exec, code, out, err);
  }

  /** The `cpu_usage` run of an unreachable host raises the unknown-host message. */
  lemma UnknownHostRun(config: Config, server: ServerConfig, exec: Executor, code: int, out: string, err: string)
    requires "cpu_usage" in config.commands && code != 0 && Contains(err, "Could not resolve hostname")
    requires exec(SshArgv(config.ssh, server.host, config.commands["cpu_usage"])) == Completed(code, out, err)
    ensures Run(config, server, "cpu_usage", exec) == Raised("SSH failed: Unknown host: " + server.host)
  {
    assert Classify(err) == UnknownHost;
    assert "SSH failed: " + ("Unknown host: " + server.host) == "SSH failed: Unknown host: " + server.host;
  }

  /** A command key missing from the configuration takes the host offline with a `KeyError`. */
  lemma MissingCommandOffline(config: Config, server: ServerConfig, now: real, exec: Executor)
    requires "cpu_usage" !in config.commands
    ensures Probe(config, server, now, exec) == Offline(Stamp(server, now), "'cpu_usage'")
  {
    assert KeyErrorMessage("cpu_usage") == "'cpu_usage'";
  }

  /** A configuration file without a `commands` section takes every host offline. */
  lemma NoCommandsOffline(raw: RawConfig, user: string, server: ServerConfig, now: real, exec: Executor)
    requires raw.commands.None?
    ensures !Probe(Load(raw, user), server, now, exec).online
    ensures Probe(Load(raw, user), server, now, exec).error == Some("'cpu_usage'")
  {
    MissingCommandOffline(Load(raw, user), server, now, exec);
  }

  // ---------------------------------------------------------------------------------------
  // the cache

  /** Whether `check_server` answers `name` from the cache at time `now`. */
  predicate Hit(cache: map<string, Snapshot>, ttl: real, name: string, useCache: bool, now: real) {
    useCache && name in cache && now - cache[name].checkedAt < ttl
  }

  /** The snapshot `check_server` returns for `server` given the cache it finds. */
  function Lookup(cache: map<string, Snapshot>, config: Config, server: ServerConfig, useCache: bool, now: real, exec: Executor): Snapshot {
    if Hit(cache, config.ttl, server.name, useCache, now) then cache[server.name] else Probe(config, server, now, exec)
  }

  /** Every cached snapshot is filed under its own name. */
  predicate Keyed(cache: map<string, Snapshot>) {
    forall k :: k in cache ==> cache[k].name == k
  }

  /** A host just probed is answered from the cache, for any later executor, until the TTL elapses. */
  lemma RecheckWithinTtl(cache: map<string, Snapshot>, config: Config, server: ServerConfig, now: real, now': real, exec: Executor, exec': Executor)
    requires now' - now < config.ttl
    ensures var stored := cache[server.name := Probe(config, server, now, exec)];
      Hit(stored, config.ttl, server.name, true, now')
      && Lookup(stored, config, server, true, now', exec') == Probe(config, server, now, exec)
  {
  }

  /**
   * The results of `check_servers`: every task consults the cache as it was when the batch
   * began, since none writes back before all have looked.
   */
  function Batch(cache: map<string, Snapshot>, config: Config, servers: seq<ServerConfig>, useCache: bool, now: real, exec: Executor): (r: seq<Snapshot>)
    requires Keyed(cache)
    ensures |r| == |servers|
    ensures forall i :: 0 <= i < |r| ==> r[i].name == servers[i].name
  {
    seq(|servers|, i requires 0 <= i < |servers| => Lookup(cache, config, servers[i], useCache, now, exec))
  }

  /** The cache after `check_servers`: each probed host's snapshot written back, in input order. */
  function Refresh(cache: map<string, Snapshot>, config: Config, servers: seq<ServerConfig>, useCache: bool, now: real, exec: Executor): map<string, Snapshot>
  {
    if servers == [] then cache
    else
      var last := servers[|servers| - 1];
      var c := Refresh(cache, config, servers[..|servers| - 1], useCache, now, exec);
      if Hit(cache, config.ttl, last.name, useCache, now) then c else c[last.name := Probe(config, last, now, exec)]
  }

  /** One more host of the batch: its snapshot written back unless it was a hit. */
  lemma RefreshPrefix(cache: map<string, Snapshot>, config: Config, servers: seq<ServerConfig>, i: nat, useCache: bool, now: real, exec: Executor)
    requires i < |servers|
    ensures var c := Refresh(cache, config, servers[..i], useCache, now, exec);
      Refresh(cache, config, servers[..i + 1], useCache, now, exec)
        == if Hit(cache, config.ttl, servers[i].name, useCache, now) then c else c[servers[i].name := Lookup(cache, config, servers[i], useCache, now, exec)]
  {
    assert servers[..i + 1][..i] == servers[..i];
  }

  /** Writing back keeps every snapshot under its own name. */
  lemma {:induction false} RefreshKeyed(cache: map<string, Snapshot>, config: Config, servers: seq<ServerConfig>, useCache: bool, now: real, exec: Executor)
    requires Keyed(cache)
    ensures Keyed(Refresh(cache, config, servers, useCache, now, exec))
  {
    if servers != [] {
      RefreshKeyed(cache, config, servers[..|servers| - 1], useCache, now, exec);
    }
  }

  /** Names no host of the batch carries keep their entries. */
  lemma {:induction false} RefreshOthers(cache: map<string, Snapshot>, config: Config, servers: seq<ServerConfig>, useCache: bool, now: real, exec: Executor, k: string)
    requires forall i :: 0 <= i < |servers| ==> servers[i].name != k
    ensures var r := Refresh(cache, config, servers, useCache, now, exec);
      (k in r <==> k in cache) && (k in cache ==> r[k] == cache[k])
  {
    if servers != [] {
      RefreshOthers(cache, config, servers[..|servers| - 1], useCache, now, exec, k);
    }
  }

  /** With distinct names, the cache after a batch holds exactly the snapshots returned. */
  lemma {:induction false} RefreshStoresBatch(cache: map<string, Snapshot>, config: Config, servers: seq<ServerConfig>, useCache: bool, now: real, exec: Executor)
    requires Keyed(cache)
    requires forall i, j :: 0 <= i < j < |servers| ==> servers[i].name != servers[j].name
    ensures var r := Refresh(cache, config, servers, useCache, now, exec);
      forall i :: 0 <= i < |servers| ==> servers[i].name in r && r[servers[i].name] == Batch(cache, config, servers, useCache, now, exec)[i]
  {
    if servers != [] {
      var n := |servers| - 1;
      var init := servers[..n];
      RefreshStoresBatch(cache, config, init, useCache, now, exec);
      RefreshLast(cache, config, servers, useCache, now, exec);
      BatchPrefix(cache, config, servers, useCache, now, exec);
    }
  }

  /** A shorter batch returns the same snapshots for the hosts it shares. */
  lemma BatchPrefix(cache: map<string, Snapshot>, config: Config, servers: seq<ServerConfig>, useCache: bool, now: real, exec: Executor)
    requires Keyed(cache) && |servers| >= 1
    ensures var n := |servers| - 1;
      forall i :: 0 <= i < n ==>
        (servers[..n][i] == servers[i]
         && Batch(cache, config, servers[..n], useCache, now, exec)[i] == Batch(cache, config, servers, useCache, now, exec)[i])
  {
  }

  /**
   * The last host of a batch, whose name no other host carries, is filed under the snapshot
   * its lookup returned; every other name keeps what the shorter batch left.
   */
  lemma RefreshLast(cache: map<string, Snapshot>, config: Config, servers: seq<ServerConfig>, useCache: bool, now: real, exec: Executor)
    requires |servers| >= 1
    requires forall i :: 0 <= i < |servers| - 1 ==> servers[i].name != servers[|servers| - 1].name
    ensures var last := servers[|servers| - 1];
      var r := Refresh(cache, config, servers, useCache, now, exec);
      var r' := Refresh(cache, config, servers[..|servers| - 1], useCache, now, exec);
      && last.name in r && r[last.name] == Lookup(cache, config, last, useCache, now, exec)
      && forall k :: k != last.name ==> (k in r <==> k in r') && (k in r' ==> r[k] == r'[k])
  {
    var init := servers[..|servers| - 1];
    var last := servers[|servers| - 1];
    RefreshOthers(cache, config, init, useCache, now, exec, last.name);
  }

  /** The first phase of `check_servers`: every task looks in the cache before any probe completes. */
  method LookupAll(cache: map<string, Snapshot>, config: Config, servers: seq<ServerConfig>, useCache: bool, now: real, exec: Executor)
    returns (results: seq<Snapshot>, hits: seq<bool>)
    requires Keyed(cache)
    ensures results == Batch(cache, config, servers, useCache, now, exec)
    ensures |hits| == |servers|
    ensures forall j :: 0 <= j < |servers| ==> hits[j] == Hit(cache, config.ttl, servers[j].name, useCache, now)
  {
    results := [];
    hits := [];
    for i := 0 to |servers|
      invariant |results| == i && |hits| == i
      invariant forall j :: 0 <= j < i ==>
        results[j] == Lookup(cache, config, servers[j], useCache, now, exec)
        && hits[j] == Hit(cache, config.ttl, servers[j].name, useCache, now)
    {
      var server := servers[i];
      var hit := useCache && server.name in cache && now - cache[server.name].checkedAt < config.ttl;
      if hit {
        results := results + [cache[server.name]];
      } else {
        var data := CheckServerSync(config, server, now, exec);
        results := results + [data];
      }
      hits := hits + [hit];
    }
  }

  /** The second phase: each probed host's snapshot is written back, in input order. */
  method WriteBack(before: map<string, Snapshot>, config: Config, servers: seq<ServerConfig>, useCache: bool, now: real, exec: Executor,
                   results: seq<Snapshot>, hits: seq<bool>)
    returns (cache: map<string, Snapshot>)
    requires Keyed(before)
    requires results == Batch(before, config, servers, useCache, now, exec)
    requires |hits| == |servers|
    requires forall j :: 0 <= j < |servers| ==> hits[j] == Hit(before, config.ttl, servers[j].name, useCache, now)
    ensures cache == Refresh(before, config, servers, useCache, now, exec)
  {
    cache := before;
    for i := 0 to |servers|
      invariant cache == Refresh(before, config, servers[..i], useCache, now, exec)
    {
      RefreshPrefix(before, config, servers, i, useCache, now, exec);
      if !hits[i] {
        cache := cache[servers[i].name := results[i]];
      }
    }
    assert servers[..|servers|] == servers;
  }

  /** The hosts `find_best_server` checks. */
  function Pool(config: Config, needGpu: bool): seq<ServerConfig> {
    if needGpu then GpuServers(config.servers) else config.servers
  }

  /** The checker: the configuration it was built with and its snapshot cache. */
  class ServerChecker {
    const config: Config
    var cache: map<string, Snapshot>

    predicate Valid()
      reads this
    {
      Keyed(cache)
    }

    constructor(config: Config)
      ensures this.config == config && cache == map[] && Valid()
    {
      this.config := config;
      cache := map[];
    }

    /** `check_server(server, use_cache)`: a fresh cached snapshot, or a new probe written back. */
    method CheckServer(server: ServerConfig, useCache: bool, now: real, exec: Executor) returns (data: Snapshot)
      requires Valid()
      modifies this
      ensures Valid()
      ensures data == Lookup(old(cache), config, server, useCache, now, exec)
      ensures data.name == server.name
      ensures cache == if Hit(old(cache), config.ttl, server.name, useCache, now) then old(cache) else old(cache)[server.name := data]
    {
      if useCache && server.name in cache {
        var cached := cache[server.name];
        if now - cached.checkedAt < config.ttl {
          return cached;
        }
      }
      data := CheckServerSync(config, server, now, exec);
      cache := cache[server.name := data];
    }

    /** `check_servers(servers, use_cache)`: one result per host, in input order. */
    method CheckServers(servers: seq<ServerConfig>, useCache: bool, now: real, exec: Executor) returns (results: seq<Snapshot>)
      requires Valid()
      modifies this
      ensures Valid()
      ensures results == Batch(old(cache), config, servers, useCache, now, exec)
      ensures cache == Refresh(old(cache), config, servers, useCache, now, exec)
    {
      var before := cache;
      var hits;
      results, hits := LookupAll(before, config, servers, useCache, now, exec);
      cache := WriteBack(before, config, servers, useCache, now, exec, results, hits);
      RefreshKeyed(before, config, servers, useCache, now, exec);
    }

    /** `check_all(use_cache)`. */
    method CheckAll(useCache: bool, now: real, exec: Executor) returns (results: seq<Snapshot>)
      requires Valid()
      modifies this
      ensures Valid()
      ensures results == Batch(old(cache), config, config.servers, useCache, now, exec)
      ensures cache == Refresh(old(cache), config, config.servers, useCache, now, exec)
    {
      results := CheckServers(config.servers, useCache, now, exec);
    }

    /** `check_gpu_servers(use_cache)`. */
    method CheckGpuServers(useCache: bool, now: real, exec: Executor) returns (results: seq<Snapshot>)
      requires Valid()
      modifies this
      ensures Valid()
      ensures results == Batch(old(cache), config, GpuServers(config.servers), useCache, now, exec)
      ensures cache == Refresh(old(cache), config, GpuServers(config.servers), useCache, now, exec)
    {
      results := CheckServers(GpuServers(config.servers), useCache, now, exec);
    }

    /** `find_best_server(need_gpu, max_cpu, min_memory_gb, use_cache)`. */
    method FindBestServer(criteria: Criteria, useCache: bool, now: real, exec: Executor) returns (r: Choice)
      requires Valid()
      modifies this
      ensures Valid()
      ensures r == Select(Batch(old(cache), config, Pool(config, criteria.needGpu), useCache, now, exec), criteria)
      ensures cache == Refresh(old(cache), config, Pool(config, criteria.needGpu), useCache, now, exec)
    {
      var servers := if criteria.needGpu then GpuServers(config.servers) else config.servers;
      var results := CheckServers(servers, useCache, now, exec);
      r := SelectBest(results, criteria);
    }

    /** `clear_cache()`: afterwards every lookup probes. */
    method ClearCache()
      modifies this
      ensures Valid()
      ensures cache == map[]
      ensures forall name, useCache, now :: !Hit(cache, config.ttl, name, useCache, now)
    {
      cache := map[];
    }
  }

  // ---------------------------------------------------------------------------------------
  // choosing a host

  /** The arguments of `find_best_server`; `minMemoryGb` only switches the memory filter on. */
  datatype Criteria = Criteria(needGpu: bool, maxCpu: Option<real>, minMemoryGb: Option<int>)

  /** The memory usage, in percent, above which a host fails a memory requirement. */
  const MemoryCeiling: real := 80.0

  /** `server.get(key)` is a number. */
  predicate Known(f: Field<real>) {
    f.Stored? && f.value.Some?
  }

  /** `server.get('gpu_usage')` is a non-empty list. */
  predicate HasGpuReadings(s: Snapshot) {
    s.gpuUsage.Stored? && s.gpuUsage.value.Some? && s.gpuUsage.value.value != []
  }

  /** The filters of `find_best_server`; a missing or unparsed metric fails its filter. */
  predicate Passes(s: Snapshot, c: Criteria) {
    s.online
    && (c.maxCpu.Some? ==> Known(s.cpuUsage) && s.cpuUsage.value.value <= c.maxCpu.value)
    && (c.minMemoryGb.Some? ==> Known(s.memoryUsage) && s.memoryUsage.value.value <= MemoryCeiling)
    && (c.needGpu ==> HasGpuReadings(s))
  }

  /** The results that pass the filters, in order. */
  function Eligible(results: seq<Snapshot>, c: Criteria): (r: seq<Snapshot>)
    ensures |r| <= |results|
    ensures forall i :: 0 <= i < |r| ==> Passes(r[i], c)
  {
    if results == [] then []
    else Eligible(results[..|results| - 1], c) + (if Passes(results[|results| - 1], c) then [results[|results| - 1]] else [])
  }

  /** Exactly the passing results are eligible. */
  lemma {:induction false} EligibleMember(results: seq<Snapshot>, c: Criteria, s: Snapshot)
    ensures s in Eligible(results, c) <==> s in results && Passes(s, c)
  {
    if results != [] {
      var init := results[..|results| - 1];
      EligibleMember(init, c, s);
      assert results == init + [results[|results| - 1]];
    }
  }

  /** The memory requirement's amount plays no part in the filtering. */
  lemma {:induction false} EligibleIgnoresMemoryAmount(results: seq<Snapshot>, c: Criteria, a: int, b: int)
    ensures Eligible(results, c.(minMemoryGb := Some(a))) == Eligible(results, c.(minMemoryGb := Some(b)))
  {
    if results != [] {
      EligibleIgnoresMemoryAmount(results[..|results| - 1], c, a, b);
    }
  }

  function Sum(xs: seq<int>): int {
    if xs == [] then 0 else Sum(xs[..|xs| - 1]) + xs[|xs| - 1]
  }

  /** The mean GPU utilisation when there are readings, else 0. */
  function GpuScore(s: Snapshot): real {
    if HasGpuReadings(s) then Sum(s.gpuUsage.value.value) as real / |s.gpuUsage.value.value| as real else 0.0
  }

  /** `server.get(key, 100)`: an absent key counts as 100; a stored `None` is no number. */
  function Metric(f: Field<real>): Option<real> {
    match f
    case Missing => Some(100.0)
    case Stored(v) => v
  }

  /** `score_server`: CPU plus memory plus mean GPU usage; `None` where Python raises a `TypeError`. */
  function Score(s: Snapshot): Option<real> {
    var cpu := Metric(s.cpuUsage);
    var memory := Metric(s.memoryUsage);
    if cpu.Some? && memory.Some? then Some(cpu.value + memory.value + GpuScore(s)) else None
  }

  /** The sort keys, or `None` when some candidate cannot be scored. */
  function Scores(candidates: seq<Snapshot>): Option<seq<real>> {
    if forall i :: 0 <= i < |candidates| ==> Score(candidates[i]).Some? then
      Some(seq(|candidates|, i requires 0 <= i < |candidates| => Score(candidates[i]).value))
    else None
  }

  /** `k` is the position a stable ascending sort moves to the front: the first of the least keys. */
  predicate IsFirstMin(keys: seq<real>, k: nat) {
    k < |keys|
    && (forall j :: 0 <= j < |keys| ==> keys[k] <= keys[j])
    && (forall j :: 0 <= j < k ==> keys[k] < keys[j])
  }

  function FirstMin(keys: seq<real>): (k: nat)
    requires |keys| > 0
    ensures IsFirstMin(keys, k)
  {
    if |keys| == 1 then 0
    else
      var init := keys[..|keys| - 1];
      var k := FirstMin(init);
      assert forall j :: 0 <= j < |init| ==> init[j] == keys[j];
      if keys[|keys| - 1] < keys[k] then |keys| - 1 else k
  }

  /** There is just one first minimum. */
  lemma FirstMinUnique(keys: seq<real>, a: nat, b: nat)
    requires IsFirstMin(keys, a) && IsFirstMin(keys, b)
    ensures a == b
  {
    assert keys[a] <= keys[b] && keys[b] <= keys[a];
  }

  /** What `find_best_server` returns: no host, the best host, or the `TypeError` of the scoring. */
  datatype Choice = NoServer | Best(snapshot: Snapshot) | ScoreFailed

  /** The choice among checked results: the first eligible host of least score. */
  function Select(results: seq<Snapshot>, c: Criteria): Choice {
    var candidates := Eligible(results, c);
    if candidates == [] then NoServer
    else match Scores(candidates)
      case None => ScoreFailed
      case Some(keys) => Best(candidates[FirstMin(keys)])
  }

  /** No host is chosen exactly when none passes the filters. */
  lemma SelectNone(results: seq<Snapshot>, c: Criteria)
    ensures Select(results, c) == NoServer <==> forall i :: 0 <= i < |results| ==> !Passes(results[i], c)
  {
    var candidates := Eligible(results, c);
    if candidates != [] {
      EligibleMember(results, c, candidates[0]);
    }
    if exists i :: 0 <= i < |results| && Passes(results[i], c) {
      var i :| 0 <= i < |results| && Passes(results[i], c);
      EligibleMember(results, c, results[i]);
    }
  }

  /**
   * The `m`-th eligible result sits at some position `k` of the results, and the results before
   * `k` contribute exactly the eligible results before position `m`: filtering keeps input order.
   */
  lemma {:induction false} EligiblePosition(results: seq<Snapshot>, c: Criteria, m: nat)
    requires m < |Eligible(results, c)|
    ensures exists k ::
      (0 <= k < |results| && results[k] == Eligible(results, c)[m]
       && Eligible(results[..k], c) == Eligible(results, c)[..m])
  {
    var n := |results|;
    var init := results[..n - 1];
    var e := Eligible(results, c);
    var ei := Eligible(init, c);
    if m < |ei| {
      EligiblePosition(init, c, m);
      var k :| 0 <= k < |init| && init[k] == ei[m] && Eligible(init[..k], c) == ei[..m];
      assert init[..k] == results[..k];
      assert e[..m] == ei[..m];
    } else {
      assert results[..n - 1] == init;
      assert e[..m] == ei;
    }
  }

  /**
   * A chosen host passed the filters and scores no more than any other passing host; every
   * passing host before it in the results scores strictly more.
   */
  lemma SelectBestSound(results: seq<Snapshot>, c: Criteria, s: Snapshot)
    requires Select(results, c) == Best(s)
    ensures s in results && Passes(s, c) && Score(s).Some?
    ensures forall t :: t in results && Passes(t, c) ==> Score(t).Some? && Score(s).value <= Score(t).value
    ensures exists k ::
      (0 <= k < |results| && results[k] == s
       && forall j :: 0 <= j < k && Passes(results[j], c) ==> Score(results[j]).Some? && Score(s).value < Score(results[j]).value)
  {
    var candidates := Eligible(results, c);
    var keys := Scores(candidates).value;
    EligibleMember(results, c, s);
    forall t | t in results && Passes(t, c)
      ensures Score(t).Some? && Score(s).value <= Score(t).value
    {
      EligibleMember(results, c, t);
      var j :| 0 <= j < |candidates| && candidates[j] == t;
      assert keys[j] == Score(t).value;
    }
    SelectEarliest(results, c, s);
  }

  /** Every passing host before the chosen one, in input order, scores strictly more. */
  lemma SelectEarliest(results: seq<Snapshot>, c: Criteria, s: Snapshot)
    requires Select(results, c) == Best(s)
    ensures exists k ::
      (0 <= k < |results| && results[k] == s
       && forall j :: 0 <= j < k && Passes(results[j], c) ==> Score(results[j]).Some? && Score(s).value < Score(results[j]).value)
  {
    var candidates := Eligible(results, c);
    var keys := Scores(candidates).value;
    var m := FirstMin(keys);
    EligiblePosition(results, c, m);
    var k :| 0 <= k < |results| && results[k] == s && Eligible(results[..k], c) == candidates[..m];
    forall j | 0 <= j < k && Passes(results[j], c)
      ensures Score(results[j]).Some? && Score(s).value < Score(results[j]).value
    {
      EarlierEligible(results, c, k, j);
      var i :| 0 <= i < m && candidates[..m][i] == results[j];
      assert candidates[i] == results[j];
      assert keys[i] == Score(candidates[i]).value && keys[m] == Score(s).value;
    }
  }

  /** A passing result before `k` is one of the eligible results of the prefix up to `k`. */
  lemma EarlierEligible(results: seq<Snapshot>, c: Criteria, k: nat, j: nat)
    requires j < k <= |results| && Passes(results[j], c)
    ensures exists i :: 0 <= i < |Eligible(results[..k], c)| && Eligible(results[..k], c)[i] == results[j]
  {
    assert results[..k][j] == results[j];
    EligibleMember(results[..k], c, results[j]);
  }

  /** Scoring fails exactly when some host passes and some passing host has an unparsed metric. */
  lemma SelectFailed(results: seq<Snapshot>, c: Criteria)
    ensures Select(results, c) == ScoreFailed <==> exists t :: t in results && Passes(t, c) && Score(t).None?
  {
    var candidates := Eligible(results, c);
    if exists t :: t in results && Passes(t, c) && Score(t).None? {
      var t :| t in results && Passes(t, c) && Score(t).None?;
      EligibleMember(results, c, t);
    }
    if Select(results, c) == ScoreFailed {
      var i :| 0 <= i < |candidates| && Score(candidates[i]).None?;
      EligibleMember(results, c, candidates[i]);
    }
  }

  /** The filtering, scoring and sorting of `find_best_server`. */
  method SelectBest(results: seq<Snapshot>, c: Criteria) returns (r: Choice)
    ensures r == Select(results, c)
  {
    var filtered := FilterResults(results, c);
    if filtered == [] {
      return NoServer;
    }
    var keys := ScoreAll(filtered);
    if keys.None? {
      return ScoreFailed;
    }
    var best := FirstMinimum(keys.value);
    return Best(filtered[best]);
  }

  /** The online list and the filter loop of `find_best_server`. */
  method FilterResults(results: seq<Snapshot>, c: Criteria) returns (filtered: seq<Snapshot>)
    ensures filtered == Eligible(results, c)
  {
    filtered := [];
    for i := 0 to |results|
      invariant filtered == Eligible(results[..i], c)
    {
      assert results[..i + 1][..i] == results[..i];
      var s := results[i];
      if !s.online {
        continue;
      }
      if c.maxCpu.Some? {
        if !Known(s.cpuUsage) || s.cpuUsage.value.value > c.maxCpu.value {
          continue;
        }
      }
      if c.minMemoryGb.Some? {
        if !Known(s.memoryUsage) || s.memoryUsage.value.value > MemoryCeiling {
          continue;
        }
      }
      if c.needGpu {
        if !HasGpuReadings(s) {
          continue;
        }
      }
      filtered := filtered + [s];
    }
    assert results[..|results|] == results;
  }

  /** The sort keys `list.sort` computes first, one `score_server` per candidate. */
  method ScoreAll(candidates: seq<Snapshot>) returns (keys: Option<seq<real>>)
    ensures keys == Scores(candidates)
  {
    var ks: seq<real> := [];
    for i := 0 to |candidates|
      invariant |ks| == i
      invariant forall j :: 0 <= j < i ==> Score(candidates[j]) == Some(ks[j])
    {
      var key := Score(candidates[i]);
      if key.None? {
        return None;
      }
      ks := ks + [key.value];
    }
    assert forall j :: 0 <= j < |candidates| ==> Score(candidates[j]).Some?;
    assert seq(|candidates|, j requires 0 <= j < |candidates| => Score(candidates[j]).value) == ks;
    return Some(ks);
  }

  /** The front of the stably sorted list: the first of the least keys. */
  method FirstMinimum(keys: seq<real>) returns (best: nat)
    requires |keys| > 0
    ensures best == FirstMin(keys)
  {
    best := 0;
    for i := 1 to |keys|
      invariant best < i
      invariant forall j :: 0 <= j < i ==> keys[best] <= keys[j]
      invariant forall j :: 0 <= j < best ==> keys[best] < keys[j]
    {
      if keys[i] < keys[best] {
        best := i;
      }
    }
    FirstMinUnique(keys, best, FirstMin(keys));
  }

  /** Only the presence of a memory requirement matters, not the amount asked for. */
  lemma MemoryAmountIgnored(results: seq<Snapshot>, c: Criteria, a: int, b: int)
    ensures Select(results, c.(minMemoryGb := Some(a))) == Select(results, c.(minMemoryGb := Some(b)))
  {
    EligibleIgnoresMemoryAmount(results, c, a, b);
  }
}
