/**
 * The configuration side of the scout (config.py): server definitions and the expansion of
 * host-range patterns such as `orca{01..16}`, the defaults of the `ssh` and `cache` sections,
 * server lookup, the GPU filter, and the `ssh` argument vector every remote command is run with.
 */
module Config {
  import opened Wrappers
  import opened Text

  /** One host to watch: its display name, the address `ssh` connects to, whether it has GPUs. */
  datatype ServerConfig = ServerConfig(name: string, host: string, hasGpu: bool)

  /**
   * One entry of the `servers` list as loaded from the configuration file; absent keys are
   * `None`.
   */
  datatype ServerDef = ServerDef(name: Option<string>, host: Option<string>, hasGpu: Option<bool>, pattern: Option<string>)

  /** The `ssh` section after its defaults are applied. */
  datatype SshSettings = SshSettings(timeout: nat, username: string, options: seq<string>)

  /** A loaded configuration: expanded servers, ssh settings, the metric commands, the cache TTL. */
  datatype Config = Config(servers: seq<ServerConfig>, ssh: SshSettings, commands: map<string, string>, ttl: real)

  /** A host whose address is its name. */
  function Named(name: string, gpu: bool): ServerConfig {
    ServerConfig(name, name, gpu)
  }

  // ---------------------------------------------------------------------------------------
  // defaults of a loaded configuration

  /** The `ssh` section as loaded; absent keys are `None`. */
  datatype SshSection = SshSection(timeout: Option<nat>, username: Option<string>, options: Option<seq<string>>)

  /** The configuration file as loaded: the servers list and the sections, absent ones `None`. */
  datatype RawConfig = RawConfig(servers: seq<ServerDef>, ssh: SshSection, commands: Option<map<string, string>>, ttl: Option<real>)

  /** The connection timeout, in seconds, used when the `ssh` section sets none. */
  const DefaultTimeout: nat := 10

  /** The cache TTL, in seconds, used when the file has no `cache` section. */
  const DefaultTtl: real := 30.0

  /** `_parse_ssh`: absent keys get their defaults, the username defaulting to `$USER` (`user`). */
  function ParseSsh(section: SshSection, user: string): (r: SshSettings)
    ensures section.timeout.None? ==> r.timeout == DefaultTimeout
    ensures section.username.None? ==> r.username == user
    ensures section.options.None? ==> r.options == []
  {
    SshSettings(section.timeout.GetOr(DefaultTimeout), section.username.GetOr(user), section.options.GetOr([]))
  }

  /** Defaults only fill gaps: settings given in full come back unchanged, whatever `$USER` is. */
  lemma ParseSshKeeps(settings: SshSettings, user: string)
    ensures ParseSsh(SshSection(Some(settings.timeout), Some(settings.username), Some(settings.options)), user) == settings
  {
  }

  /** `Config.__init__` after the file is read: servers expanded, defaults applied. */
  function Load(raw: RawConfig, user: string): (r: Config)
    ensures r.servers == Expand(raw.servers)
    ensures raw.commands.None? ==> r.commands == map[]
    ensures raw.ttl.None? ==> r.ttl == DefaultTtl
  {
    Config(Expand(raw.servers), ParseSsh(raw.ssh, user), raw.commands.GetOr(map[]), raw.ttl.GetOr(DefaultTtl))
  }

  // ---------------------------------------------------------------------------------------
  // the pattern regex (.+)\{(\d+)\.\.(\d+)\} under re.match

  /** The three groups of a match: the prefix and the two digit strings. */
  datatype RangeMatch = RangeMatch(prefix: string, start: string, end: string)

  /** The length of the run of ASCII digits `s` starts with. */
  function DigitRun(s: string): nat {
    if |s| > 0 && IsDigit(s[0]) then 1 + DigitRun(s[1..]) else 0
  }

  /** `\d+` takes digits only, and all of those at the head of `s`. */
  lemma {:induction false} DigitRunSpan(s: string)
    ensures var n := DigitRun(s);
      n <= |s| && AllDigits(s[..n]) && (n < |s| ==> !IsDigit(s[n]))
  {
    if |s| > 0 && IsDigit(s[0]) {
      DigitRunSpan(s[1..]);
      var n := DigitRun(s);
      assert s[..n] == [s[0]] + s[1..][..n - 1];
    }
  }

  /** A digit run followed by a non-digit is read in full. */
  lemma {:induction false} DigitRunExact(d: string, rest: string)
    requires AllDigits(d) && (rest == [] || !IsDigit(rest[0]))
    ensures DigitRun(d + rest) == |d|
  {
    if d != [] {
      assert (d + rest)[1..] == d[1..] + rest;
      DigitRunExact(d[1..], rest);
    } else {
      assert d + rest == rest;
    }
  }

  /**
   * The regex with its prefix group `(.+)` ending at position `p`: `{`, digits, `..`, digits,
   * `}` must follow; `.` matches anything but a line break. The digit groups are maximal,
   * because a `\d+` that gives back a digit leaves a digit where `.` or `}` must come.
   */
  function GroupAt(s: string, p: nat): Option<RangeMatch>
    requires p <= |s|
  {
    if 1 <= p < |s| && '\n' !in s[..p] && s[p] == '{' then Groups(s[..p], s[p + 1..]) else None
  }

  /** After the `{`: the first digit group and the `..`. */
  function Groups(prefix: string, t: string): Option<RangeMatch>
  {
    var a := DigitRun(t);
    if a >= 1 && a + 2 <= |t| && t[a] == '.' && t[a + 1] == '.' then Closing(prefix, t[..a], t[a + 2..]) else None
  }

  /** After the `..`: the second digit group and the `}`. */
  function Closing(prefix: string, start: string, u: string): Option<RangeMatch>
  {
    var b := DigitRun(u);
    if b >= 1 && b < |u| && u[b] == '}' then Some(RangeMatch(prefix, start, u[..b])) else None
  }

  /** The text a match spells out. */
  function RangeText(m: RangeMatch): string {
    m.prefix + "{" + RangeTail(m)
  }

  /** The text of a match after its prefix's `{`. */
  function RangeTail(m: RangeMatch): string {
    m.start + ".." + m.end + "}"
  }

  /** `s` begins with the text of `m`, and `m` has the shape the regex demands. */
  predicate MatchesAt(s: string, m: RangeMatch) {
    && |m.prefix| >= 1 && '\n' !in m.prefix
    && |m.start| >= 1 && AllDigits(m.start) && |m.end| >= 1 && AllDigits(m.end)
    && StartsWith(s, RangeText(m))
  }

  /** What `GroupAt` finds is a match of the regex. */
  lemma GroupAtSound(s: string, p: nat)
    requires p <= |s| && GroupAt(s, p).Some?
    ensures MatchesAt(s, GroupAt(s, p).value) && |GroupAt(s, p).value.prefix| == p
  {
    var t := s[p + 1..];
    var a := DigitRun(t);
    var u := t[a + 2..];
    var b := DigitRun(u);
    var m := RangeMatch(s[..p], t[..a], u[..b]);
    DigitRunSpan(t);
    DigitRunSpan(u);
    assert GroupAt(s, p) == Some(m);
    SpellTail(t, a, b);
    SpellText(s, p, a + b + 3);
  }

  /** The slice of `t` that spells `start..end}`. */
  lemma SpellTail(t: string, a: nat, b: nat)
    requires a + b + 3 <= |t| && t[a] == '.' && t[a + 1] == '.' && t[a + 2 + b] == '}'
    ensures t[..a + b + 3] == t[..a] + ".." + t[a + 2..][..b] + "}"
  {
    assert t[..a + b + 3] == t[..a] + [t[a], t[a + 1]] + t[a + 2..][..b] + [t[a + 2 + b]];
  }

  /** The slice of `s` that spells `prefix{` and what follows the brace. */
  lemma SpellText(s: string, p: nat, n: nat)
    requires p + 1 + n <= |s| && s[p] == '{'
    ensures s[..p + 1 + n] == s[..p] + "{" + s[p + 1..][..n]
  {
    assert s[..p + 1 + n] == s[..p] + [s[p]] + s[p + 1..][..n];
  }

  /** Every match of the regex with its prefix ending at `p` is what `GroupAt` finds there. */
  lemma GroupAtComplete(s: string, m: RangeMatch)
    requires MatchesAt(s, m)
    ensures GroupAt(s, |m.prefix|) == Some(m)
  {
    var rest := MatchedSplit(s, m);
    GroupAtBrace(m.prefix, RangeTail(m) + rest);
    GroupsOf(m, rest);
  }

  /** A string the match starts is the prefix, the `{`, the match's tail and what follows. */
  lemma MatchedSplit(s: string, m: RangeMatch) returns (rest: string)
    requires MatchesAt(s, m)
    ensures s == m.prefix + "{" + (RangeTail(m) + rest)
  {
    var w := RangeText(m);
    rest := s[|w|..];
    assert s == w + rest by { assert s[..|w|] == w; }
  }

  /** At the end of a one-line, non-empty prefix followed by `{`, `GroupAt` reads the groups. */
  lemma GroupAtBrace(prefix: string, t: string)
    requires |prefix| >= 1 && '\n' !in prefix
    ensures GroupAt(prefix + "{" + t, |prefix|) == Groups(prefix, t)
  {
    var s := prefix + "{" + t;
    assert s[..|prefix|] == prefix;
    assert s[|prefix| + 1..] == t;
  }

  lemma GroupsOf(m: RangeMatch, rest: string)
    requires |m.start| >= 1 && AllDigits(m.start) && |m.end| >= 1 && AllDigits(m.end)
    ensures Groups(m.prefix, RangeTail(m) + rest) == Some(m)
  {
    var t := RangeTail(m) + rest;
    var a := |m.start|;
    assert t == m.start + t[a..];
    DigitRunExact(m.start, t[a..]);
    assert t[..a] == m.start;
    assert t[a + 2..] == m.end + "}" + rest;
    ClosingOf(m, rest);
  }

  lemma ClosingOf(m: RangeMatch, rest: string)
    requires |m.end| >= 1 && AllDigits(m.end)
    ensures Closing(m.prefix, m.start, m.end + "}" + rest) == Some(m)
  {
    var u := m.end + "}" + rest;
    var b := |m.end|;
    assert u == m.end + u[b..];
    DigitRunExact(m.end, u[b..]);
    assert u[..b] == m.end;
  }

  /** The longest prefix end `q <= p` at which the regex matches (greedy `(.+)`). */
  function MatchFrom(s: string, p: nat): (r: Option<RangeMatch>)
    requires p <= |s|
    ensures r.Some? ==> 1 <= |r.value.prefix| <= p
  {
    if p == 0 then None
    else match GroupAt(s, p)
      case Some(m) => GroupAtSound(s, p); Some(m)
      case None => MatchFrom(s, p - 1)
  }

  /** `re.match(r'(.+)\{(\d+)\.\.(\d+)\}', pattern)`. */
  function MatchRange(pattern: string): (r: Option<RangeMatch>)
    ensures r.Some? ==> MatchesAt(pattern, r.value)
  {
    MatchFromSound(pattern, |pattern|);
    MatchFrom(pattern, |pattern|)
  }

  /** What the search finds is a match of the regex. */
  lemma {:induction false} MatchFromSound(s: string, p: nat)
    requires p <= |s|
    ensures MatchFrom(s, p).Some? ==> MatchesAt(s, MatchFrom(s, p).value)
  {
    if p > 0 {
      if GroupAt(s, p).Some? {
        GroupAtSound(s, p);
      } else {
        MatchFromStep(s, p);
        MatchFromSound(s, p - 1);
      }
    }
  }

  /** Greedy search: a prefix end `q <= p0` that matches bounds the prefix the search finds. */
  lemma {:induction false} MatchFromGreedy(s: string, p0: nat, q: nat)
    requires q <= p0 <= |s| && GroupAt(s, q).Some?
    ensures MatchFrom(s, p0).Some? && q <= |MatchFrom(s, p0).value.prefix|
  {
    if GroupAt(s, p0).None? {
      MatchFromStep(s, p0);
      MatchFromGreedy(s, p0 - 1, q);
    } else {
      GroupAtSound(s, p0);
    }
  }

  /** The search from `p` finds nothing exactly when no prefix end up to `p` matches. */
  lemma {:induction false} MatchFromNone(s: string, p: nat)
    requires p <= |s|
    ensures MatchFrom(s, p) == None <==> forall q :: 1 <= q <= p ==> GroupAt(s, q) == None
  {
    if p > 0 {
      MatchFromNone(s, p - 1);
      if GroupAt(s, p).None? {
        MatchFromStep(s, p);
      } else {
        assert MatchFrom(s, p).Some?;
      }
    }
  }

  /** A match is a match of the regex, and no longer prefix gives one. */
  lemma MatchRangeSound(pattern: string)
    requires MatchRange(pattern).Some?
    ensures MatchesAt(pattern, MatchRange(pattern).value)
    ensures forall m :: MatchesAt(pattern, m) ==> |m.prefix| <= |MatchRange(pattern).value.prefix|
  {
    var r := MatchRange(pattern).value;
    forall m | MatchesAt(pattern, m) ensures |m.prefix| <= |r.prefix| {
      GroupAtComplete(pattern, m);
      assert |m.prefix| <= |pattern| by { assert |RangeText(m)| <= |pattern|; }
      MatchFromGreedy(pattern, |pattern|, |m.prefix|);
    }
  }

  /** The regex fails exactly when no prefix of the pattern is followed by a range group. */
  lemma MatchRangeNone(pattern: string)
    ensures MatchRange(pattern) == None <==> forall m :: !MatchesAt(pattern, m)
  {
    MatchFromNone(pattern, |pattern|);
    forall m | MatchesAt(pattern, m) ensures 1 <= |m.prefix| <= |pattern| && GroupAt(pattern, |m.prefix|).Some? {
      GroupAtComplete(pattern, m);
      assert |RangeText(m)| <= |pattern|;
    }
    if MatchRange(pattern).Some? {
      MatchRangeSound(pattern);
    }
  }

  /**
   * `prefix{a..b}` followed by text without another `{` matches with exactly these groups:
   * trailing text after the `}` is ignored.
   */
  lemma MatchRangeOf(m: RangeMatch, rest: string)
    requires |m.prefix| >= 1 && '\n' !in m.prefix
    requires |m.start| >= 1 && AllDigits(m.start) && |m.end| >= 1 && AllDigits(m.end)
    requires '{' !in rest
    ensures MatchRange(RangeText(m) + rest) == Some(m)
  {
    var s := RangeText(m) + rest;
    var p := |m.prefix|;
    assert StartsWith(s, RangeText(m)) by { assert s[..|RangeText(m)|] == RangeText(m); }
    GroupAtComplete(s, m);
    forall q | p < q <= |s| ensures GroupAt(s, q) == None {
      if q < |s| {
        NoBraceAfter(m, rest, q);
      }
    }
    MatchFromSkip(s, |s|, p);
  }

  lemma NoBraceAfter(m: RangeMatch, rest: string, q: nat)
    requires AllDigits(m.start) && AllDigits(m.end) && '{' !in rest
    requires |m.prefix| < q < |RangeText(m) + rest|
    ensures (RangeText(m) + rest)[q] != '{'
  {
    var s := RangeText(m) + rest;
    var w := RangeText(m);
    var p := |m.prefix|;
    if q < |w| {
      var t := w[p + 1..];
      assert t == m.start + ".." + m.end + "}";
      var k := q - p - 1;
      assert s[q] == t[k];
      if k < |m.start| {
        assert t[k] == m.start[k];
      } else if k >= |m.start| + 2 && k < |m.start| + 2 + |m.end| {
        assert t[k] == m.end[k - |m.start| - 2];
      }
    } else {
      assert s[q] == rest[q - |w|];
    }
  }

  /** Prefix ends with no match are skipped by the search. */
  lemma {:induction false} MatchFromSkip(s: string, p: nat, p0: nat)
    requires p0 <= p <= |s|
    requires forall q :: p0 < q <= p ==> GroupAt(s, q) == None
    ensures MatchFrom(s, p) == MatchFrom(s, p0)
  {
    if p > p0 {
      MatchFromStep(s, p);
      MatchFromSkip(s, p - 1, p0);
    }
  }

  /** A prefix end without a match hands the search to the next shorter one. */
  lemma MatchFromStep(s: string, p: nat)
    requires 1 <= p <= |s| && GroupAt(s, p) == None
    ensures MatchFrom(s, p) == MatchFrom(s, p - 1)
  {
  }

  // ---------------------------------------------------------------------------------------
  // expansion of the servers list

  /** How many values `range(lo, hi + 1)` yields. */
  function Count(lo: nat, hi: nat): nat {
    if lo <= hi then hi - lo + 1 else 0
  }

  /** The `k`-th name of a range: the prefix and `str(lo + k).zfill(width)`. */
  function RangeName(prefix: string, lo: nat, k: nat, width: nat): string {
    prefix + ZFill(NatToString(lo + k), width)
  }

  /** The first `n` hosts of the range starting at `lo`. */
  function RangeServers(prefix: string, lo: nat, n: nat, width: nat, gpu: bool): (r: seq<ServerConfig>)
    ensures |r| == n
  {
    seq(n, k requires 0 <= k < n => Named(RangeName(prefix, lo, k, width), gpu))
  }

  /** The hosts one entry of the `servers` list stands for. */
  function ExpandDef(d: ServerDef): seq<ServerConfig> {
    if d.name.Some? then
      [ServerConfig(d.name.value, d.host.GetOr(d.name.value), d.hasGpu.GetOr(false))]
    else if d.pattern.Some? then
      var gpu := d.hasGpu.GetOr(false);
      match MatchRange(d.pattern.value)
      case Some(m) =>
        var lo := DigitsValue(m.start);
        RangeServers(m.prefix, lo, Count(lo, DigitsValue(m.end)), |m.start|, gpu)
      case None => [Named(d.pattern.value, gpu)]
    else []
  }

  /** The whole `servers` list, entry after entry. */
  function Expand(defs: seq<ServerDef>): seq<ServerConfig> {
    if defs == [] then [] else Expand(defs[..|defs| - 1]) + ExpandDef(defs[|defs| - 1])
  }

  lemma ExpandStep(defs: seq<ServerDef>, j: nat)
    requires j < |defs|
    ensures Expand(defs[..j + 1]) == Expand(defs[..j]) + ExpandDef(defs[j])
  {
    assert defs[..j + 1][..j] == defs[..j];
  }

  lemma RangeSnoc(prefix: string, lo: nat, n: nat, width: nat, gpu: bool)
    ensures RangeServers(prefix, lo, n + 1, width, gpu)
      == RangeServers(prefix, lo, n, width, gpu) + [Named(RangeName(prefix, lo, n, width), gpu)]
  {
    var a := RangeServers(prefix, lo, n + 1, width, gpu);
    var b := RangeServers(prefix, lo, n, width, gpu) + [Named(RangeName(prefix, lo, n, width), gpu)];
    forall k | 0 <= k < n + 1 ensures a[k] == b[k] {
      if k < n {
        assert b[k] == RangeServers(prefix, lo, n, width, gpu)[k];
      }
    }
  }

  lemma Extend(before: seq<ServerConfig>, prefix: string, lo: nat, k: nat, width: nat, gpu: bool)
    ensures before + RangeServers(prefix, lo, k + 1, width, gpu)
      == before + RangeServers(prefix, lo, k, width, gpu) + [Named(RangeName(prefix, lo, k, width), gpu)]
  {
    RangeSnoc(prefix, lo, k, width, gpu);
  }

  /** The loop over `range(start, end + 1)`: appends the range's hosts, in ascending order. */
  method AppendRange(before: seq<ServerConfig>, prefix: string, start: nat, end: nat, width: nat, gpu: bool)
    returns (servers: seq<ServerConfig>)
    ensures servers == before + RangeServers(prefix, start, Count(start, end), width, gpu)
  {
    servers := before;
    for k := 0 to Count(start, end)
      invariant servers == before + RangeServers(prefix, start, k, width, gpu)
    {
      Extend(before, prefix, start, k, width, gpu);
      servers := servers + [Named(RangeName(prefix, start, k, width), gpu)];
    }
  }

  /** `_parse_servers`. */
  method ParseServers(defs: seq<ServerDef>) returns (servers: seq<ServerConfig>)
    ensures servers == Expand(defs)
  {
    servers := [];
    for j := 0 to |defs|
      invariant servers == Expand(defs[..j])
    {
      ExpandStep(defs, j);
      var d := defs[j];
      if d.name.Some? {
        servers := servers + [ServerConfig(d.name.value, d.host.GetOr(d.name.value), d.hasGpu.GetOr(false))];
      } else if d.pattern.Some? {
        var pattern := d.pattern.value;
        var gpu := d.hasGpu.GetOr(false);
        var m := MatchRange(pattern);
        if m.Some? {
          var prefix, width := m.value.prefix, |m.value.start|;
          var start, end := DigitsValue(m.value.start), DigitsValue(m.value.end);
          servers := AppendRange(servers, prefix, start, end, width, gpu);
          assert ExpandDef(d) == RangeServers(prefix, start, Count(start, end), width, gpu);
        } else {
          servers := servers + [Named(pattern, gpu)];
          assert ExpandDef(d) == [Named(pattern, gpu)];
        }
      }
    }
    assert defs[..|defs|] == defs;
  }

  /** The servers list follows the order of its entries. */
  lemma {:induction false} ExpandAppend(xs: seq<ServerDef>, ys: seq<ServerDef>)
    ensures Expand(xs + ys) == Expand(xs) + Expand(ys)
  {
    if ys != [] {
      var ys' := ys[..|ys| - 1];
      assert (xs + ys)[..|xs + ys| - 1] == xs + ys';
      ExpandAppend(xs, ys');
    } else {
      assert xs + ys == xs;
    }
  }

  /** A named entry is one host, addressed by its name unless `host` is given, without GPUs unless said. */
  lemma ExpandNamed(d: ServerDef)
    requires d.name.Some?
    ensures ExpandDef(d) == [ServerConfig(d.name.value, if d.host.Some? then d.host.value else d.name.value, d.hasGpu == Some(true))]
  {
  }

  /** An entry with neither `name` nor `pattern` contributes nothing. */
  lemma ExpandNothing(d: ServerDef)
    requires d.name.None? && d.pattern.None?
    ensures ExpandDef(d) == []
  {
  }

  /** A pattern the regex rejects is taken literally, as one host. */
  lemma ExpandLiteral(d: ServerDef)
    requires d.name.None? && d.pattern.Some? && MatchRange(d.pattern.value).None?
    ensures ExpandDef(d) == [Named(d.pattern.value, d.hasGpu == Some(true))]
  {
  }

  /** `prefix{a..b}` gives `b - a + 1` hosts when `a <= b`, none otherwise. */
  lemma ExpandRangeCount(d: ServerDef)
    requires d.name.None? && d.pattern.Some? && MatchRange(d.pattern.value).Some?
    ensures var m := MatchRange(d.pattern.value).value;
      var a, b := DigitsValue(m.start), DigitsValue(m.end);
      |ExpandDef(d)| == (if a <= b then b - a + 1 else 0)
  {
  }

  /**
   * The `k`-th host of `prefix{a..b}` is named by the prefix followed by digits that read as
   * `a + k`, padded to the width of `a` as written and never cut; its address is its name.
   */
  lemma ExpandRangeNames(d: ServerDef, k: nat)
    requires d.name.None? && d.pattern.Some? && MatchRange(d.pattern.value).Some?
    requires k < |ExpandDef(d)|
    ensures var m := MatchRange(d.pattern.value).value;
      var s := ExpandDef(d)[k];
      && s.host == s.name
      && s.hasGpu == (d.hasGpu == Some(true))
      && |s.name| >= |m.prefix| + |m.start|
      && s.name[..|m.prefix|] == m.prefix
      && AllDigits(s.name[|m.prefix|..])
      && DigitsValue(s.name[|m.prefix|..]) == DigitsValue(m.start) + k
      && s.name == m.prefix + ZFill(NatToString(DigitsValue(m.start) + k), |m.start|)
  {
    var m := MatchRange(d.pattern.value).value;
    ExpandDefAt(d, k);
    RangeNameValue(m.prefix, DigitsValue(m.start), k, |m.start|);
  }

  /** The `k`-th host of a range entry is the `k`-th name of the range. */
  lemma ExpandDefAt(d: ServerDef, k: nat)
    requires d.name.None? && d.pattern.Some? && MatchRange(d.pattern.value).Some?
    requires k < |ExpandDef(d)|
    ensures var m := MatchRange(d.pattern.value).value;
      ExpandDef(d)[k] == Named(RangeName(m.prefix, DigitsValue(m.start), k, |m.start|), d.hasGpu.GetOr(false))
  {
  }

  lemma RangeNameValue(prefix: string, lo: nat, k: nat, width: nat)
    ensures var name := RangeName(prefix, lo, k, width);
      && |name| >= |prefix| + width
      && |name| >= |prefix| + |NatToString(lo + k)|
      && name[..|prefix|] == prefix
      && AllDigits(name[|prefix|..])
      && DigitsValue(name[|prefix|..]) == lo + k
  {
    var name := RangeName(prefix, lo, k, width);
    assert name[|prefix|..] == ZFill(NatToString(lo + k), width);
    ZFillValue(lo + k, width);
  }

  /** The hosts of a range come in ascending numeric order, hence with distinct names. */
  lemma RangeAscending(prefix: string, lo: nat, n: nat, width: nat, gpu: bool, i: nat, j: nat)
    requires i < j < n
    ensures var r := RangeServers(prefix, lo, n, width, gpu);
      var a, b := r[i].name, r[j].name;
      && |prefix| <= |a| && |prefix| <= |b|
      && AllDigits(a[|prefix|..]) && AllDigits(b[|prefix|..])
      && DigitsValue(a[|prefix|..]) < DigitsValue(b[|prefix|..])
      && a != b
  {
    RangeNameValue(prefix, lo, i, width);
    RangeNameValue(prefix, lo, j, width);
  }

  // ---------------------------------------------------------------------------------------
  // lookups

  /** `get_server`: the first host with this name, if any. */
  method GetServer(servers: seq<ServerConfig>, name: string) returns (r: Option<ServerConfig>)
    ensures r.None? <==> forall i :: 0 <= i < |servers| ==> servers[i].name != name
    ensures r.Some? ==> exists i :: (0 <= i < |servers| && servers[i] == r.value && r.value.name == name
      && forall j :: 0 <= j < i ==> servers[j].name != name)
  {
    for i := 0 to |servers|
      invariant forall j :: 0 <= j < i ==> servers[j].name != name
    {
      if servers[i].name == name {
        return Some(servers[i]);
      }
    }
    return None;
  }

  /** `get_gpu_servers`: the hosts with GPUs, in their order. */
  function GpuServers(servers: seq<ServerConfig>): (r: seq<ServerConfig>)
    ensures |r| <= |servers|
    ensures forall i :: 0 <= i < |r| ==> r[i].hasGpu
  {
    if servers == [] then []
    else
      var last := servers[|servers| - 1];
      GpuServers(servers[..|servers| - 1]) + (if last.hasGpu then [last] else [])
  }

  /** A host is kept exactly when it is configured and has GPUs. */
  lemma {:induction false} GpuServersMember(servers: seq<ServerConfig>, s: ServerConfig)
    ensures s in GpuServers(servers) <==> s in servers && s.hasGpu
  {
    if servers != [] {
      var init := servers[..|servers| - 1];
      GpuServersMember(init, s);
      assert servers == init + [servers[|servers| - 1]];
    }
  }

  /** Filtering commutes with concatenation, so the original order is kept. */
  lemma {:induction false} GpuServersAppend(xs: seq<ServerConfig>, ys: seq<ServerConfig>)
    ensures GpuServers(xs + ys) == GpuServers(xs) + GpuServers(ys)
  {
    if ys != [] {
      var ys' := ys[..|ys| - 1];
      assert (xs + ys)[..|xs + ys| - 1] == xs + ys';
      GpuServersAppend(xs, ys');
    } else {
      assert xs + ys == xs;
    }
  }

  /** When every host has GPUs nothing is dropped. */
  lemma {:induction false} GpuServersAll(servers: seq<ServerConfig>)
    requires forall i :: 0 <= i < |servers| ==> servers[i].hasGpu
    ensures GpuServers(servers) == servers
  {
    if servers != [] {
      GpuServersAll(servers[..|servers| - 1]);
      assert servers == servers[..|servers| - 1] + [servers[|servers| - 1]];
    }
  }

  // ---------------------------------------------------------------------------------------
  // the ssh argument vector

  /** `user@host` when a username is set, the bare host otherwise. */
  function Target(username: string, host: string): (r: string)
    ensures |r| >= |host| && r[|r| - |host|..] == host
  {
    if username != [] then username + "@" + host else host
  }

  /** The option that bounds the connection time: `ConnectTimeout=<seconds>`. */
  function TimeoutOption(timeout: nat): string {
    "ConnectTimeout=" + NatToString(timeout)
  }

  /** The argument vector of `ssh` for one remote command. */
  function SshArgv(ssh: SshSettings, host: string, command: string): (r: seq<string>)
    ensures |r| == |ssh.options| + 5
    ensures r[0] == "ssh" && r[1..|ssh.options| + 1] == ssh.options
    ensures r[|ssh.options| + 1] == "-o" && r[|ssh.options| + 2] == TimeoutOption(ssh.timeout)
    ensures r[|ssh.options| + 3] == Target(ssh.username, host)
    ensures r[|r| - 1] == command
  {
    var r := ["ssh"] + ssh.options + ["-o", TimeoutOption(ssh.timeout)] + [Target(ssh.username, host)] + [command];
    assert r[1..|ssh.options| + 1] == ssh.options;
    r
  }

  /** `get_ssh_command`. */
  method GetSshCommand(ssh: SshSettings, host: string, command: string) returns (argv: seq<string>)
    ensures argv == SshArgv(ssh, host, command)
  {
    argv := ["ssh"];
    argv := argv + ssh.options;
    argv := argv + ["-o", "ConnectTimeout=" + NatToString(ssh.timeout)];
    if ssh.username != [] {
      argv := argv + [ssh.username + "@" + host];
    } else {
      argv := argv + [host];
    }
    argv := argv + [command];
  }

  /** The timeout in the argument vector reads back as the configured number of seconds. */
  lemma TimeoutOptionValue(timeout: nat)
    ensures var o := TimeoutOption(timeout); |o| > 15 && AllDigits(o[15..]) && DigitsValue(o[15..]) == timeout
  {
    var o := TimeoutOption(timeout);
    assert o[15..] == NatToString(timeout);
    NatToStringValue(timeout);
  }

  /** With a username, the target splits at its `@` back into user and host. */
  lemma TargetSplit(username: string, host: string)
    requires username != [] && '@' !in username && '@' !in host
    ensures Split(Target(username, host), '@') == [username, host]
  {
    assert Join([host], '@') == host;
    assert Join([username, host], '@') == username + "@" + host;
    SplitJoin([username, host], '@');
  }
}
