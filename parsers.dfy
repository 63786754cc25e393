/**
 * Parsers for the text the remote metric commands print (parsers.py). Every parser is total:
 * malformed input yields `None`, never an exception, and a list parser that finds no valid
 * entry yields `None` rather than an empty list.
 */
module Parsers {
  import opened Wrappers
  import opened Text
  import opened Numerals
  import opened Seqs

  /** The 1-, 5- and 15-minute load averages. */
  datatype LoadAverage = LoadAverage(one: real, five: real, fifteen: real)

  /** One GPU's memory line: `used_mb`, `total_mb`, `used_percent`. */
  datatype GpuMemory = GpuMemory(usedMb: int, totalMb: int, usedPercent: real)

  /** One GPU process line: `pid`, `name`, `memory_mb`, kept as text. */
  datatype GpuProcess = GpuProcess(pid: string, name: string, memoryMb: string)

  // ---------------------------------------------------------------------------------------
  // CPU and memory usage

  /** `parse_cpu_usage`: strip, drop every trailing `'%'`, read a decimal. */
  function ParseCpuUsage(output: string): (r: Option<real>)
    ensures output == [] ==> r == None
  {
    if output == [] then None else ParseFloat(RStrip(Strip(output), '%'))
  }

  /** `parse_memory_usage`: strip and read a decimal; a `'%'` is not removed. */
  function ParseMemoryUsage(output: string): (r: Option<real>)
    ensures output == [] ==> r == None
  {
    if output == [] then None else ParseFloat(Strip(output))
  }

  /** The CPU parser ignores any number of `'%'` after an already stripped reading. */
  lemma CpuUsageIgnoresPercent(s: string, k: nat)
    requires Trimmed(s)
    ensures ParseCpuUsage(s + Repeat('%', k)) == ParseCpuUsage(s)
  {
    var t := s + Repeat('%', k);
    StripTrimmed(s);
    if k > 0 {
      assert Trimmed(t) by {
        if s != [] { assert t[0] == s[0]; }
        assert t[|t| - 1] == '%';
      }
      StripTrimmed(t);
      RStripRepeat(s, '%', k);
    } else {
      assert t == s;
    }
  }

  /** `"<n>%"` reads as the percentage `n`. */
  lemma CpuUsageOfNat(n: nat)
    ensures ParseCpuUsage(NatToString(n) + "%") == Some(n as real)
  {
    var s := NatToString(n);
    assert Trimmed(s) by { DigitNotSpace(s[0]); DigitNotSpace(s[|s| - 1]); }
    assert s + "%" == s + Repeat('%', 1);
    CpuUsageIgnoresPercent(s, 1);
    StripTrimmed(s);
    assert RStrip(s, '%') == s by { assert IsDigit(s[|s| - 1]); }
    FloatOfNat(n);
  }

  /** A plain decimal `ip.fp` reads as its value. */
  lemma CpuUsageDecimal(ip: string, fp: string)
    requires |ip| >= 1 && AllDigits(ip) && AllDigits(fp)
    ensures ParseCpuUsage(Decimal(ip, fp)) == Some(DecimalValue(ip, fp))
  {
    var s := Decimal(ip, fp);
    StripDecimal(ip, fp);
    assert s[|s| - 1] != '%' by {
      if |fp| > 0 { assert s[|s| - 1] == fp[|fp| - 1]; }
    }
    assert RStrip(s, '%') == s;
    DecimalLiteral(ip, fp);
  }

  /** The reading `"12.5"` is 12.5. */
  lemma CpuUsageExample()
    ensures ParseCpuUsage("12.5") == Some(12.5)
  {
    assert AllDigits("12") && DigitsValue("12") == 12 by {
      assert "12"[..1] == "1";
    }
    assert AllDigits("5") && Fraction("5") == 0.5;
    assert Decimal("12", "5") == "12.5";
    CpuUsageDecimal("12", "5");
  }

  /** A word is not a reading. */
  lemma CpuUsageRejectsWord()
    ensures ParseCpuUsage("abc") == None
  {
    var abc := "abc";
    assert Trimmed(abc);
    StripTrimmed(abc);
    assert RStrip(abc, '%') == abc;
    assert SignOf(abc) == (false, abc);
    SplitFree(abc, '.');
    assert !AllDigits(abc) by { assert !IsDigit(abc[0]); }
  }

  /** Unlike the CPU parser, the memory parser refuses any reading that ends in `'%'`. */
  lemma MemoryUsageRejectsPercent(s: string)
    requires var t := Strip(s); |t| >= 1 && t[|t| - 1] == '%'
    ensures ParseMemoryUsage(s) == None
  {
    StripIdempotent(s);
    PercentNotLiteral(Strip(s));
  }

  /** On readings without `'%'` the two parsers agree. */
  lemma MemoryAgreesWithCpu(s: string)
    requires '%' !in s
    ensures ParseMemoryUsage(s) == ParseCpuUsage(s)
  {
    var t := Strip(s);
    assert t == TrimLeft(s)[..|t|];
    if t != [] {
      assert t[|t| - 1] in s;
    }
  }

  // ---------------------------------------------------------------------------------------
  // load average

  /** Three decimal tokens as a load-average triple. */
  function LoadTriple(values: seq<string>): Option<LoadAverage> {
    if |values| >= 3 then
      match (ParseFloat(values[0]), ParseFloat(values[1]), ParseFloat(values[2]))
      case (Some(a), Some(b), Some(c)) => Some(LoadAverage(a, b, c))
      case _ => None
    else None
  }

  /** `parse_load_average`: split on runs of commas and whitespace, read the first three tokens. */
  function ParseLoadAverage(output: string): (r: Option<LoadAverage>)
    ensures output == [] ==> r == None
    ensures r.Some? ==> |SplitRuns(Strip(output))| >= 3
  {
    if output == [] then None else LoadTriple(SplitRuns(Strip(output)))
  }

  /**
   * Whatever run of commas and whitespace separates the tokens, the triple is the same: the
   * comma-separated and the blank-separated forms of `uptime` agree.
   */
  lemma LoadAverageSeparators(tokens: seq<string>, sep: string)
    requires |tokens| >= 1 && |sep| >= 1 && AllSeps(sep)
    requires forall i :: 0 <= i < |tokens| ==> |tokens[i]| >= 1 && SepFree(tokens[i])
    ensures ParseLoadAverage(JoinWith(tokens, sep)) == LoadTriple(tokens)
  {
    var s := JoinWith(tokens, sep);
    JoinWithHead(tokens, sep);
    JoinWithLast(tokens, sep);
    assert !IsSep(tokens[0][0]);
    assert !IsSep(tokens[|tokens| - 1][|tokens[|tokens| - 1]| - 1]);
    assert Trimmed(s);
    StripTrimmed(s);
    SplitRunsJoin(tokens, sep);
  }

  /** A decimal literal `ip.fp`, the shape of each `uptime` reading. */
  predicate DecimalToken(ip: string, fp: string) {
    |ip| >= 1 && AllDigits(ip) && AllDigits(fp)
  }

  /**
   * Three decimal readings, separated by `", "`, `" "` or any other run of commas and
   * whitespace, give the triple of their values (the two documented `uptime` forms).
   */
  lemma LoadAverageDecimals(ip0: string, fp0: string, ip1: string, fp1: string, ip2: string, fp2: string, sep: string)
    requires DecimalToken(ip0, fp0) && DecimalToken(ip1, fp1) && DecimalToken(ip2, fp2)
    requires |sep| >= 1 && AllSeps(sep)
    ensures ParseLoadAverage(JoinWith([Decimal(ip0, fp0), Decimal(ip1, fp1), Decimal(ip2, fp2)], sep))
      == Some(LoadAverage(DecimalValue(ip0, fp0), DecimalValue(ip1, fp1), DecimalValue(ip2, fp2)))
  {
    var tokens := [Decimal(ip0, fp0), Decimal(ip1, fp1), Decimal(ip2, fp2)];
    DecimalsSepFree(tokens, ip0, fp0, ip1, fp1, ip2, fp2);
    DecimalsTriple(ip0, fp0, ip1, fp1, ip2, fp2);
    LoadAverageSeparators(tokens, sep);
  }

  lemma DecimalsTriple(ip0: string, fp0: string, ip1: string, fp1: string, ip2: string, fp2: string)
    requires DecimalToken(ip0, fp0) && DecimalToken(ip1, fp1) && DecimalToken(ip2, fp2)
    ensures LoadTriple([Decimal(ip0, fp0), Decimal(ip1, fp1), Decimal(ip2, fp2)])
      == Some(LoadAverage(DecimalValue(ip0, fp0), DecimalValue(ip1, fp1), DecimalValue(ip2, fp2)))
  {
    DecimalLiteral(ip0, fp0);
    DecimalLiteral(ip1, fp1);
    DecimalLiteral(ip2, fp2);
    var tokens := [Decimal(ip0, fp0), Decimal(ip1, fp1), Decimal(ip2, fp2)];
    assert tokens[0] == Decimal(ip0, fp0) && tokens[1] == Decimal(ip1, fp1) && tokens[2] == Decimal(ip2, fp2);
    LoadTripleOf(tokens, DecimalValue(ip0, fp0), DecimalValue(ip1, fp1), DecimalValue(ip2, fp2));
  }

  lemma DecimalsSepFree(tokens: seq<string>, ip0: string, fp0: string, ip1: string, fp1: string, ip2: string, fp2: string)
    requires DecimalToken(ip0, fp0) && DecimalToken(ip1, fp1) && DecimalToken(ip2, fp2)
    requires tokens == [Decimal(ip0, fp0), Decimal(ip1, fp1), Decimal(ip2, fp2)]
    ensures forall i :: 0 <= i < |tokens| ==> |tokens[i]| >= 1 && SepFree(tokens[i])
  {
    DecimalSepFree(ip0, fp0);
    DecimalSepFree(ip1, fp1);
    DecimalSepFree(ip2, fp2);
  }

  lemma LoadTripleOf(values: seq<string>, a: real, b: real, c: real)
    requires |values| >= 3
    requires ParseFloat(values[0]) == Some(a) && ParseFloat(values[1]) == Some(b) && ParseFloat(values[2]) == Some(c)
    ensures LoadTriple(values) == Some(LoadAverage(a, b, c))
  {
  }

  lemma DecimalSepFree(ip: string, fp: string)
    requires DecimalToken(ip, fp)
    ensures |Decimal(ip, fp)| >= 1 && SepFree(Decimal(ip, fp))
  {
    var t := Decimal(ip, fp);
    forall j | 0 <= j < |t| ensures !IsSep(t[j]) {
      if j < |ip| {
        assert t[j] == ip[j];
        DigitNotSpace(ip[j]);
      } else if j > |ip| {
        assert t[j] == fp[j - |ip| - 1];
        DigitNotSpace(fp[j - |ip| - 1]);
      }
    }
  }

  // ---------------------------------------------------------------------------------------
  // GPU listings: one entry per line

  /** `"not found"` anywhere, in any letter case: the GPU tool is missing on that host. */
  predicate Unsupported(output: string) {
    Contains(Lower(output), "not found")
  }

  /** `output.strip().split('\n')`. */
  function Lines(output: string): (r: seq<string>)
    ensures |r| >= 1
  {
    Split(Strip(output), '\n')
  }

  /** `xs if xs else None`. */
  function NonEmpty<T>(xs: seq<T>): (r: Option<seq<T>>)
    ensures r != Some([])
    ensures r.Some? <==> xs != []
    ensures r.Some? ==> r.value == xs
  {
    if xs == [] then None else Some(xs)
  }

  /** A utilisation line: `int(line.strip())`. */
  function UsageLine(line: string): Option<int> {
    ParseInt(Strip(line))
  }

  /** What `parse_gpu_usage` returns: the readings of the lines that parse, in line order. */
  function GpuUsageOf(output: string): (r: Option<seq<int>>)
    ensures r != Some([])
    ensures output == [] || Unsupported(output) ==> r == None
    ensures r.Some? ==> |r.value| <= |Lines(output)|
  {
    if output == [] || Unsupported(output) then None else NonEmpty(FilterMap(Lines(output), UsageLine))
  }

  /** `parse_gpu_usage`. */
  method ParseGpuUsage(output: string) returns (r: Option<seq<int>>)
    ensures r == GpuUsageOf(output)
  {
    if output == [] || Unsupported(output) {
      return None;
    }
    var lines := Lines(output);
    var usages := CollectUsages(lines);
    r := if usages == [] then None else Some(usages);
  }

  /** The loop of `parse_gpu_usage` over the lines. */
  method CollectUsages(lines: seq<string>) returns (usages: seq<int>)
    ensures usages == FilterMap(lines, UsageLine)
  {
    usages := [];
    for i := 0 to |lines|
      invariant usages == FilterMap(lines[..i], UsageLine)
    {
      FilterMapStep(lines, i, UsageLine);
      var v := UsageLine(lines[i]);
      if v.None? {
        continue;
      }
      usages := usages + [v.value];
    }
    assert lines[..|lines|] == lines;
  }

  /** A reading is reported exactly when some line holds it. */
  lemma GpuUsageMember(output: string, v: int)
    requires GpuUsageOf(output).Some?
    ensures v in GpuUsageOf(output).value <==> exists i :: 0 <= i < |Lines(output)| && UsageLine(Lines(output)[i]) == Some(v)
  {
    FilterMapMember(Lines(output), UsageLine, v);
  }

  /** No parsable line: no list at all. */
  lemma GpuUsageNone(output: string)
    requires forall i :: 0 <= i < |Lines(output)| ==> UsageLine(Lines(output)[i]).None?
    ensures GpuUsageOf(output) == None
  {
    FilterMapEmpty(Lines(output), UsageLine);
  }

  /** Output without the letter `n` in either case never reads as "not found". */
  lemma NoLetterNSupported(s: string)
    requires forall i :: 0 <= i < |s| ==> s[i] != 'n' && s[i] != 'N'
    ensures !Unsupported(s)
  {
    var l := Lower(s);
    forall i | 0 <= i < |l| ensures l[i] != 'n' {
      assert l[i] == LowerChar(s[i]);
    }
    assert "not found"[0] == 'n';
    NotContains(l, "not found");
  }

  /** `str(n)` for each reading. */
  function Readings(ns: seq<nat>): (r: seq<string>)
    ensures |r| == |ns| && forall i :: 0 <= i < |ns| ==> r[i] == NatToString(ns[i])
  {
    seq(|ns|, i requires 0 <= i < |ns| => NatToString(ns[i]))
  }

  /** The text a host with these per-GPU readings prints: one `str(n)` per line. */
  function UsageListing(ns: seq<nat>): string
    requires |ns| >= 1
  {
    Join(Readings(ns), '\n')
  }

  /** Printing readings one per line and parsing them gives the readings back, in order. */
  lemma GpuUsageRoundTrip(ns: seq<nat>)
    requires |ns| >= 1
    ensures GpuUsageOf(UsageListing(ns)) == Some(seq(|ns|, i requires 0 <= i < |ns| => ns[i] as int))
  {
    ListingLines(ns);
    ReadingsParse(ns);
  }

  /** Each printed reading parses back as itself. */
  lemma ReadingsParse(ns: seq<nat>)
    ensures FilterMap(Readings(ns), UsageLine) == seq(|ns|, i requires 0 <= i < |ns| => ns[i] as int)
  {
    ReadingsEach(ns);
    FilterMapTotal(Readings(ns), UsageLine);
  }

  /** Each printed reading, on its own line, parses as that reading. */
  lemma ReadingsEach(ns: seq<nat>)
    ensures forall i :: 0 <= i < |ns| ==> UsageLine(Readings(ns)[i]) == Some(ns[i] as int)
  {
    forall i | 0 <= i < |ns| ensures UsageLine(Readings(ns)[i]) == Some(ns[i] as int) {
      UsageOfNat(ns[i]);
    }
  }

  /** A listing splits back into its lines, and is a listing the GPU tool produced. */
  lemma ListingLines(ns: seq<nat>)
    requires |ns| >= 1
    ensures UsageListing(ns) != [] && !Unsupported(UsageListing(ns))
    ensures Lines(UsageListing(ns)) == Readings(ns)
  {
    var lines := Readings(ns);
    var s := Join(lines, '\n');
    forall i | 0 <= i < |lines| ensures '\n' !in lines[i] {
      NoNewline(lines[i]);
    }
    SplitJoin(lines, '\n');
    JoinDigits(lines);
    NoLetterNSupported(s);
    JoinEnds(lines);
    assert Trimmed(s) by {
      DigitNotSpace(lines[0][0]);
      DigitNotSpace(lines[|lines| - 1][|lines[|lines| - 1]| - 1]);
    }
    StripTrimmed(s);
  }

  /** One line `str(n)` reads back as `n`. */
  lemma UsageOfNat(n: nat)
    ensures UsageLine(NatToString(n)) == Some(n as int)
  {
    var t := NatToString(n);
    assert Trimmed(t) by { DigitNotSpace(t[0]); DigitNotSpace(t[|t| - 1]); }
    StripTrimmed(t);
    NatToStringValue(n);
    assert SignOf(t) == (false, t) by { DigitNotSpace(t[0]); }
  }

  lemma NoNewline(ds: string)
    requires AllDigits(ds)
    ensures '\n' !in ds
  {
    forall i | 0 <= i < |ds| ensures ds[i] != '\n' {
      assert IsDigit(ds[i]);
    }
  }

  /** Only digits and line breaks. */
  predicate DigitLines(s: string) {
    forall i :: 0 <= i < |s| ==> IsDigit(s[i]) || s[i] == '\n'
  }

  lemma {:induction false} JoinDigits(lines: seq<string>)
    requires |lines| >= 1 && forall i :: 0 <= i < |lines| ==> AllDigits(lines[i])
    ensures DigitLines(Join(lines, '\n'))
  {
    if |lines| > 1 {
      JoinDigits(lines[1..]);
      var s := Join(lines, '\n');
      var rest := Join(lines[1..], '\n');
      assert s == lines[0] + ['\n'] + rest;
      forall i | 0 <= i < |s| ensures IsDigit(s[i]) || s[i] == '\n' {
        if i < |lines[0]| {
          assert s[i] == lines[0][i];
        } else if i == |lines[0]| {
          assert s[i] == '\n';
        } else {
          assert s[i] == rest[i - |lines[0]| - 1];
        }
      }
    } else {
      assert AllDigits(lines[0]);
    }
  }

  lemma {:induction false} JoinEnds(lines: seq<string>)
    requires |lines| >= 1 && forall i :: 0 <= i < |lines| ==> |lines[i]| >= 1
    ensures var s := Join(lines, '\n'); |s| >= 1 && s[0] == lines[0][0]
    ensures var s := Join(lines, '\n'); var l := lines[|lines| - 1]; |s| >= 1 && s[|s| - 1] == l[|l| - 1]
  {
    if |lines| > 1 {
      if |lines| > 2 {
        JoinEnds(lines[1..]);
      }
    }
  }

  // ---------------------------------------------------------------------------------------
  // GPU memory

  /** `round(used / total * 100, 1)` when `total > 0`, else `0`. */
  function UsedPercent(used: int, total: int): (p: real)
    ensures total > 0 && 0 <= used <= total ==> 0.0 <= p <= 100.0
  {
    if total > 0 then
      var q := used as real / total as real * 100.0;
      assert 0 <= used <= total ==> 0.0 <= q <= 100.0 by {
        if 0 <= used <= total {
          FractionWithin(used as real, total as real);
        }
      }
      assert 0 <= used <= total ==> 0.0 <= RoundTenth(q) <= 100.0 by {
        if 0 <= used <= total {
          RoundTenthWithin(q, 0, 1000);
        }
      }
      RoundTenth(q)
    else 0.0
  }

  lemma FractionWithin(u: real, t: real)
    requires 0.0 <= u <= t && t > 0.0
    ensures 0.0 <= u / t <= 1.0
  {
    var r := u / t;
    assert r * t == u;
  }

  /** A memory line: two comma-separated integers `used, total`; further fields are ignored. */
  function MemoryLine(line: string): Option<GpuMemory> {
    var parts := Split(Strip(line), ',');
    if |parts| >= 2 then
      match (ParseInt(Strip(parts[0])), ParseInt(Strip(parts[1])))
      case (Some(used), Some(total)) => Some(GpuMemory(used, total, UsedPercent(used, total)))
      case _ => None
    else None
  }

  /** What `parse_gpu_memory` returns. */
  function GpuMemoryOf(output: string): (r: Option<seq<GpuMemory>>)
    ensures r != Some([])
    ensures output == [] || Unsupported(output) ==> r == None
    ensures r.Some? ==> |r.value| <= |Lines(output)|
  {
    if output == [] || Unsupported(output) then None else NonEmpty(FilterMap(Lines(output), MemoryLine))
  }

  /** `parse_gpu_memory`. */
  method ParseGpuMemory(output: string) returns (r: Option<seq<GpuMemory>>)
    ensures r == GpuMemoryOf(output)
  {
    if output == [] || Unsupported(output) {
      return None;
    }
    var lines := Lines(output);
    var memories := CollectMemories(lines);
    r := if memories == [] then None else Some(memories);
  }

  /** The loop of `parse_gpu_memory` over the lines. */
  method CollectMemories(lines: seq<string>) returns (memories: seq<GpuMemory>)
    ensures memories == FilterMap(lines, MemoryLine)
  {
    memories := [];
    for i := 0 to |lines|
      invariant memories == FilterMap(lines[..i], MemoryLine)
    {
      FilterMapStep(lines, i, MemoryLine);
      var m := MemoryLine(lines[i]);
      if m.None? {
        continue;
      }
      memories := memories + [m.value];
    }
    assert lines[..|lines|] == lines;
  }

  /** Every reported GPU comes from a line; its percentage is in range when `used` fits in `total`. */
  lemma GpuMemoryMember(output: string, g: GpuMemory)
    requires GpuMemoryOf(output).Some? && g in GpuMemoryOf(output).value
    ensures exists i :: 0 <= i < |Lines(output)| && MemoryLine(Lines(output)[i]) == Some(g)
    ensures g.usedPercent == UsedPercent(g.usedMb, g.totalMb)
    ensures g.totalMb <= 0 ==> g.usedPercent == 0.0
  {
    FilterMapMember(Lines(output), MemoryLine, g);
  }

  /** The line `"<used>,<total>"` a GPU with these readings prints. */
  function MemoryListing(used: nat, total: nat): string {
    NatToString(used) + "," + NatToString(total)
  }

  /** A printed memory line parses back to its two readings and their percentage. */
  lemma MemoryLineRoundTrip(used: nat, total: nat)
    ensures MemoryLine(MemoryListing(used, total)) == Some(GpuMemory(used, total, UsedPercent(used, total)))
  {
    var a, b := NatToString(used), NatToString(total);
    var s := MemoryListing(used, total);
    assert Trimmed(s) by {
      assert s[0] == a[0] && s[|s| - 1] == b[|b| - 1];
      DigitNotSpace(a[0]);
      DigitNotSpace(b[|b| - 1]);
    }
    StripTrimmed(s);
    NoComma(a);
    NoComma(b);
    assert Join([a, b], ',') == s;
    SplitJoin([a, b], ',');
    UsageOfNat(used);
    UsageOfNat(total);
  }

  /** A single printed memory line is reported as one GPU. */
  lemma GpuMemoryRoundTrip(used: nat, total: nat)
    ensures GpuMemoryOf(MemoryListing(used, total)) == Some([GpuMemory(used, total, UsedPercent(used, total))])
  {
    var a, b := NatToString(used), NatToString(total);
    var s := MemoryListing(used, total);
    assert Trimmed(s) by {
      assert s[0] == a[0] && s[|s| - 1] == b[|b| - 1];
      DigitNotSpace(a[0]);
      DigitNotSpace(b[|b| - 1]);
    }
    StripTrimmed(s);
    assert forall i :: 0 <= i < |s| ==> s[i] == ',' || IsDigit(s[i]) by {
      forall i | 0 <= i < |s| ensures s[i] == ',' || IsDigit(s[i]) {
        if i < |a| { assert s[i] == a[i]; } else if i > |a| { assert s[i] == b[i - |a| - 1]; }
      }
    }
    assert '\n' !in s;
    SplitFree(s, '\n');
    NoLetterNSupported(s);
    MemoryLineRoundTrip(used, total);
    assert FilterMap([s], MemoryLine) == [GpuMemory(used, total, UsedPercent(used, total))] by {
      assert [s][..0] == [];
    }
  }

  lemma NoComma(ds: string)
    requires AllDigits(ds)
    ensures ',' !in ds
  {
    forall i | 0 <= i < |ds| ensures ds[i] != ',' {
      assert IsDigit(ds[i]);
    }
  }

  /** `1000` of `4000` MB in use is 25.0 percent. */
  lemma UsedPercentExample()
    ensures UsedPercent(1000, 4000) == 25.0
  {
    assert 1000 as real / 4000 as real * 100.0 == 250 as real / 10.0;
    RoundTenthExact(250);
  }

  // ---------------------------------------------------------------------------------------
  // GPU processes

  /** A process line: blank lines are skipped; otherwise at least three comma-separated fields. */
  function ProcessLine(line: string): Option<GpuProcess> {
    if Strip(line) == [] then None
    else
      var parts := Split(line, ',');
      if |parts| >= 3 then Some(GpuProcess(Strip(parts[0]), Strip(parts[1]), Strip(parts[2]))) else None
  }

  /** What `parse_gpu_processes` returns. */
  function GpuProcessesOf(output: string): (r: Option<seq<GpuProcess>>)
    ensures r != Some([])
    ensures output == [] || Unsupported(output) ==> r == None
    ensures r.Some? ==> |r.value| <= |Lines(output)|
  {
    if output == [] || Unsupported(output) then None else NonEmpty(FilterMap(Lines(output), ProcessLine))
  }

  /** `parse_gpu_processes`. */
  method ParseGpuProcesses(output: string) returns (r: Option<seq<GpuProcess>>)
    ensures r == GpuProcessesOf(output)
  {
    if output == [] || Unsupported(output) {
      return None;
    }
    var lines := Lines(output);
    var processes := CollectProcesses(lines);
    r := if processes == [] then None else Some(processes);
  }

  /** The loop of `parse_gpu_processes` over the lines. */
  method CollectProcesses(lines: seq<string>) returns (processes: seq<GpuProcess>)
    ensures processes == FilterMap(lines, ProcessLine)
  {
    processes := [];
    for i := 0 to |lines|
      invariant processes == FilterMap(lines[..i], ProcessLine)
    {
      FilterMapStep(lines, i, ProcessLine);
      var p := ProcessLine(lines[i]);
      if p.None? {
        continue;
      }
      processes := processes + [p.value];
    }
    assert lines[..|lines|] == lines;
  }

  /**
   * A line of three or more comma-separated fields gives its first three, stripped; the rest
   * are ignored.
   */
  lemma ProcessLineFields(ps: seq<string>)
    requires |ps| >= 3 && forall i :: 0 <= i < |ps| ==> ',' !in ps[i]
    ensures ProcessLine(Join(ps, ',')) == Some(GpuProcess(Strip(ps[0]), Strip(ps[1]), Strip(ps[2])))
  {
    var line := Join(ps, ',');
    SplitJoin(ps, ',');
    JoinComma(ps);
    NonBlank(line, |ps[0]|);
    ProcessLineOf(line, ps);
  }

  lemma JoinComma(ps: seq<string>)
    requires |ps| >= 2
    ensures |ps[0]| < |Join(ps, ',')| && Join(ps, ',')[|ps[0]|] == ','
  {
    assert Join(ps, ',') == ps[0] + [','] + Join(ps[1..], ',');
  }

  lemma ProcessLineOf(line: string, ps: seq<string>)
    requires |ps| >= 3 && Split(line, ',') == ps && Strip(line) != []
    ensures ProcessLine(line) == Some(GpuProcess(Strip(ps[0]), Strip(ps[1]), Strip(ps[2])))
  {
  }

  /** A line with a non-blank character does not strip to nothing. */
  lemma NonBlank(s: string, k: nat)
    requires k < |s| && !IsSpace(s[k])
    ensures Strip(s) != []
  {
    var l := TrimLeft(s);
    assert |l| >= |s| - k;
    assert l[k - (|s| - |l|)] == s[k];
  }

  /** A non-blank line with fewer than three fields gives no process. */
  lemma ProcessLineShort(line: string)
    requires |Split(line, ',')| < 3
    ensures ProcessLine(line) == None
  {
  }
}
