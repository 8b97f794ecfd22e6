/**
 * The PHP system-statistics endpoint (public/api/system-stats.php): the
 * login gate, the uptime text, the memory and swap figures read from
 * /proc/meminfo, and the network-interface list with its speed and type
 * normalisation.
 *
 * Command output and file contents are parameters (None when the read or
 * the command fails); percentages are exact reals and the rounding and
 * byte formatting of the reply are not modelled.
 */
module SystemStats {
  import opened Text
  import SystemInfo

  // ------------------------------------------------------------------ PHP conversions

  /** White space PHP skips before a numeric string. */
  predicate IsNumericSpace(c: char) {
    c == ' ' || c == '\t' || c == '\n' || c == '\r' || c == '\U{000B}' || c == '\U{000C}'
  }

  /** The maximal run of decimal digits at the start of s. */
  function LeadingDigits(s: string): (r: string)
    ensures r <= s && forall i :: 0 <= i < |r| ==> IsDigit(r[i])
    ensures |r| < |s| ==> !IsDigit(s[|r|])
    decreases |s|
  {
    if s != [] && IsDigit(s[0]) then [s[0]] + LeadingDigits(s[1..]) else []
  }

  function SkipNumericSpace(s: string): (r: string)
    ensures |r| <= |s|
    decreases |s|
  {
    if s != [] && IsNumericSpace(s[0]) then SkipNumericSpace(s[1..]) else s
  }

  /**
   * PHP's (int) cast of a string: leading white space, an optional sign and
   * the leading digits; text without leading digits gives 0.
   */
  function IntCast(s: string): int {
    var t := SkipNumericSpace(s);
    if t != [] && (t[0] == '-' || t[0] == '+') then
      var d: int := DigitsValue(LeadingDigits(t[1..]));
      if t[0] == '-' then -d else d
    else DigitsValue(LeadingDigits(t))
  }

  /** PHP's (int) on a file read that may have failed: false casts to 0. */
  function IntCastRead(content: Option<string>): int {
    if content.Some? then IntCast(content.value) else 0
  }

  /** trim() of a read that may have failed: false and null trim to "". */
  function TrimRead(content: Option<string>): string {
    if content.Some? then PhpTrim(content.value) else ""
  }

  /** `$s ?: 'N/A'`: the text unless PHP finds it falsy ("" or "0"). */
  function OrNa(s: string): (r: string)
    ensures r == s || r == "N/A"
    ensures r == s <==> s != "" && s != "0"
  {
    if Truthy(Str(s)) then s else "N/A"
  }

  // ------------------------------------------------------------------ uptime

  /** The d/h/m parts with floor division and PHP's truncating %. */
  function UptimeParts(secs: int): seq<string> {
    var days := secs / 86400;
    var hours := GoMod(secs, 86400) / 3600;
    var minutes := GoMod(secs, 3600) / 60;
    (if days > 0 then [IntToString(days) + "d"] else [])
    + (if hours > 0 then [IntToString(hours) + "h"] else [])
    + (if minutes > 0 then [IntToString(minutes) + "m"] else [])
  }

  /** getUptime's text: `implode(' ', $parts) ?: '0m'`. */
  function UptimeText(secs: int): string {
    var joined := Join(UptimeParts(secs), " ");
    if Truthy(Str(joined)) then joined else "0m"
  }

  /** getUptime: the integer part of the first field of /proc/uptime, and its text. */
  function UptimeOf(firstField: Option<string>): SystemInfo.Uptime {
    var secs := IntCast(TrimRead(firstField));
    SystemInfo.Uptime(secs, UptimeText(secs))
  }

  /**
   * The PHP page and the Go backend show the same uptime text for every
   * number of seconds, negative ones included (both show "0m" then).
   */
  lemma UptimeAgrees(secs: int)
    ensures UptimeText(secs) == SystemInfo.UptimeText(secs)
  {
    var b := SystemInfo.BreakdownOf(secs);
    var parts := UptimeParts(secs);
    if secs >= 0 {
      assert parts == SystemInfo.UptimeParts(secs);
      if parts != [] {
        assert parts[0][|parts[0]| - 1] in "dhm";
        assert Join(parts, " ") != "" && Join(parts, " ") != "0" by {
          JoinNotFalsy(parts);
        }
      }
    } else {
      assert GoMod(secs, 86400) <= 0 && GoMod(secs, 3600) <= 0;
      assert parts == [];
      assert SystemInfo.UptimeParts(secs) == [];
    }
  }

  /** A join of parts that each end in a unit letter is neither "" nor "0". */
  lemma JoinNotFalsy(parts: seq<string>)
    requires parts != [] && parts[0] != [] && parts[0][|parts[0]| - 1] in "dhm"
    ensures Join(parts, " ") != "" && Join(parts, " ") != "0"
  {
    if |parts| > 1 {
      assert Join(parts, " ") == parts[0] + " " + Join(parts[1..], " ");
      assert |Join(parts, " ")| >= 2;
    }
  }

  // ------------------------------------------------------------------ /proc/meminfo

  /** The characters of the regex class \w. */
  predicate IsWordChar(c: char) { IsAsciiLetter(c) || IsDigit(c) || c == '_' }

  predicate IsRegexSpace(c: char) {
    c == ' ' || c == '\t' || c == '\n' || c == '\r' || c == '\U{000B}' || c == '\U{000C}'
  }

  function LeadingWord(s: string): (r: string)
    ensures r <= s && forall i :: 0 <= i < |r| ==> IsWordChar(r[i])
    ensures |r| < |s| ==> !IsWordChar(s[|r|])
    decreases |s|
  {
    if s != [] && IsWordChar(s[0]) then [s[0]] + LeadingWord(s[1..]) else []
  }

  function LeadingSpace(s: string): (r: string)
    ensures r <= s
    decreases |s|
  {
    if s != [] && IsRegexSpace(s[0]) then [s[0]] + LeadingSpace(s[1..]) else []
  }

  /**
   * One line matched against `^(\w+):\s+(\d+)`: the word before the colon
   * and the number after the blanks (in KiB, as the file gives it).
   */
  function MatchLine(line: string): Option<SystemInfo.MemEntry> {
    var w := LeadingWord(line);
    var rest := line[|w|..];
    if w == [] || rest == [] || rest[0] != ':' then None
    else
      var sp := LeadingSpace(rest[1..]);
      var digits := LeadingDigits(rest[1..][|sp|..]);
      if sp == [] || digits == [] then None
      else Some(SystemInfo.MemEntry(w, DigitsValue(digits)))
  }

  /** `array_combine` of all matches, first line to last: a later match overwrites an earlier one. */
  function MemArray(lines: seq<string>): map<string, int>
    decreases |lines|
  {
    if lines == [] then map[]
    else
      var m := MemArray(lines[..|lines| - 1]);
      match MatchLine(lines[|lines| - 1])
      case None => m
      case Some(e) => m[e.key := e.value]
  }

  /** `($memArray[key] ?? 0) * 1024` */
  function Bytes(mem: map<string, int>, key: string): int {
    SystemInfo.Read(mem, key) * 1024
  }

  /** getMemoryInfo: used = total - free - buffers - cached; usage 0 unless the total is positive. */
  function MemoryOf(mem: map<string, int>): (m: SystemInfo.Memory)
    ensures m.used + m.free + Bytes(mem, "Buffers") + Bytes(mem, "Cached") == m.total
    ensures m.total <= 0 ==> m.usage == Some(0.0)
    ensures m.total > 0 ==> m.usage == Some((m.used as real) / (m.total as real) * 100.0)
  {
    var total := Bytes(mem, "MemTotal");
    var used := total - Bytes(mem, "MemFree") - Bytes(mem, "Buffers") - Bytes(mem, "Cached");
    SystemInfo.Memory(total, Bytes(mem, "MemFree"), Bytes(mem, "MemAvailable"), used,
                      Some(if total > 0 then (used as real) / (total as real) * 100.0 else 0.0))
  }

  /** getSwapInfo: used = total - free; usage 0 unless the total is positive. */
  function SwapOf(mem: map<string, int>): (s: SystemInfo.Swap)
    ensures s.used + s.free == s.total
    ensures s.total <= 0 ==> s.usage == 0.0
  {
    var total := Bytes(mem, "SwapTotal");
    var used := total - Bytes(mem, "SwapFree");
    SystemInfo.Swap(total, Bytes(mem, "SwapFree"), used, if total > 0 then (used as real) / (total as real) * 100.0 else 0.0)
  }

  /**
   * On a line the kernel writes (`Key:   value kB`, the key made of word
   * characters) the PHP pattern reads the same key and value as the Go
   * parser, which scales the value to bytes itself.
   */
  lemma MatchKernelLine(key: string, kb: nat)
    requires key != [] && forall i :: 0 <= i < |key| ==> IsWordChar(key[i])
    ensures MatchLine(SystemInfo.MeminfoLine(key, kb)) == Some(SystemInfo.MemEntry(key, kb))
    ensures SystemInfo.LineEntry(SystemInfo.MeminfoLine(key, kb)) == Some(SystemInfo.MemEntry(key, kb * 1024))
  {
    MatchKernelLinePhp(key, kb);
    WordIsField(key);
    SystemInfo.MeminfoLineEntry(key, kb);
  }

  /** A `\w+` word holds no blank, so it is a field of its own for strings.Fields. */
  lemma WordIsField(key: string)
    requires key != [] && forall i :: 0 <= i < |key| ==> IsWordChar(key[i])
    ensures SystemInfo.IsWord(key)
  {
    forall i | 0 <= i < |key| ensures !IsGoSpace(key[i]) {
      assert IsWordChar(key[i]);
    }
  }

  lemma MatchKernelLinePhp(key: string, kb: nat)
    requires key != [] && forall i :: 0 <= i < |key| ==> IsWordChar(key[i])
    ensures MatchLine(SystemInfo.MeminfoLine(key, kb)) == Some(SystemInfo.MemEntry(key, kb))
  {
    var n := NatToString(kb);
    assert SystemInfo.MeminfoLine(key, kb) == key + (":" + (" " + (n + " kB")));
    MatchLineParts(key, n, " kB");
    DigitsValueOfNatToString(kb);
  }

  /** A word, a colon, one blank and digits followed by a non-digit match with that word and number. */
  lemma MatchLineParts(w: string, d: string, tail: string)
    requires w != [] && forall i :: 0 <= i < |w| ==> IsWordChar(w[i])
    requires d != [] && forall i :: 0 <= i < |d| ==> IsDigit(d[i])
    requires tail != [] && !IsDigit(tail[0])
    ensures MatchLine(w + (":" + (" " + (d + tail)))) == Some(SystemInfo.MemEntry(w, DigitsValue(d)))
  {
    var after := " " + (d + tail);
    var line := w + (":" + after);
    KeepWord(w, ":" + after);
    var rest := line[|w|..];
    assert rest == ":" + after;
    assert rest[1..] == after;
    BlankThenDigits(d, tail);
  }

  /** After the colon: one blank, then the digits up to the first non-digit. */
  lemma BlankThenDigits(d: string, tail: string)
    requires d != [] && forall i :: 0 <= i < |d| ==> IsDigit(d[i])
    requires tail != [] && !IsDigit(tail[0])
    ensures var after := " " + (d + tail);
      LeadingSpace(after) == " " && LeadingDigits(after[1..]) == d
  {
    var after := " " + (d + tail);
    assert after[1..] == d + tail;
    assert !IsRegexSpace(after[1]) by { assert IsDigit(d[0]); }
    KeepDigits(d, tail);
  }

  lemma {:induction false} KeepWord(w: string, rest: string)
    requires forall i :: 0 <= i < |w| ==> IsWordChar(w[i])
    requires rest != [] && !IsWordChar(rest[0])
    ensures LeadingWord(w + rest) == w
    decreases |w|
  {
    if w != [] {
      assert (w + rest)[1..] == w[1..] + rest;
      KeepWord(w[1..], rest);
    }
  }

  lemma {:induction false} KeepDigits(d: string, rest: string)
    requires forall i :: 0 <= i < |d| ==> IsDigit(d[i])
    requires rest != [] && !IsDigit(rest[0])
    ensures LeadingDigits(d + rest) == d
    decreases |d|
  {
    if d != [] {
      assert (d + rest)[1..] == d[1..] + rest;
      KeepDigits(d[1..], rest);
    }
  }

  // ------------------------------------------------------------------ network interfaces

  /** What the page reads for one interface (None: the read or command failed). */
  datatype NetFiles = NetFiles(
    operstate: Option<string>, address: Option<string>, ipOutput: Option<string>,
    rxBytes: Option<string>, txBytes: Option<string>, speed: Option<string>)

  const Unreadable: NetFiles := NetFiles(None, None, None, None, None, None)

  datatype IfType = Ethernet | Wireless | Virtual | Unknown

  datatype Interface = Interface(
    name: string, isUp: bool, ifType: IfType, ip: string, mac: string,
    speed: string, rxBytes: int, txBytes: int)

  /** The speed file: empty, -1 and the 32-bit all-ones value mean unknown; anything else is in Mbps. */
  function SpeedText(speed: string): (r: string)
    ensures r == "N/A" <==> speed == "" || speed == "-1" || speed == "4294967295"
    ensures r != "N/A" ==> r == speed + " Mbps"
  {
    if speed == "" || speed == "-1" || speed == "4294967295" then "N/A" else speed + " Mbps"
  }

  /** The connection type as written: substring tests in the order eth/en, wlan/wl, docker/veth/br. */
  function InterfaceTypeAsWritten(name: string): (t: IfType)
    ensures t == Ethernet <==> Contains(name, "eth") || Contains(name, "en")
    ensures Contains(name, "veth") ==> t == Ethernet
  {
    if Contains(name, "veth") then ContainsVethEth(name); Ethernet
    else if Contains(name, "eth") || Contains(name, "en") then Ethernet
    else if Contains(name, "wlan") || Contains(name, "wl") then Wireless
    else if Contains(name, "docker") || Contains(name, "veth") || Contains(name, "br") then Virtual
    else Unknown
  }

  lemma {:induction false} ContainsVethEth(s: string)
    requires Contains(s, "veth")
    ensures Contains(s, "eth")
    decreases |s|
  {
    if "veth" <= s {
      assert s[1..4] == "eth";
      ContainsAt(s, "eth", 1);
    } else {
      ContainsVethEth(s[1..]);
    }
  }

  /**
   * The veth test can never decide: every name containing "veth" contains
   * "eth" and is classified Ethernet, so container-side virtual Ethernet
   * pairs are never shown as Virtual.
   */
  lemma VethShownAsEthernet(name: string)
    requires Contains(name, "veth")
    ensures InterfaceTypeAsWritten(name) == Ethernet
  {
    ContainsVethEth(name);
  }

  /** The connection type with the veth test moved ahead of the Ethernet test. */
  function InterfaceType(name: string): (t: IfType)
    ensures Contains(name, "veth") ==> t == Virtual
    ensures !Contains(name, "veth") ==> t == InterfaceTypeAsWritten(name)
  {
    if Contains(name, "veth") then Virtual else InterfaceTypeAsWritten(name)
  }

  /**
   * The connection type an entry shows: the code's order of tests when
   * `vethFirst` is false, the corrected one when it is true.
   */
  function TypeOf(name: string, vethFirst: bool): (t: IfType)
    ensures !Contains(name, "veth") ==> t == InterfaceTypeAsWritten(name)
    ensures Contains(name, "veth") ==> (t == Virtual <==> vethFirst)
  {
    if vethFirst then InterfaceType(name)
    else
      assert Contains(name, "veth") ==> InterfaceTypeAsWritten(name) == Ethernet by {
        if Contains(name, "veth") { VethShownAsEthernet(name); }
      }
      InterfaceTypeAsWritten(name)
  }

  /** One interface's entry, or None when its name is empty (falsy) or `lo`. */
  function InterfaceOf(name: string, files: NetFiles, vethFirst: bool): (r: Option<Interface>)
    ensures r.None? <==> !Truthy(Str(name)) || name == "lo"
    ensures r.Some? ==> r.value.name == name && r.value.ifType == TypeOf(name, vethFirst)
  {
    if !Truthy(Str(name)) || name == "lo" then None
    else Some(Interface(
      name, TrimRead(files.operstate) == "up", TypeOf(name, vethFirst),
      OrNa(TrimRead(files.ipOutput)), OrNa(TrimRead(files.address)),
      SpeedText(TrimRead(files.speed)),
      IntCastRead(files.rxBytes), IntCastRead(files.txBytes)))
  }

  function FilesOf(files: map<string, NetFiles>, name: string): NetFiles {
    if name in files then files[name] else Unreadable
  }

  /** The interfaces of the listed names, in order. */
  function InterfacesOf(names: seq<string>, files: map<string, NetFiles>, vethFirst: bool): seq<Interface>
    decreases |names|
  {
    if names == [] then []
    else
      var last := names[|names| - 1];
      InterfacesOf(names[..|names| - 1], files, vethFirst) + Listed(last, files, vethFirst)
  }

  /** The entry of one name as a list of zero or one interfaces. */
  function Listed(name: string, files: map<string, NetFiles>, vethFirst: bool): seq<Interface> {
    match InterfaceOf(name, FilesOf(files, name), vethFirst)
    case Some(i) => [i]
    case None => []
  }

  /** getNetworkInfo: the loop over the trimmed `ls /sys/class/net/` lines. */
  method GetNetworkInfo(listing: Option<string>, files: map<string, NetFiles>, vethFirst: bool) returns (interfaces: seq<Interface>)
    ensures interfaces == InterfacesOf(Split(TrimRead(listing), '\n'), files, vethFirst)
  {
    var names := Split(TrimRead(listing), '\n');
    interfaces := [];
    for i := 0 to |names|
      invariant interfaces == InterfacesOf(names[..i], files, vethFirst)
    {
      InterfacesOfSnoc(names, files, vethFirst, i);
      interfaces := interfaces + Listed(names[i], files, vethFirst);
    }
    assert names[..|names|] == names;
  }

  lemma InterfacesOfSnoc(names: seq<string>, files: map<string, NetFiles>, vethFirst: bool, i: nat)
    requires i < |names|
    ensures InterfacesOf(names[..i + 1], files, vethFirst) == InterfacesOf(names[..i], files, vethFirst) + Listed(names[i], files, vethFirst)
  {
    assert names[..i + 1][..i] == names[..i];
  }

  /** A name yields at most one interface, carrying that name, and none for "", "0" or the loopback. */
  lemma ListedShape(name: string, files: map<string, NetFiles>, vethFirst: bool)
    ensures |Listed(name, files, vethFirst)| <= 1
    ensures forall x :: x in Listed(name, files, vethFirst) ==> x.name == name && name != "" && name != "lo"
  {
  }

  /** No listed interface is unnamed or the loopback, and each carries a listed name. */
  lemma {:induction false} InterfacesFiltered(names: seq<string>, files: map<string, NetFiles>, vethFirst: bool)
    ensures var ifs := InterfacesOf(names, files, vethFirst);
      |ifs| <= |names|
      && forall k :: 0 <= k < |ifs| ==> ifs[k].name != "" && ifs[k].name != "lo" && ifs[k].name in names
    decreases |names|
  {
    if names != [] {
      var pre, last := names[..|names| - 1], names[|names| - 1];
      InterfacesFiltered(pre, files, vethFirst);
      ListedShape(last, files, vethFirst);
      var ifs, prev, tail := InterfacesOf(names, files, vethFirst), InterfacesOf(pre, files, vethFirst), Listed(last, files, vethFirst);
      assert ifs == prev + tail;
      forall k | 0 <= k < |ifs|
        ensures ifs[k].name != "" && ifs[k].name != "lo" && ifs[k].name in names
      {
        if k < |prev| {
          assert ifs[k] == prev[k];
          assert prev[k].name in pre;
        } else {
          assert ifs[k] in tail;
        }
      }
    }
  }

  // ------------------------------------------------------------------ the endpoint

  datatype StatsReply =
    | Unauthorized
    | Stats(memory: SystemInfo.Memory, swap: SystemInfo.Swap, uptime: SystemInfo.Uptime, network: seq<Interface>)

  /** The endpoint: 401 without a login, otherwise the figures of the inputs. */
  function StatsOf(loggedIn: bool, meminfo: Option<string>, uptimeField: Option<string>,
                   listing: Option<string>, files: map<string, NetFiles>, vethFirst: bool): (r: StatsReply)
    ensures !loggedIn <==> r.Unauthorized?
  {
    if !loggedIn then Unauthorized
    else
      var mem := MemArray(Split(if meminfo.Some? then meminfo.value else "", '\n'));
      Stats(MemoryOf(mem), SwapOf(mem), UptimeOf(uptimeField),
            InterfacesOf(Split(TrimRead(listing), '\n'), files, vethFirst))
  }
}
