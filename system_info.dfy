/**
 * The system page of the Go backend (go-backend/system.go): uptime
 * formatting, the /proc/meminfo table behind the memory and swap figures,
 * the byte-size unit choice of formatBytes, and the power-action table.
 *
 * File contents are parameters; usage percentages are exact reals (the
 * float64 rounding is not modelled). A float64 division by zero, which Go
 * turns into NaN or an infinity that encoding/json then refuses, is the
 * value None.
 */
module SystemInfo {
  import opened Text

  // ------------------------------------------------------------------ uptime

  /** int64(strconv.ParseFloat(s)) for plain decimal text: the integer part, truncated toward zero; 0 when s is not a number. */
  function TruncatedSeconds(s: string): int {
    var k := IndexOf(s, '.');
    if k < 0 then ParseOrZero(s)
    else if forall i :: k < i < |s| ==> IsDigit(s[i]) then ParseOrZero(s[..k])
    else 0
  }

  /** The days, hours and minutes shown for an uptime, with Go's truncating division. */
  datatype Breakdown = Breakdown(days: int, hours: int, minutes: int)

  function BreakdownOf(secs: int): (b: Breakdown)
    ensures secs >= 0 ==> 0 <= b.hours < 24 && 0 <= b.minutes < 60 && b.days >= 0
    ensures secs >= 0 ==> secs == b.days * 86400 + b.hours * 3600 + b.minutes * 60 + secs % 60
    ensures secs < 0 ==> b.days <= 0 && b.hours <= 0 && b.minutes <= 0
  {
    var b := Breakdown(GoDiv(secs, 86400), GoDiv(GoMod(secs, 86400), 3600), GoDiv(GoMod(secs, 3600), 60));
    if secs >= 0 then
      assert secs % 86400 == b.hours * 3600 + secs % 3600;
      assert secs % 3600 == b.minutes * 60 + secs % 60;
      b
    else b
  }

  /** One shown part: the number followed by its unit letter. */
  function Part(n: int, unit: char): string {
    IntToString(n) + [unit]
  }

  /** The non-zero parts in d, h, m order. */
  function UptimeParts(secs: int): seq<string> {
    var b := BreakdownOf(secs);
    (if b.days > 0 then [Part(b.days, 'd')] else [])
    + (if b.hours > 0 then [Part(b.hours, 'h')] else [])
    + (if b.minutes > 0 then [Part(b.minutes, 'm')] else [])
  }

  /** getUptime's text: the parts joined by single spaces, or "0m" when there are none. */
  function UptimeText(secs: int): (text: string)
    ensures UptimeParts(secs) == [] ==> text == "0m"
    ensures UptimeParts(secs) != [] ==> HasPrefix(text, UptimeParts(secs)[0])
    ensures UptimeParts(secs) != [] ==> Split(text, ' ') == UptimeParts(secs)
  {
    var parts := UptimeParts(secs);
    if parts == [] then "0m"
    else
      assert secs >= 0;
      PartsSum(secs);
      SplitJoin(parts, ' ');
      Join(parts, " ")
  }

  datatype Uptime = Uptime(seconds: int, formatted: string)

  /** getUptime on the content of /proc/uptime: no fields gives 0 seconds and "0m". */
  function UptimeOf(content: string): (u: Uptime)
    ensures Fields(content) == [] ==> u == Uptime(0, "0m")
  {
    var f := Fields(content);
    if f == [] then Uptime(0, "0m")
    else
      var secs := TruncatedSeconds(f[0]);
      Uptime(secs, UptimeText(secs))
  }

  /** The number of seconds one shown part stands for. */
  function PartSeconds(p: string): int {
    if |p| >= 2 && IsDecimal(p[..|p| - 1]) then
      var n := DigitsValue(p[..|p| - 1]);
      match p[|p| - 1]
      case 'd' => n * 86400
      case 'h' => n * 3600
      case 'm' => n * 60
      case _ => 0
    else 0
  }

  /** Reads an uptime text back: the sum of its space-separated parts. */
  function ReadUptime(parts: seq<string>): int
    decreases |parts|
  {
    if parts == [] then 0 else PartSeconds(parts[0]) + ReadUptime(parts[1..])
  }

  lemma {:induction false} ReadUptimeAppend(a: seq<string>, b: seq<string>)
    ensures ReadUptime(a + b) == ReadUptime(a) + ReadUptime(b)
    decreases |a|
  {
    if a != [] {
      assert (a + b)[1..] == a[1..] + b;
      ReadUptimeAppend(a[1..], b);
    } else {
      assert a + b == b;
    }
  }

  lemma PartReadBack(n: int, unit: char)
    requires n >= 0 && (unit == 'd' || unit == 'h' || unit == 'm')
    ensures PartSeconds(Part(n, unit)) == n * (if unit == 'd' then 86400 else if unit == 'h' then 3600 else 60)
    ensures ' ' !in Part(n, unit)
  {
    var p := Part(n, unit);
    assert p[..|p| - 1] == NatToString(n);
    DigitsValueOfNatToString(n);
    assert p[|p| - 1] == unit;
    assert forall i :: 0 <= i < |p| - 1 ==> IsDigit(p[i]);
  }

  /**
   * The text is faithful: reading its parts back gives the uptime rounded
   * down to whole minutes, so no part is lost or misplaced and the seconds
   * are the only thing dropped.
   */
  lemma UptimeReadBack(secs: int)
    requires secs >= 0
    ensures ReadUptime(Split(UptimeText(secs), ' ')) == secs - secs % 60
  {
    var parts := UptimeParts(secs);
    PartsSum(secs);
    if parts == [] {
      PartReadBack(0, 'm');
      assert Part(0, 'm') == "0m";
      SplitNoSeparator("0m", ' ');
      assert ReadUptime(["0m"]) == PartSeconds("0m");
    } else {
      SplitJoin(parts, ' ');
    }
  }

  /** The parts add up to the whole minutes, and none contains a space. */
  lemma PartsSum(secs: int)
    requires secs >= 0
    ensures ReadUptime(UptimeParts(secs)) == secs - secs % 60
    ensures forall i :: 0 <= i < |UptimeParts(secs)| ==> ' ' !in UptimeParts(secs)[i]
  {
    var b := BreakdownOf(secs);
    var ds := if b.days > 0 then [Part(b.days, 'd')] else [];
    var hs := if b.hours > 0 then [Part(b.hours, 'h')] else [];
    var ms := if b.minutes > 0 then [Part(b.minutes, 'm')] else [];
    assert UptimeParts(secs) == ds + hs + ms;
    if b.days > 0 { PartReadBack(b.days, 'd'); }
    if b.hours > 0 { PartReadBack(b.hours, 'h'); }
    if b.minutes > 0 { PartReadBack(b.minutes, 'm'); }
    ReadUptimeAppend(ds, hs);
    ReadUptimeAppend(ds + hs, ms);
    assert ReadUptime(ds) == b.days * 86400;
    assert ReadUptime(hs) == b.hours * 3600;
    assert ReadUptime(ms) == b.minutes * 60;
  }

  /** A negative reading shows no part at all. */
  lemma NegativeUptime(secs: int)
    requires secs < 0
    ensures UptimeText(secs) == "0m"
  {
  }

  // ------------------------------------------------------------------ /proc/meminfo

  datatype MemEntry = MemEntry(key: string, value: int)

  /** A line with two fields gives the first without a trailing ':' and the second, in KiB, as bytes. */
  function LineEntry(line: string): Option<MemEntry> {
    var f := Fields(line);
    if |f| >= 2 then Some(MemEntry(TrimSuffix(f[0], ":"), ParseOrZero(f[1]) * 1024)) else None
  }

  /** The table after the given lines, first to last; a later line overwrites an earlier one. */
  function MeminfoOf(lines: seq<string>): map<string, int>
    decreases |lines|
  {
    if lines == [] then map[]
    else
      var m := MeminfoOf(lines[..|lines| - 1]);
      match LineEntry(lines[|lines| - 1])
      case None => m
      case Some(e) => m[e.key := e.value]
  }

  /** The loop over the lines of /proc/meminfo filling the table. */
  method ReadMeminfo(content: string) returns (info: map<string, int>)
    ensures info == MeminfoOf(Split(content, '\n'))
  {
    var lines := Split(content, '\n');
    info := map[];
    for i := 0 to |lines|
      invariant info == MeminfoOf(lines[..i])
    {
      assert lines[..i + 1][..i] == lines[..i];
      var parts := Fields(lines[i]);
      if |parts| >= 2 {
        var key := TrimSuffix(parts[0], ":");
        info := info[key := ParseOrZero(parts[1]) * 1024];
      }
    }
    assert lines[..|lines|] == lines;
  }

  /** The value for a key comes from the last line that gives that key. */
  lemma {:induction false} MeminfoLastWins(lines: seq<string>, i: nat)
    requires i < |lines| && LineEntry(lines[i]).Some?
    requires forall j :: i < j < |lines| ==> LineEntry(lines[j]).None? || LineEntry(lines[j]).value.key != LineEntry(lines[i]).value.key
    ensures var e := LineEntry(lines[i]).value;
      e.key in MeminfoOf(lines) && MeminfoOf(lines)[e.key] == e.value
    decreases |lines|
  {
    if i < |lines| - 1 {
      var pre := lines[..|lines| - 1];
      assert pre[i] == lines[i];
      assert forall j :: i < j < |pre| ==> pre[j] == lines[j];
      MeminfoLastWins(pre, i);
    }
  }

  /** A key no line gives is absent, and so reads as 0. */
  lemma {:induction false} MeminfoAbsent(lines: seq<string>, key: string)
    requires forall j :: 0 <= j < |lines| ==> LineEntry(lines[j]).None? || LineEntry(lines[j]).value.key != key
    ensures key !in MeminfoOf(lines)
    decreases |lines|
  {
    if lines != [] {
      var pre := lines[..|lines| - 1];
      assert forall j :: 0 <= j < |pre| ==> pre[j] == lines[j];
      MeminfoAbsent(pre, key);
    }
  }

  /** `info[key]` on a Go map: 0 for a missing key. */
  function Read(info: map<string, int>, key: string): int {
    if key in info then info[key] else 0
  }

  /** A meminfo line as the kernel writes it: `Key:   value kB`. */
  function MeminfoLine(key: string, kb: nat): string {
    key + ":" + " " + NatToString(kb) + " " + "kB"
  }

  predicate IsWord(w: string) {
    w != [] && forall i :: 0 <= i < |w| ==> !IsGoSpace(w[i])
  }

  lemma MeminfoLineEntry(key: string, kb: nat)
    requires IsWord(key)
    ensures LineEntry(MeminfoLine(key, kb)) == Some(MemEntry(key, kb * 1024))
  {
    var n := NatToString(kb);
    assert forall i :: 0 <= i < |n| ==> !IsGoSpace(n[i]) by {
      forall i | 0 <= i < |n| ensures !IsGoSpace(n[i]) {
        assert IsDigit(n[i]);
      }
    }
    FieldsSingle("kB");
    FieldsCons(n, "kB");
    assert MeminfoLine(key, kb) == (key + ":") + " " + (n + " " + "kB");
    FieldsCons(key + ":", n + " " + "kB");
    assert HasSuffix(key + ":", ":");
    assert TrimSuffix(key + ":", ":") == key;
    assert IsDecimal(n);
    DigitsValueOfNatToString(kb);
  }

  /**
   * Parsing what the kernel writes: for a table of distinct keys rendered
   * as meminfo lines, each key reads back as its value times 1024.
   */
  lemma MeminfoReadsTable(keys: seq<string>, kbs: seq<nat>, i: nat)
    requires |keys| == |kbs| && i < |keys|
    requires forall j :: 0 <= j < |keys| ==> IsWord(keys[j])
    requires forall j, k :: 0 <= j < k < |keys| ==> keys[j] != keys[k]
    ensures var lines := seq(|keys|, j requires 0 <= j < |keys| => MeminfoLine(keys[j], kbs[j]));
      Read(MeminfoOf(lines), keys[i]) == kbs[i] * 1024
  {
    var lines := seq(|keys|, j requires 0 <= j < |keys| => MeminfoLine(keys[j], kbs[j]));
    forall j | 0 <= j < |keys|
      ensures LineEntry(lines[j]) == Some(MemEntry(keys[j], kbs[j] * 1024))
    {
      MeminfoLineEntry(keys[j], kbs[j]);
    }
    MeminfoLastWins(lines, i);
  }

  datatype Memory = Memory(total: int, free: int, available: int, used: int, usage: Option<real>)

  /**
   * getMemoryInfo as written: used = total - free - buffers - cached, and
   * the usage divides by total unguarded (None: not a finite number).
   */
  function MemoryAsWritten(info: map<string, int>): (m: Memory)
    ensures m.usage.None? <==> Read(info, "MemTotal") == 0
  {
    var total := Read(info, "MemTotal");
    var used := total - Read(info, "MemFree") - Read(info, "Buffers") - Read(info, "Cached");
    Memory(total, Read(info, "MemFree"), Read(info, "MemAvailable"), used,
           if total == 0 then None else Some((used as real) / (total as real) * 100.0))
  }

  /**
   * getMemoryInfo with the guard the swap figures use: the usage is 0
   * unless the total is positive.
   */
  function MemoryOf(info: map<string, int>): (m: Memory)
    ensures m.usage.Some?
    ensures m.used + m.free + Read(info, "Buffers") + Read(info, "Cached") == m.total
    ensures m.total <= 0 ==> m.usage == Some(0.0)
    ensures m.total > 0 ==> m.usage == MemoryAsWritten(info).usage
  {
    var total := Read(info, "MemTotal");
    var used := total - Read(info, "MemFree") - Read(info, "Buffers") - Read(info, "Cached");
    Memory(total, Read(info, "MemFree"), Read(info, "MemAvailable"), used,
           Some(if total > 0 then (used as real) / (total as real) * 100.0 else 0.0))
  }

  /**
   * Without a MemTotal line (an unreadable /proc/meminfo reads as empty),
   * the code as written produces a usage that is not a number, which the
   * JSON encoder of the stats reply refuses; the guarded version reports 0.
   */
  lemma MissingMemTotal(content: string)
    requires forall j :: 0 <= j < |Split(content, '\n')| ==>
      LineEntry(Split(content, '\n')[j]).None? || LineEntry(Split(content, '\n')[j]).value.key != "MemTotal"
    ensures MemoryAsWritten(MeminfoOf(Split(content, '\n'))).usage.None?
    ensures MemoryOf(MeminfoOf(Split(content, '\n'))).usage == Some(0.0)
  {
    MeminfoAbsent(Split(content, '\n'), "MemTotal");
  }

  datatype Swap = Swap(total: int, free: int, used: int, usage: real)

  /** getSwapInfo: used = total - free, and usage 0 unless the total is positive. */
  function SwapOf(info: map<string, int>): (s: Swap)
    ensures s.used + s.free == s.total
    ensures s.total <= 0 ==> s.usage == 0.0
    ensures 0 <= s.free <= s.total ==> 0.0 <= s.usage <= 100.0
  {
    var total := Read(info, "SwapTotal");
    var used := total - Read(info, "SwapFree");
    var usage := if total > 0 then (used as real) / (total as real) * 100.0 else 0.0;
    if 0 <= Read(info, "SwapFree") <= total && total > 0 then
      Fraction(used as real, total as real);
      Swap(total, Read(info, "SwapFree"), used, usage)
    else Swap(total, Read(info, "SwapFree"), used, usage)
  }

  /** A part of a positive whole is between none and all of it. */
  lemma Fraction(part: real, whole: real)
    requires 0.0 <= part <= whole && whole > 0.0
    ensures 0.0 <= part / whole <= 1.0
  {
    var r := part / whole;
    assert r * whole == part;
  }

  // ------------------------------------------------------------------ formatBytes

  const Units: seq<string> := ["B", "KB", "MB", "GB", "TB"]

  /** 1024 to the power k, for the five units. */
  function Scale(k: nat): real
    requires k <= 4
  {
    if k == 0 then 1.0 else if k == 1 then 1024.0 else if k == 2 then 1048576.0
    else if k == 3 then 1073741824.0 else 1099511627776.0
  }

  /** The unit formatBytes picks: the largest unit up to TB that keeps the value at 1 or more. */
  function UnitFor(bytes: int): (k: nat)
    ensures k <= 4
  {
    if bytes < 1024 then 0 else if bytes < 1048576 then 1 else if bytes < 1073741824 then 2
    else if bytes < 1099511627776 then 3 else 4
  }

  /**
   * formatBytes' loop: divide by 1024 while the value is at least 1024 and
   * the unit is below TB. The result is the size in the unit UnitFor names.
   */
  method FormatBytes(bytes: int) returns (value: real, unit: string)
    ensures unit == Units[UnitFor(bytes)]
    ensures value * Scale(UnitFor(bytes)) == bytes as real
    ensures UnitFor(bytes) < 4 ==> value < 1024.0
    ensures UnitFor(bytes) > 0 ==> value >= 1.0
  {
    value := bytes as real;
    var k := 0;
    while value >= 1024.0 && k < |Units| - 1
      invariant 0 <= k <= 4
      invariant value * Scale(k) == bytes as real
      invariant k > 0 ==> bytes as real >= Scale(k)
      decreases 4 - k
    {
      value := value / 1024.0;
      k := k + 1;
    }
    assert k < 4 ==> bytes as real < Scale(k) * 1024.0;
    unit := Units[k];
  }

  // ------------------------------------------------------------------ power actions

  /** The reply of SystemControlHandler and the command it runs ([] when nothing runs). */
  datatype ControlReply = ControlReply(code: int, error: string, argv: seq<string>, message: string)

  /** The command each accepted action runs. */
  function ActionCommand(action: string): seq<string> {
    match action
    case "reboot" => ["sudo", "reboot"]
    case "shutdown" => ["sudo", "shutdown", "-h", "now"]
    case "suspend" => ["sudo", "systemctl", "suspend"]
    case "sleep" => ["sudo", "systemctl", "suspend"]
    case "hibernate" => ["sudo", "systemctl", "hibernate"]
    case _ => []
  }

  /**
   * SystemControlHandler: a body that is not JSON gets 400 "Invalid
   * request"; a known action runs its command and reports "System <action>
   * initiated"; anything else gets 400 "Invalid action" and runs nothing.
   */
  function SystemControl(action: Option<string>): (r: ControlReply)
    ensures action.None? ==> r == ControlReply(400, "Invalid request", [], "")
    ensures r.code == 200 <==> r.argv != []
    ensures r.code == 200 ==> r.argv[0] == "sudo" && r.message == "System " + action.value + " initiated"
    ensures action.Some? && r.code != 200 ==> r.error == "Invalid action"
  {
    if action.None? then ControlReply(400, "Invalid request", [], "")
    else
      var argv := ActionCommand(action.value);
      if argv == [] then ControlReply(400, "Invalid action", [], "")
      else ControlReply(200, "", argv, "System " + action.value + " initiated")
  }

  /** Exactly the five action names are accepted; suspend and sleep are the same command. */
  lemma ActionsAccepted(action: string)
    ensures SystemControl(Some(action)).code == 200 <==>
      action in {"reboot", "shutdown", "suspend", "sleep", "hibernate"}
    ensures ActionCommand("sleep") == ActionCommand("suspend")
  {
  }
}
