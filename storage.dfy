/**
 * The storage page (go-backend/storage.go): the physical-disk list read
 * from `lsblk` (or from /sys/block when lsblk fails), the disk-kind guess,
 * and the partition list read from /proc/mounts with its pseudo-filesystem
 * filter, duplicate suppression and octal-escape decoding.
 *
 * Command output and file contents are parameters: `lsblk` output is an
 * `Option<string>` (None when the command fails), /sys/block is a list of
 * entries with their file contents, the rotational flags are a map from
 * device name to file content, and statfs(2) is a map from the path the
 * call is given to the block counts it reports.
 */
module Storage {
  import opened Text

  // ------------------------------------------------------------------ mount path escapes

  predicate IsOctal(c: char) { '0' <= c <= '7' }

  /** A backslash followed by exactly three octal digits starts s. */
  predicate StartsWithEscape(s: string) {
    |s| >= 4 && s[0] == '\\' && IsOctal(s[1]) && IsOctal(s[2]) && IsOctal(s[3])
  }

  /** The character whose code the three octal digits after the backslash spell. */
  function EscapedChar(s: string): (c: char)
    requires StartsWithEscape(s)
    ensures c as int < 512
  {
    ((s[1] as int - '0' as int) * 64 + (s[2] as int - '0' as int) * 8 + (s[3] as int - '0' as int)) as char
  }

  /**
   * decodeMountPath: every backslash followed by three octal digits becomes
   * the character of that code, scanning left to right without overlap;
   * everything else is copied.
   */
  function DecodeMountPath(s: string): (r: string)
    ensures |r| <= |s|
    ensures '\\' !in s ==> r == s
    decreases |s|
  {
    if s == [] then []
    else if StartsWithEscape(s) then [EscapedChar(s)] + DecodeMountPath(s[4..])
    else
      assert '\\' !in s ==> '\\' !in s[1..];
      [s[0]] + DecodeMountPath(s[1..])
  }

  /** The characters the kernel writes as octal escapes in /proc/mounts. */
  predicate Mangled(c: char) { c == ' ' || c == '\t' || c == '\n' || c == '\\' }

  /** One character as the kernel writes it in /proc/mounts. */
  function EncodeChar(c: char): (r: string)
    ensures Mangled(c) ==> |r| == 4 && StartsWithEscape(r) && EscapedChar(r) == c
    ensures !Mangled(c) ==> r == [c]
  {
    if Mangled(c) then
      var n := c as int;
      ['\\', (48 + n / 64) as char, (48 + n / 8 % 8) as char, (48 + n % 8) as char]
    else [c]
  }

  /** A path as the kernel writes it in /proc/mounts. */
  function EncodeMountPath(s: string): (r: string)
    decreases |s|
  {
    if s == [] then [] else EncodeChar(s[0]) + EncodeMountPath(s[1..])
  }

  /** Decoding what the kernel wrote gives back the real path. */
  lemma {:induction false} DecodeEncode(s: string)
    ensures DecodeMountPath(EncodeMountPath(s)) == s
    decreases |s|
  {
    if s != [] {
      var e, rest := EncodeChar(s[0]), EncodeMountPath(s[1..]);
      var t := e + rest;
      assert EncodeMountPath(s) == t;
      DecodeEncode(s[1..]);
      if Mangled(s[0]) {
        assert t[..4] == e;
        assert StartsWithEscape(t) && EscapedChar(t) == s[0];
        assert t[4..] == rest;
      } else {
        assert t[0] == s[0] && !StartsWithEscape(t);
        assert t[1..] == rest;
      }
      assert s == [s[0]] + s[1..];
    }
  }

  /** A mount field as the kernel writes it: the encoding of what it decodes to. */
  predicate KernelEncoded(raw: string) {
    EncodeMountPath(DecodeMountPath(raw)) == raw
  }

  // ------------------------------------------------------------------ mount filter

  /** The pseudo filesystems that are never listed. */
  predicate PseudoFs(fsType: string) {
    fsType == "proc" || fsType == "sysfs" || fsType == "devtmpfs" || fsType == "devpts"
    || fsType == "cgroup" || fsType == "cgroup2" || fsType == "securityfs" || fsType == "debugfs"
    || fsType == "tracefs" || fsType == "fusectl" || fsType == "configfs" || fsType == "hugetlbfs"
    || fsType == "mqueue" || fsType == "bpf" || fsType == "pstore" || fsType == "efivarfs"
    || fsType == "autofs" || fsType == "rpc_pipefs" || fsType == "overlay" || fsType == "squashfs"
    || fsType == "nsfs" || fsType == "fuse.snapfuse"
  }

  /**
   * shouldIncludeMount: block devices under /dev/ except loop devices;
   * tmpfs only on /tmp and /dev/shm; anything else unless it is a pseudo
   * filesystem.
   */
  function ShouldIncludeMount(device: string, mountPoint: string, fsType: string): (r: bool)
    ensures HasPrefix(device, "/dev/") ==> (r <==> !HasPrefix(device, "/dev/loop"))
    ensures !HasPrefix(device, "/dev/") && fsType == "tmpfs" ==> (r <==> mountPoint == "/tmp" || mountPoint == "/dev/shm")
    ensures !HasPrefix(device, "/dev/") && fsType != "tmpfs" ==> (r <==> !PseudoFs(fsType))
  {
    if HasPrefix(device, "/dev/") then !HasPrefix(device, "/dev/loop")
    else if fsType == "tmpfs" then mountPoint == "/tmp" || mountPoint == "/dev/shm"
    else !PseudoFs(fsType)
  }

  /** A loop device is never listed, whatever its filesystem. */
  lemma LoopDevicesExcluded(device: string, mountPoint: string, fsType: string)
    requires HasPrefix(device, "/dev/loop")
    ensures !ShouldIncludeMount(device, mountPoint, fsType)
  {
    assert "/dev/" <= "/dev/loop";
    assert device[..5] == "/dev/loop"[..5];
  }

  // ------------------------------------------------------------------ partitions

  /** What statfs(2) reports for a mounted filesystem. */
  datatype StatFs = StatFs(blocks: nat, bsize: nat, bfree: nat, bavail: nat)

  datatype Partition = Partition(
    device: string, mountPoint: string, filesystem: string,
    total: int, used: int, available: int, usage: real)

  /** The figures of one partition: sizes in bytes and the used share in percent. */
  function PartitionOf(device: string, mountPoint: string, fsType: string, st: StatFs): (p: Partition)
    ensures p.device == device && p.mountPoint == mountPoint && p.filesystem == fsType
    ensures p.total == st.blocks * st.bsize && p.used + st.bfree * st.bsize == p.total
    ensures p.total <= 0 ==> p.usage == 0.0
  {
    var total := st.blocks * st.bsize;
    var used := total - st.bfree * st.bsize;
    Partition(device, mountPoint, fsType, total, used, st.bavail * st.bsize,
              if total > 0 then (used as real) / (total as real) * 100.0 else 0.0)
  }

  /**
   * For the counts a filesystem can report (free blocks and available blocks
   * within the total), the used and available sizes lie within the total
   * and the usage within 0..100; an empty filesystem has usage 0.
   */
  lemma PartitionFigures(device: string, mountPoint: string, fsType: string, st: StatFs)
    requires st.bavail <= st.bfree <= st.blocks
    ensures var p := PartitionOf(device, mountPoint, fsType, st);
      p.total == st.blocks * st.bsize
      && p.used + st.bfree * st.bsize == p.total
      && 0 <= p.used <= p.total && 0 <= p.available <= p.total
      && (p.total == 0 ==> p.usage == 0.0)
      && 0.0 <= p.usage <= 100.0
  {
    var p := PartitionOf(device, mountPoint, fsType, st);
    assert st.bfree * st.bsize <= st.blocks * st.bsize by {
      MulMono(st.bfree, st.blocks, st.bsize);
    }
    assert st.bavail * st.bsize <= st.bfree * st.bsize by {
      MulMono(st.bavail, st.bfree, st.bsize);
    }
    if p.total > 0 {
      var u, t := p.used as real, p.total as real;
      assert u / t <= 1.0 by {
        assert u <= t;
        assert u / t * t == u;
      }
      assert 0.0 <= u / t;
    }
  }

  lemma MulMono(a: nat, b: nat, c: nat)
    requires a <= b
    ensures a * c <= b * c
  {
  }

  /** The partition list so far, the raw mount fields already seen, and the raw field of each listed partition. */
  datatype Scan = Scan(parts: seq<Partition>, seen: set<string>, raws: seq<string>)

  /**
   * One /proc/mounts line: lines with fewer than four fields, filtered
   * mounts and mount fields already seen are skipped; the field is marked
   * seen before statfs is asked, and a statfs failure skips the line. The
   * listed mount point is the decoded one. `decodeFirst` says what statfs
   * is given: the raw field (false, as written) or its decoding (true).
   */
  function ScanLine(st: Scan, line: string, statfs: map<string, StatFs>, decodeFirst: bool): Scan {
    var f := Fields(line);
    if |f| < 4 || !ShouldIncludeMount(f[0], f[1], f[2]) || f[1] in st.seen then st
    else
      var path := if decodeFirst then DecodeMountPath(f[1]) else f[1];
      if path !in statfs then st.(seen := st.seen + {f[1]})
      else Scan(st.parts + [PartitionOf(f[0], DecodeMountPath(f[1]), f[2], statfs[path])],
                st.seen + {f[1]}, st.raws + [f[1]])
  }

  /** All lines, first to last. */
  function ScanLines(lines: seq<string>, statfs: map<string, StatFs>, decodeFirst: bool): Scan
    decreases |lines|
  {
    if lines == [] then Scan([], {}, [])
    else ScanLine(ScanLines(lines[..|lines| - 1], statfs, decodeFirst), lines[|lines| - 1], statfs, decodeFirst)
  }

  /** Extending the lines by one scans that line on top of the earlier state. */
  lemma ScanLinesSnoc(lines: seq<string>, i: nat, statfs: map<string, StatFs>, decodeFirst: bool)
    requires i < |lines|
    ensures ScanLines(lines[..i + 1], statfs, decodeFirst) == ScanLine(ScanLines(lines[..i], statfs, decodeFirst), lines[i], statfs, decodeFirst)
  {
    assert lines[..i + 1][..i] == lines[..i];
  }

  /** getMountedPartitions as written: statfs is given the raw, still escaped, mount field. */
  function MountedPartitionsAsWritten(mounts: Option<string>, statfs: map<string, StatFs>): (ps: seq<Partition>)
    ensures mounts.None? ==> ps == []
    ensures forall k :: 0 <= k < |ps| ==> !HasPrefix(ps[k].device, "/dev/loop")
  {
    if mounts.None? then []
    else
      ScanLinesOk(Split(mounts.value, '\n'), statfs, false);
      ScanLines(Split(mounts.value, '\n'), statfs, false).parts
  }

  /** A scan state in which every listed partition passed the filter, was seen once and shows its decoded field. */
  predicate ScanOk(st: Scan) {
    |st.raws| == |st.parts|
    && (forall k :: 0 <= k < |st.parts| ==>
          st.raws[k] in st.seen
          && st.parts[k].mountPoint == DecodeMountPath(st.raws[k])
          && ShouldIncludeMount(st.parts[k].device, st.raws[k], st.parts[k].filesystem))
    && (forall i, j :: 0 <= i < j < |st.raws| ==> st.raws[i] != st.raws[j])
  }

  lemma {:induction false} ScanLinesOk(lines: seq<string>, statfs: map<string, StatFs>, decodeFirst: bool)
    ensures ScanOk(ScanLines(lines, statfs, decodeFirst))
    decreases |lines|
  {
    if lines != [] {
      ScanLinesOk(lines[..|lines| - 1], statfs, decodeFirst);
    }
  }

  /** /proc/mounts lines whose mount fields (where present) are written the kernel's way. */
  predicate KernelLines(lines: seq<string>) {
    forall i :: 0 <= i < |lines| ==> |Fields(lines[i])| < 2 || KernelEncoded(Fields(lines[i])[1])
  }

  predicate AllKernelEncoded(raws: seq<string>) {
    forall k :: 0 <= k < |raws| ==> KernelEncoded(raws[k])
  }

  /** When the kernel wrote the lines, every raw field behind a listed partition is kernel-written. */
  lemma {:induction false} ScanLinesEncoded(lines: seq<string>, statfs: map<string, StatFs>, decodeFirst: bool)
    requires KernelLines(lines)
    ensures AllKernelEncoded(ScanLines(lines, statfs, decodeFirst).raws)
    decreases |lines|
  {
    if lines != [] {
      var pre := lines[..|lines| - 1];
      assert forall i :: 0 <= i < |pre| ==> pre[i] == lines[i];
      ScanLinesEncoded(pre, statfs, decodeFirst);
      var last := lines[|lines| - 1];
      assert |Fields(last)| < 2 || KernelEncoded(Fields(last)[1]);
      var before := ScanLines(pre, statfs, decodeFirst);
      var after := ScanLine(before, last, statfs, decodeFirst);
      assert ScanLines(lines, statfs, decodeFirst) == after;
      assert after.raws == before.raws || after.raws == before.raws + [Fields(last)[1]];
    }
  }

  /**
   * getMountedPartitions with statfs given the decoded mount point: the
   * partition list of the /proc/mounts text (empty when it cannot be read).
   */
  function MountedPartitions(mounts: Option<string>, statfs: map<string, StatFs>): seq<Partition> {
    if mounts.None? then [] else ScanLines(Split(mounts.value, '\n'), statfs, true).parts
  }

  /**
   * getMountedPartitions as a loop over the lines, keeping the seen set
   * beside the growing list. With `decodeFirst` false statfs is asked about
   * the raw field, as the code does; with it true, about the decoded path.
   */
  method GetMountedPartitions(mounts: Option<string>, statfs: map<string, StatFs>, decodeFirst: bool) returns (parts: seq<Partition>)
    ensures !decodeFirst ==> parts == MountedPartitionsAsWritten(mounts, statfs)
    ensures decodeFirst ==> parts == MountedPartitions(mounts, statfs)
  {
    parts := [];
    if mounts.None? {
      return;
    }
    var lines := Split(mounts.value, '\n');
    var seen: set<string> := {};
    ghost var raws: seq<string> := [];
    var i := 0;
    while i < |lines|
      invariant 0 <= i <= |lines|
      invariant Scan(parts, seen, raws) == ScanLines(lines[..i], statfs, decodeFirst)
    {
      ScanLinesSnoc(lines, i, statfs, decodeFirst);
      var f := Fields(lines[i]);
      if |f| >= 4 && ShouldIncludeMount(f[0], f[1], f[2]) && f[1] !in seen {
        seen := seen + {f[1]};
        var path := if decodeFirst then DecodeMountPath(f[1]) else f[1];
        if path in statfs {
          parts := parts + [PartitionOf(f[0], DecodeMountPath(f[1]), f[2], statfs[path])];
          raws := raws + [f[1]];
        }
      }
      i := i + 1;
    }
    assert lines[..i] == lines;
  }

  /**
   * Every listed partition passed the mount filter: it is never a loop
   * device, never a pseudo filesystem unless it is a /dev/ device, and a
   * tmpfs only on /tmp or /dev/shm.
   */
  lemma PartitionsFiltered(mounts: Option<string>, statfs: map<string, StatFs>)
    ensures var ps := MountedPartitions(mounts, statfs);
      forall k :: 0 <= k < |ps| ==>
        !HasPrefix(ps[k].device, "/dev/loop")
        && (!HasPrefix(ps[k].device, "/dev/") ==> !PseudoFs(ps[k].filesystem))
        && (!HasPrefix(ps[k].device, "/dev/") && ps[k].filesystem == "tmpfs" ==>
              ps[k].mountPoint == "/tmp" || ps[k].mountPoint == "/dev/shm")
  {
    if mounts.Some? {
      var st := ScanLines(Split(mounts.value, '\n'), statfs, true);
      ScanLinesOk(Split(mounts.value, '\n'), statfs, true);
      forall k | 0 <= k < |st.parts|
        ensures !HasPrefix(st.parts[k].device, "/dev/loop")
      {
        if HasPrefix(st.parts[k].device, "/dev/loop") {
          LoopDevicesExcluded(st.parts[k].device, st.raws[k], st.parts[k].filesystem);
        }
      }
    }
  }

  /**
   * Each mount point is listed at most once: when the kernel wrote every
   * mount field (so decoding is one-to-one), no two listed partitions show
   * the same mount point.
   */
  lemma MountPointsDistinct(mounts: string, statfs: map<string, StatFs>)
    requires KernelLines(Split(mounts, '\n'))
    ensures var ps := MountedPartitions(Some(mounts), statfs);
      forall i, j :: 0 <= i < j < |ps| ==> ps[i].mountPoint != ps[j].mountPoint
  {
    var lines := Split(mounts, '\n');
    var st := ScanLines(lines, statfs, true);
    ScanLinesOk(lines, statfs, true);
    ScanLinesEncoded(lines, statfs, true);
    forall i, j | 0 <= i < j < |st.parts|
      ensures st.parts[i].mountPoint != st.parts[j].mountPoint
    {
      // decoding is undone by encoding on kernel-written fields, and the raw fields differ
      assert KernelEncoded(st.raws[i]) && KernelEncoded(st.raws[j]);
    }
  }

  /** The /proc/mounts line of one mount. */
  function MountLine(device: string, raw: string, fsType: string, options: string): string {
    device + " " + raw + " " + fsType + " " + options
  }

  predicate IsWord(w: string) {
    w != [] && forall i :: 0 <= i < |w| ==> !IsGoSpace(w[i])
  }

  lemma MountLineFields(device: string, raw: string, fsType: string, options: string)
    requires IsWord(device) && IsWord(raw) && IsWord(fsType) && IsWord(options)
    ensures Fields(MountLine(device, raw, fsType, options)) == [device, raw, fsType, options]
  {
    var line := MountLine(device, raw, fsType, options);
    assert line == device + " " + (raw + " " + (fsType + " " + options));
    FieldsSingle(options);
    FieldsCons(fsType, options);
    FieldsCons(raw, fsType + " " + options);
    FieldsCons(device, raw + " " + (fsType + " " + options));
  }

  /**
   * The escaped mount point that is never listed: a /dev/ device mounted on
   * a path with an escape (a space written as \040, say). statfs on the raw
   * field names a path that does not exist, so the code as written drops
   * the mount; asking statfs about the decoded path lists it.
   */
  lemma EscapedMountDropped(device: string, raw: string, fsType: string, options: string, st: StatFs)
    requires IsWord(device) && IsWord(raw) && IsWord(fsType) && IsWord(options)
    requires HasPrefix(device, "/dev/") && !HasPrefix(device, "/dev/loop")
    requires DecodeMountPath(raw) != raw
    ensures var line := MountLine(device, raw, fsType, options);
      var statfs := map[DecodeMountPath(raw) := st];
      MountedPartitionsAsWritten(Some(line), statfs) == []
      && MountedPartitions(Some(line), statfs) == [PartitionOf(device, DecodeMountPath(raw), fsType, st)]
  {
    var line := MountLine(device, raw, fsType, options);
    MountLineAlone(device, raw, fsType, options);
    var statfs := map[DecodeMountPath(raw) := st];
    ScanSingle(line, statfs, false);
    ScanSingle(line, statfs, true);
  }

  /** A mount line of four words is one line of four fields. */
  /**
   * The corrected listing keeps every real device: a /dev/ mount other than
   * a loop device, whose decoded path statfs answers, is listed with the
   * decoded mount point, escaped or not.
   */
  lemma DevMountListed(device: string, raw: string, fsType: string, options: string,
                       statfs: map<string, StatFs>)
    requires IsWord(device) && IsWord(raw) && IsWord(fsType) && IsWord(options)
    requires HasPrefix(device, "/dev/") && !HasPrefix(device, "/dev/loop")
    requires DecodeMountPath(raw) in statfs
    ensures MountedPartitions(Some(MountLine(device, raw, fsType, options)), statfs)
      == [PartitionOf(device, DecodeMountPath(raw), fsType, statfs[DecodeMountPath(raw)])]
  {
    var line := MountLine(device, raw, fsType, options);
    MountLineAlone(device, raw, fsType, options);
    ScanSingle(line, statfs, true);
  }

  lemma MountLineAlone(device: string, raw: string, fsType: string, options: string)
    requires IsWord(device) && IsWord(raw) && IsWord(fsType) && IsWord(options)
    ensures var line := MountLine(device, raw, fsType, options);
      Split(line, '\n') == [line] && Fields(line) == [device, raw, fsType, options]
  {
    var line := MountLine(device, raw, fsType, options);
    MountLineFields(device, raw, fsType, options);
    NoNewline(device);
    NoNewline(raw);
    NoNewline(fsType);
    NoNewline(options);
    assert '\n' !in line;
    SplitNoSeparator(line, '\n');
  }

  lemma NoNewline(w: string)
    requires IsWord(w)
    ensures '\n' !in w
  {
    assert IsGoSpace('\n');
  }

  lemma ScanSingle(line: string, statfs: map<string, StatFs>, decodeFirst: bool)
    ensures ScanLines([line], statfs, decodeFirst) == ScanLine(Scan([], {}, []), line, statfs, decodeFirst)
  {
    assert [line][..0] == [];
  }

  // ------------------------------------------------------------------ disks

  datatype DiskKind = Nvme | Ssd | Hdd

  /**
   * detectDiskType: `nvme` by name; otherwise the queue/rotational file
   * decides, "0" meaning a solid-state disk; an unreadable file (a name
   * missing from the map) means a hard disk.
   */
  function DetectDiskType(name: string, rotational: map<string, string>): (k: DiskKind)
    ensures k == Nvme <==> HasPrefix(name, "nvme")
    ensures k == Ssd <==> !HasPrefix(name, "nvme") && name in rotational && GoTrim(rotational[name]) == "0"
    ensures k == Hdd ==> name !in rotational || GoTrim(rotational[name]) != "0"
  {
    if HasPrefix(name, "nvme") then Nvme
    else if name in rotational && GoTrim(rotational[name]) == "0" then Ssd
    else Hdd
  }

  datatype Disk = Disk(name: string, model: string, size: int, kind: DiskKind, serial: string, vendor: string)

  /** Loop devices, RAM disks, device-mapper nodes and optical drives are not listed. */
  predicate SkippedName(name: string) {
    HasPrefix(name, "loop") || HasPrefix(name, "ram") || HasPrefix(name, "dm-") || HasPrefix(name, "sr")
  }

  /** Field k of an lsblk line, trimmed, or "" when the line is shorter. */
  function FieldOr(f: seq<string>, k: nat): string {
    if k < |f| then GoTrim(f[k]) else ""
  }

  /** One line of `lsblk -d -n -o NAME,SIZE,TYPE,MODEL,SERIAL,VENDOR -b`. */
  function LsblkDisk(line: string, rotational: map<string, string>): Option<Disk> {
    var f := Fields(line);
    if |f| < 3 || SkippedName(f[0]) || f[2] != "disk" then None
    else Some(Disk(f[0], FieldOr(f, 3), ParseOrZero(f[1]), DetectDiskType(f[0], rotational),
                   FieldOr(f, 4), FieldOr(f, 5)))
  }

  function AsSeq<T>(o: Option<T>): seq<T> {
    if o.Some? then [o.value] else []
  }

  /** The disks of the lsblk lines, in order. */
  function LsblkDisks(lines: seq<string>, rotational: map<string, string>): seq<Disk>
    decreases |lines|
  {
    if lines == [] then []
    else LsblkDisks(lines[..|lines| - 1], rotational) + AsSeq(LsblkDisk(lines[|lines| - 1], rotational))
  }

  /** One /sys/block entry: its name, whether `device` is missing, and the size/model/vendor files (None when unreadable). */
  datatype SysBlockEntry = SysBlockEntry(
    name: string, deviceMissing: bool,
    size: Option<string>, model: Option<string>, vendor: Option<string>)

  /** os.ReadFile with the error ignored: the content, or "" when unreadable. */
  function ContentOr(o: Option<string>): string {
    if o.Some? then o.value else ""
  }

  /** One /sys/block entry: the size file counts 512-byte sectors; there is no serial. */
  function SysBlockDisk(e: SysBlockEntry, rotational: map<string, string>): Option<Disk> {
    if SkippedName(e.name) || e.deviceMissing then None
    else Some(Disk(e.name, GoTrim(ContentOr(e.model)), ParseOrZero(GoTrim(ContentOr(e.size))) * 512,
                   DetectDiskType(e.name, rotational), "", GoTrim(ContentOr(e.vendor))))
  }

  function SysBlockDisks(entries: seq<SysBlockEntry>, rotational: map<string, string>): seq<Disk>
    decreases |entries|
  {
    if entries == [] then []
    else SysBlockDisks(entries[..|entries| - 1], rotational) + AsSeq(SysBlockDisk(entries[|entries| - 1], rotational))
  }

  /** getDisksFromSysBlock: nothing when /sys/block cannot be listed. */
  method GetDisksFromSysBlock(entries: Option<seq<SysBlockEntry>>, rotational: map<string, string>)
    returns (disks: seq<Disk>)
    ensures entries.None? ==> disks == []
    ensures entries.Some? ==> disks == SysBlockDisks(entries.value, rotational)
  {
    disks := [];
    if entries.None? {
      return;
    }
    var es := entries.value;
    for i := 0 to |es|
      invariant disks == SysBlockDisks(es[..i], rotational)
    {
      assert es[..i + 1][..i] == es[..i];
      var d := SysBlockDisk(es[i], rotational);
      if d.Some? {
        disks := disks + [d.value];
      }
    }
    assert es[..|es|] == es;
  }

  /** getPhysicalDisks: the lsblk lines when lsblk ran, the /sys/block fallback otherwise. */
  function PhysicalDisks(lsblk: Option<string>, sysBlock: Option<seq<SysBlockEntry>>, rotational: map<string, string>): seq<Disk> {
    if lsblk.Some? then LsblkDisks(Split(GoTrim(lsblk.value), '\n'), rotational)
    else if sysBlock.Some? then SysBlockDisks(sysBlock.value, rotational)
    else []
  }

  method GetPhysicalDisks(lsblk: Option<string>, sysBlock: Option<seq<SysBlockEntry>>, rotational: map<string, string>)
    returns (disks: seq<Disk>)
    ensures disks == PhysicalDisks(lsblk, sysBlock, rotational)
  {
    if lsblk.None? {
      disks := GetDisksFromSysBlock(sysBlock, rotational);
      return;
    }
    disks := ListLsblkDisks(Split(GoTrim(lsblk.value), '\n'), rotational);
  }

  /** The loop over lsblk's output lines, keeping the whole disks it accepts. */
  method ListLsblkDisks(lines: seq<string>, rotational: map<string, string>) returns (disks: seq<Disk>)
    ensures disks == LsblkDisks(lines, rotational)
  {
    disks := [];
    for i := 0 to |lines|
      invariant disks == LsblkDisks(lines[..i], rotational)
    {
      LsblkDisksSnoc(lines, i, rotational);
      var d := LsblkDisk(lines[i], rotational);
      if d.Some? {
        disks := disks + [d.value];
      }
    }
    assert lines[..|lines|] == lines;
  }

  /** Extending the lines by one adds that line's disk, if any. */
  lemma LsblkDisksSnoc(lines: seq<string>, i: nat, rotational: map<string, string>)
    requires i < |lines|
    ensures LsblkDisks(lines[..i + 1], rotational) == LsblkDisks(lines[..i], rotational) + AsSeq(LsblkDisk(lines[i], rotational))
  {
    assert lines[..i + 1][..i] == lines[..i];
  }

  /** A line is listed exactly when it has three fields, an accepted name and type `disk`. */
  lemma LsblkLineListed(line: string, rotational: map<string, string>)
    ensures var f := Fields(line);
      LsblkDisk(line, rotational).Some? <==> |f| >= 3 && !SkippedName(f[0]) && f[2] == "disk"
  {
  }

  /** Every listed disk has an accepted name, and its kind is nvme exactly for nvme names. */
  lemma {:induction false} LsblkDisksFiltered(lines: seq<string>, rotational: map<string, string>)
    ensures var ds := LsblkDisks(lines, rotational);
      |ds| <= |lines|
      && forall k :: 0 <= k < |ds| ==> !SkippedName(ds[k].name) && (ds[k].kind == Nvme <==> HasPrefix(ds[k].name, "nvme"))
    decreases |lines|
  {
    if lines != [] {
      LsblkDisksFiltered(lines[..|lines| - 1], rotational);
    }
  }

  /** A disk from one /sys/block entry: an accepted name, no serial and a whole number of sectors. */
  predicate SysBlockShape(d: Disk) {
    !SkippedName(d.name) && d.serial == "" && d.size % 512 == 0
  }

  lemma SysBlockDiskShape(e: SysBlockEntry, rotational: map<string, string>)
    ensures SysBlockDisk(e, rotational).Some? ==> SysBlockShape(SysBlockDisk(e, rotational).value)
  {
    if SysBlockDisk(e, rotational).Some? {
      var sectors := ParseOrZero(GoTrim(ContentOr(e.size)));
      assert (sectors * 512) % 512 == 0;
    }
  }

  /** The same for the /sys/block fallback, which also drops entries without a device link. */
  lemma {:induction false} SysBlockDisksFiltered(entries: seq<SysBlockEntry>, rotational: map<string, string>)
    ensures var ds := SysBlockDisks(entries, rotational);
      |ds| <= |entries| && forall k :: 0 <= k < |ds| ==> SysBlockShape(ds[k])
    decreases |entries|
  {
    if entries != [] {
      var pre := entries[..|entries| - 1];
      SysBlockDisksFiltered(pre, rotational);
      SysBlockDiskShape(entries[|entries| - 1], rotational);
    }
  }
}
