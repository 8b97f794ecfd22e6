/**
 * The temperature page (go-backend/temperature.go): thermal-zone and hwmon
 * sensor readings with their thresholds, the CPU/GPU/other classification
 * of hwmon sensors, and the disk temperatures from NVMe hwmon files and
 * smartctl output.
 *
 * Temperatures are integer millidegrees Celsius, as the kernel files give
 * them (the Go code divides by 1000.0; the range tests are exact on
 * millidegrees). A threshold Go leaves at zero, which the JSON reply then
 * omits, is None. Directory listings and file contents are parameters
 * (None when a read fails).
 */
module Temperature {
  import opened Text

  datatype Reading = Reading(name: string, milli: int, critical: Option<int>, high: Option<int>)

  /** strconv.ParseInt(strings.TrimSpace(content)) of a read that may have failed. */
  function ParseRead(content: Option<string>): Option<int> {
    if content.None? then None else Atoi(GoTrim(content.value))
  }

  /** The validity test of zone and hwmon readings: 0 < t <= 150 degrees. */
  predicate ValidSensor(milli: int) { 0 < milli <= 150000 }

  /** A sensor reading in range whose thresholds, when present, are positive. */
  predicate SensorOk(r: Reading) {
    ValidSensor(r.milli) && (r.critical.Some? ==> r.critical.value > 0) && (r.high.Some? ==> r.high.value > 0)
  }

  predicate AllSensorsOk(rs: seq<Reading>) {
    forall k :: 0 <= k < |rs| ==> SensorOk(rs[k])
  }

  // ------------------------------------------------------------------ thermal zones

  /** One trip point: its temperature and type files. */
  datatype Trip = Trip(temp: Option<string>, kind: Option<string>)

  /** A /sys/class/thermal entry: its name and the type, temp and trip-point files. */
  datatype Zone = Zone(name: string, kind: Option<string>, temp: Option<string>, trips: seq<Trip>)

  /**
   * One trip point applied to a reading: an unreadable or unparsable file
   * changes nothing; a positive `critical` trip sets Critical, a positive
   * `hot` or `high` trip sets High.
   */
  function ApplyTrip(r: Reading, t: Trip): Reading {
    var v := ParseRead(t.temp);
    if v.None? || t.kind.None? then r
    else
      var kind := GoTrim(t.kind.value);
      if kind == "critical" && v.value > 0 then r.(critical := Some(v.value))
      else if (kind == "hot" || kind == "high") && v.value > 0 then r.(high := Some(v.value))
      else r
  }

  function ApplyTrips(r: Reading, trips: seq<Trip>): Reading
    decreases |trips|
  {
    if trips == [] then r else ApplyTrip(ApplyTrips(r, trips[..|trips| - 1]), trips[|trips| - 1])
  }

  /** The trip loop of one zone. */
  method ReadTrips(r0: Reading, trips: seq<Trip>) returns (r: Reading)
    ensures r == ApplyTrips(r0, trips)
  {
    r := r0;
    for i := 0 to |trips|
      invariant r == ApplyTrips(r0, trips[..i])
    {
      assert trips[..i + 1][..i] == trips[..i];
      var v := ParseRead(trips[i].temp);
      if v.Some? && trips[i].kind.Some? {
        var kind := GoTrim(trips[i].kind.value);
        if kind == "critical" && v.value > 0 {
          r := r.(critical := Some(v.value));
        } else if (kind == "hot" || kind == "high") && v.value > 0 {
          r := r.(high := Some(v.value));
        }
      }
    }
    assert trips[..|trips|] == trips;
  }

  /** Trip points only ever set positive thresholds and never touch the name or temperature. */
  lemma {:induction false} TripsPositive(r: Reading, trips: seq<Trip>)
    requires r.critical.None? && r.high.None?
    ensures var r' := ApplyTrips(r, trips);
      r'.name == r.name && r'.milli == r.milli
      && (r'.critical.Some? ==> r'.critical.value > 0)
      && (r'.high.Some? ==> r'.high.value > 0)
    decreases |trips|
  {
    if trips != [] {
      TripsPositive(r, trips[..|trips| - 1]);
    }
  }

  /** One zone: only thermal_zone* entries whose type and temperature read and parse, within range. */
  function ZoneReading(z: Zone): Option<Reading> {
    if !HasPrefix(z.name, "thermal_zone") || z.kind.None? then None
    else
      var v := ParseRead(z.temp);
      if v.None? || !ValidSensor(v.value) then None
      else Some(ApplyTrips(Reading(GoTrim(z.kind.value), v.value, None, None), z.trips))
  }

  function ZoneReadings(zones: seq<Zone>): seq<Reading>
    decreases |zones|
  {
    if zones == [] then []
    else
      var last := ZoneReading(zones[|zones| - 1]);
      ZoneReadings(zones[..|zones| - 1]) + (if last.Some? then [last.value] else [])
  }

  /** readThermalZones: nothing when the directory cannot be listed. */
  method ReadThermalZones(zones: Option<seq<Zone>>) returns (readings: seq<Reading>)
    ensures zones.None? ==> readings == []
    ensures zones.Some? ==> readings == ZoneReadings(zones.value)
  {
    readings := [];
    if zones.None? {
      return;
    }
    var zs := zones.value;
    for i := 0 to |zs|
      invariant readings == ZoneReadings(zs[..i])
    {
      assert zs[..i + 1][..i] == zs[..i];
      var z := zs[i];
      if HasPrefix(z.name, "thermal_zone") && z.kind.Some? {
        var v := ParseRead(z.temp);
        if v.Some? && ValidSensor(v.value) {
          var r := ReadTrips(Reading(GoTrim(z.kind.value), v.value, None, None), z.trips);
          readings := readings + [r];
        }
      }
    }
    assert zs[..|zs|] == zs;
  }

  /** Every zone reading is in range and its thresholds are positive. */
  lemma {:induction false} ZoneReadingsValid(zones: seq<Zone>)
    ensures AllSensorsOk(ZoneReadings(zones))
    decreases |zones|
  {
    if zones != [] {
      ZoneReadingsValid(zones[..|zones| - 1]);
      var z := zones[|zones| - 1];
      if ZoneReading(z).Some? {
        var v := ParseRead(z.temp);
        TripsPositive(Reading(GoTrim(z.kind.value), v.value, None, None), z.trips);
      }
    }
  }

  // ------------------------------------------------------------------ hwmon

  /** One temp*_input file: the text the glob matched for `*`, and the input, label, crit and max files. */
  datatype TempInput = TempInput(index: string, input: Option<string>, labelFile: Option<string>,
                                 crit: Option<string>, max: Option<string>)

  /** One /sys/class/hwmon device: its name file and its temperature inputs. */
  datatype HwmonDevice = HwmonDevice(nameFile: Option<string>, inputs: seq<TempInput>)

  /** The device name, "unknown" when the name file cannot be read. */
  function DeviceName(d: HwmonDevice): string {
    if d.nameFile.Some? then GoTrim(d.nameFile.value) else "unknown"
  }

  /** The reading's name: the label if there is one, else `<device> temp<N>` for a known device, else the device name. */
  function SensorName(deviceName: string, num: string, labelFile: Option<string>): (name: string)
    ensures labelFile.Some? && GoTrim(labelFile.value) != "" ==> name == GoTrim(labelFile.value)
    ensures (labelFile.None? || GoTrim(labelFile.value) == "") && deviceName != "unknown" ==> name == deviceName + " temp" + num
    ensures (labelFile.None? || GoTrim(labelFile.value) == "") && deviceName == "unknown" ==> name == "unknown"
  {
    var l := if labelFile.Some? then GoTrim(labelFile.value) else "";
    if l != "" then l else if deviceName != "unknown" then deviceName + " temp" + num else deviceName
  }

  /** A positive threshold in millidegrees, or None. */
  function Threshold(content: Option<string>): (t: Option<int>)
    ensures t.Some? ==> t.value > 0
  {
    var v := ParseRead(content);
    if v.Some? && v.value > 0 then v else None
  }

  /** One input: the value must parse and be in range, and the file number must be decimal. */
  function InputReading(deviceName: string, t: TempInput): Option<Reading> {
    var v := ParseRead(t.input);
    if v.None? || !ValidSensor(v.value) || !IsDecimal(t.index) then None
    else Some(Reading(SensorName(deviceName, t.index, t.labelFile), v.value, Threshold(t.crit), Threshold(t.max)))
  }

  function InputReadings(deviceName: string, inputs: seq<TempInput>): seq<Reading>
    decreases |inputs|
  {
    if inputs == [] then []
    else
      var last := InputReading(deviceName, inputs[|inputs| - 1]);
      InputReadings(deviceName, inputs[..|inputs| - 1]) + (if last.Some? then [last.value] else [])
  }

  function HwmonReadings(devices: seq<HwmonDevice>): seq<Reading>
    decreases |devices|
  {
    if devices == [] then []
    else
      var d := devices[|devices| - 1];
      HwmonReadings(devices[..|devices| - 1]) + InputReadings(DeviceName(d), d.inputs)
  }

  /** The input loop of one device. */
  method ReadDeviceInputs(deviceName: string, inputs: seq<TempInput>) returns (readings: seq<Reading>)
    ensures readings == InputReadings(deviceName, inputs)
  {
    readings := [];
    for i := 0 to |inputs|
      invariant readings == InputReadings(deviceName, inputs[..i])
    {
      assert inputs[..i + 1][..i] == inputs[..i];
      var r := InputReading(deviceName, inputs[i]);
      if r.Some? {
        readings := readings + [r.value];
      }
    }
    assert inputs[..|inputs|] == inputs;
  }

  /** readHwmon: nothing when the directory cannot be listed. */
  method ReadHwmon(devices: Option<seq<HwmonDevice>>) returns (readings: seq<Reading>)
    ensures devices.None? ==> readings == []
    ensures devices.Some? ==> readings == HwmonReadings(devices.value)
  {
    readings := [];
    if devices.None? {
      return;
    }
    var ds := devices.value;
    for i := 0 to |ds|
      invariant readings == HwmonReadings(ds[..i])
    {
      assert ds[..i + 1][..i] == ds[..i];
      var more := ReadDeviceInputs(DeviceName(ds[i]), ds[i].inputs);
      readings := readings + more;
    }
    assert ds[..|ds|] == ds;
  }

  /** Every hwmon reading is in range and its thresholds are positive. */
  lemma {:induction false} InputReadingsValid(deviceName: string, inputs: seq<TempInput>)
    ensures AllSensorsOk(InputReadings(deviceName, inputs))
    decreases |inputs|
  {
    if inputs != [] {
      InputReadingsValid(deviceName, inputs[..|inputs| - 1]);
    }
  }

  // ------------------------------------------------------------------ classification

  datatype Group = Cpu | Gpu | Other

  /** The handler's grouping of an hwmon sensor by its lower-cased name. */
  function GroupOf(name: string): Group {
    var n := ToLower(name);
    if Contains(n, "cpu") || Contains(n, "core") || Contains(n, "package") || Contains(n, "tctl") then Cpu
    else if Contains(n, "gpu") || Contains(n, "nvidia") || Contains(n, "amdgpu") || Contains(n, "radeon") then Gpu
    else Other
  }

  function InGroup(rs: seq<Reading>, g: Group): (r: seq<Reading>)
    ensures |r| <= |rs|
    ensures forall k :: 0 <= k < |r| ==> GroupOf(r[k].name) == g
    decreases |rs|
  {
    if rs == [] then []
    else InGroup(rs[..|rs| - 1], g) + (if GroupOf(rs[|rs| - 1].name) == g then [rs[|rs| - 1]] else [])
  }

  /** A reading of a given group joins that group's list and no other. */
  lemma InGroupSnoc(pre: seq<Reading>, x: Reading, g: Group)
    ensures GroupOf(x.name) == g ==> InGroup(pre + [x], g) == InGroup(pre, g) + [x]
    ensures GroupOf(x.name) != g ==> InGroup(pre + [x], g) == InGroup(pre, g)
  {
    var rs := pre + [x];
    assert rs[..|rs| - 1] == pre && rs[|rs| - 1] == x;
  }

  /** The three groups of a list with one more reading hold together that reading more. */
  lemma GroupsSnoc(pre: seq<Reading>, x: Reading)
    ensures multiset(InGroup(pre + [x], Cpu)) + multiset(InGroup(pre + [x], Gpu)) + multiset(InGroup(pre + [x], Other))
      == multiset(InGroup(pre, Cpu)) + multiset(InGroup(pre, Gpu)) + multiset(InGroup(pre, Other)) + multiset{x}
  {
    var c, g, o := InGroup(pre, Cpu), InGroup(pre, Gpu), InGroup(pre, Other);
    var c', g', o' := InGroup(pre + [x], Cpu), InGroup(pre + [x], Gpu), InGroup(pre + [x], Other);
    InGroupSnoc(pre, x, Cpu);
    InGroupSnoc(pre, x, Gpu);
    InGroupSnoc(pre, x, Other);
    var one := multiset{x};
    UnionShift(multiset(c), multiset(g), multiset(o), one);
    var gx := GroupOf(x.name);
    if gx == Cpu {
      assert multiset(c') == multiset(c) + one;
    } else if gx == Gpu {
      assert multiset(g') == multiset(g) + one;
    } else {
      assert multiset(o') == multiset(o) + one;
    }
  }

  /** One more element in any of three multisets is one more element in their union. */
  lemma UnionShift<T>(a: multiset<T>, b: multiset<T>, c: multiset<T>, one: multiset<T>)
    ensures (a + one) + b + c == a + b + c + one
    ensures a + (b + one) + c == a + b + c + one
    ensures a + b + (c + one) == a + b + c + one
  {
  }

  /** Every hwmon reading lands in exactly one group: the three lists together hold exactly the readings. */
  lemma {:induction false} GroupsPartition(rs: seq<Reading>)
    ensures multiset(InGroup(rs, Cpu)) + multiset(InGroup(rs, Gpu)) + multiset(InGroup(rs, Other)) == multiset(rs)
    decreases |rs|
  {
    if rs != [] {
      var pre, x := rs[..|rs| - 1], rs[|rs| - 1];
      GroupsPartition(pre);
      assert rs == pre + [x];
      assert multiset(rs) == multiset(pre) + multiset{x};
      GroupsSnoc(pre, x);
    }
  }

  datatype TemperatureInfo = TemperatureInfo(cpu: seq<Reading>, gpu: seq<Reading>, disks: seq<Reading>, sensors: seq<Reading>)

  /**
   * GetTemperatureHandler: the CPU list is the thermal zones followed by
   * the hwmon sensors grouped as CPU; the others go to GPU or Sensors.
   */
  method Collect(zones: seq<Reading>, hwmon: seq<Reading>, disks: seq<Reading>) returns (info: TemperatureInfo)
    ensures info == TemperatureInfo(zones + InGroup(hwmon, Cpu), InGroup(hwmon, Gpu), disks, InGroup(hwmon, Other))
  {
    var cpu, gpu, sensors := zones, [], [];
    for i := 0 to |hwmon|
      invariant cpu == zones + InGroup(hwmon[..i], Cpu)
      invariant gpu == InGroup(hwmon[..i], Gpu)
      invariant sensors == InGroup(hwmon[..i], Other)
    {
      assert hwmon[..i + 1][..i] == hwmon[..i];
      var g := GroupOf(hwmon[i].name);
      if g == Cpu {
        cpu := cpu + [hwmon[i]];
      } else if g == Gpu {
        gpu := gpu + [hwmon[i]];
      } else {
        sensors := sensors + [hwmon[i]];
      }
    }
    assert hwmon[..|hwmon|] == hwmon;
    info := TemperatureInfo(cpu, gpu, disks, sensors);
  }

  // ------------------------------------------------------------------ disks

  /** The disk range test: 0 < t < 150 degrees. */
  predicate ValidDisk(milli: int) { 0 < milli < 150000 }

  /** A smartctl attribute line about temperature. */
  predicate IsTempLine(line: string) {
    Contains(line, "Temperature_Celsius") || Contains(line, "Airflow_Temperature")
  }

  /** The whole degrees a smartctl value gives (decimal fractions are not modelled), in millidegrees. */
  function SmartValue(field: string): Option<int> {
    match Atoi(field)
    case Some(v) => Some(v * 1000)
    case None => None
  }

  /**
   * The value the code as written reads from a temperature line with at
   * least ten fields: the last field (splitting it again on blanks changes
   * nothing, since a field has none).
   */
  function LineValueAsWritten(line: string): (v: Option<int>)
    ensures v.Some? ==> IsTempLine(line) && |Fields(line)| >= 10 && ValidDisk(v.value)
    ensures IsTempLine(line) && |Fields(line)| >= 10 ==>
      var last := SmartValue(Fields(line)[|Fields(line)| - 1]);
      v == if last.Some? && ValidDisk(last.value) then last else None
  {
    var f := Fields(line);
    if !IsTempLine(line) || |f| < 10 then None
    else
      var last := f[|f| - 1];
      WordsSpaceFree(line, GoSpace);
      assert f == Words(line, GoSpace);
      assert ' ' !in last by {
        forall j | 0 <= j < |last|
          ensures last[j] != ' '
        {
          assert !IsSpace(GoSpace, last[j]);
        }
      }
      SplitNoSeparator(last, ' ');
      var v := SmartValue(Split(last, ' ')[0]);
      if v.Some? && ValidDisk(v.value) then v else None
  }

  /** The value of the RAW_VALUE column, the tenth field, whatever annotation follows it. */
  function LineValue(line: string): Option<int> {
    var f := Fields(line);
    if !IsTempLine(line) || |f| < 10 then None
    else
      var v := SmartValue(f[9]);
      if v.Some? && ValidDisk(v.value) then v else None
  }

  /**
   * On a line of exactly ten fields, the usual smartctl layout without an
   * annotation, the last field is RAW_VALUE and both readings agree.
   */
  lemma PlainLineAgrees(line: string)
    requires |Fields(line)| == 10
    ensures LineValueAsWritten(line) == LineValue(line)
  {
  }

  /**
   * The corrected reading takes the RAW_VALUE column, the tenth field, of a
   * temperature line, whatever annotation follows it.
   */
  lemma RawValueRead(words: seq<string>, n: int)
    requires |words| >= 10
    requires forall k :: 0 <= k < |words| ==> words[k] != [] && forall i :: 0 <= i < |words[k]| ==> !IsGoSpace(words[k][i])
    requires words[1] == "Temperature_Celsius"
    requires Atoi(words[9]) == Some(n) && 0 < n < 150
    ensures LineValue(Join(words, " ")) == Some(n * 1000)
  {
    FieldsJoin(words);
    ContainsJoinPart(words, " ", 1);
  }

  /** The first line that gives a value in range (the loop breaks there). */
  function FirstValue(lines: seq<string>, asWritten: bool): Option<int>
    decreases |lines|
  {
    if lines == [] then None
    else
      var v := if asWritten then LineValueAsWritten(lines[0]) else LineValue(lines[0]);
      if v.Some? then v else FirstValue(lines[1..], asWritten)
  }

  /**
   * The line loop over smartctl's output, stopping at the first valid
   * value: read from the last field as the code does (`asWritten`), or
   * from the RAW_VALUE column.
   */
  method SmartTemperature(output: string, asWritten: bool) returns (t: Option<int>)
    ensures t == FirstValue(Split(output, '\n'), asWritten)
  {
    var lines := Split(output, '\n');
    t := None;
    var i := 0;
    while i < |lines|
      invariant 0 <= i <= |lines|
      invariant FirstValue(lines, asWritten) == FirstValue(lines[i..], asWritten)
    {
      var v := if asWritten then LineValueAsWritten(lines[i]) else LineValue(lines[i]);
      assert lines[i..][1..] == lines[i + 1..];
      if v.Some? {
        t := v;
        return;
      }
      i := i + 1;
    }
  }

  /**
   * smartctl commonly appends the minimum and maximum to the raw value
   * (`... -  35 (Min/Max 20/45)`). On such a line the code as written reads
   * the last field, `20/45)`, which is no number, and reports no temperature
   * at all; the RAW_VALUE column gives 35 degrees.
   */
  lemma AnnotatedLineIgnored(words: seq<string>)
    requires |words| >= 11
    requires forall k :: 0 <= k < |words| ==> words[k] != [] && forall i :: 0 <= i < |words[k]| ==> !IsGoSpace(words[k][i])
    requires words[1] == "Temperature_Celsius"
    requires Atoi(words[|words| - 1]).None?
    requires Atoi(words[9]) == Some(35)
    ensures FirstValue([Join(words, " ")], true) == None
    ensures FirstValue([Join(words, " ")], false) == Some(35000)
  {
    var line := Join(words, " ");
    FieldsJoin(words);
    ContainsJoinPart(words, " ", 1);
    var last := words[|words| - 1];
    assert ' ' !in last by {
      assert IsGoSpace(' ');
    }
    SplitNoSeparator(last, ' ');
    assert [line][1..] == [];
  }

  /** Where each disk temperature comes from: NVMe hwmon temp1_input, or smartctl output for the others. */
  datatype DiskSource = NvmeSource(temp1: Option<string>) | SmartSource(output: Option<string>)

  /** One block device: NVMe needs 0 < t < 150 from temp1_input; others need a smartctl value. */
  function DiskReading(name: string, src: DiskSource, asWritten: bool): (r: Option<Reading>)
    ensures r.Some? ==> r.value.name == name && ValidDisk(r.value.milli) && r.value.milli > 0
    ensures !HasPrefix(name, "nvme") ==>
              (r.Some? <==> src.SmartSource? && src.output.Some? && FirstValue(Split(src.output.value, '\n'), asWritten).Some?)
  {
    if HasPrefix(name, "nvme") then
      var v := if src.NvmeSource? then ParseRead(src.temp1) else None;
      if v.Some? && v.value > 0 && ValidDisk(v.value) then Some(Reading(name, v.value, None, None)) else None
    else
      if src.SmartSource? && src.output.Some? then
        var t := FirstValue(Split(src.output.value, '\n'), asWritten);
        FirstValueValid(Split(src.output.value, '\n'), asWritten);
        if t.Some? then Some(Reading(name, t.value, None, None)) else None
      else None
  }

  function SourceOf(sources: map<string, DiskSource>, name: string): DiskSource {
    if name in sources then sources[name] else SmartSource(None)
  }

  function DiskReadings(names: seq<string>, sources: map<string, DiskSource>, asWritten: bool): seq<Reading>
    decreases |names|
  {
    if names == [] then []
    else
      var n := names[|names| - 1];
      var r := DiskReading(n, SourceOf(sources, n), asWritten);
      DiskReadings(names[..|names| - 1], sources, asWritten) + (if r.Some? then [r.value] else [])
  }

  /** readDiskTemperatures over the sd* devices followed by the nvme* devices. */
  method ReadDiskTemperatures(sd: seq<string>, nvme: seq<string>, sources: map<string, DiskSource>, asWritten: bool)
    returns (readings: seq<Reading>)
    ensures readings == DiskReadings(sd + nvme, sources, asWritten)
  {
    var names := sd + nvme;
    readings := [];
    for i := 0 to |names|
      invariant readings == DiskReadings(names[..i], sources, asWritten)
    {
      assert names[..i + 1][..i] == names[..i];
      var src := SourceOf(sources, names[i]);
      var r: Option<Reading> := None;
      if HasPrefix(names[i], "nvme") {
        r := DiskReading(names[i], src, asWritten);
      } else if src.SmartSource? && src.output.Some? {
        var t := SmartTemperature(src.output.value, asWritten);
        if t.Some? {
          r := Some(Reading(names[i], t.value, None, None));
        }
      }
      assert r == DiskReading(names[i], src, asWritten);
      if r.Some? {
        readings := readings + [r.value];
      }
    }
    assert names[..|names|] == names;
  }

  /** Every disk reading lies strictly between 0 and 150 degrees and names its device. */
  lemma {:induction false} DiskReadingsValid(names: seq<string>, sources: map<string, DiskSource>, asWritten: bool)
    ensures var rs := DiskReadings(names, sources, asWritten);
      |rs| <= |names| && forall k :: 0 <= k < |rs| ==> ValidDisk(rs[k].milli) && rs[k].name in names
    decreases |names|
  {
    if names != [] {
      var pre := names[..|names| - 1];
      DiskReadingsValid(pre, sources, asWritten);
      assert forall n :: n in pre ==> n in names;
    }
  }

  /** Either way of reading a line, the value found is a valid disk temperature. */
  lemma {:induction false} FirstValueValid(lines: seq<string>, asWritten: bool)
    ensures var t := FirstValue(lines, asWritten); t.Some? ==> ValidDisk(t.value)
    decreases |lines|
  {
    if lines != [] {
      FirstValueValid(lines[1..], asWritten);
    }
  }
}
