/**
 * Alert rules (go-backend/alerts.go): validation of a new rule, the rule
 * table's create/update/delete, the current system values a rule is
 * compared with, the trigger rule and the alert message.
 *
 * Thresholds and current values are reals; the number formatting of the
 * message (strconv.FormatFloat with one decimal) is a parameter.
 */
module Alerts {
  import opened Text
  import Temperature
  import Storage
  import SystemInfo

  /** A rule as the JSON body gives it; omitted fields are "" / 0 / false. */
  datatype RuleInput = RuleInput(name: string, condition: string, threshold: real,
                                 comparison: string, severity: string, active: bool)

  /** A stored alert_rules row. */
  datatype Rule = Rule(name: string, condition: string, threshold: real, comparison: string,
                       severity: string, active: bool, createdBy: Option<int>)

  predicate ValidCondition(c: string) {
    c == "cpu" || c == "memory" || c == "disk" || c == "temperature" || c == "swap"
  }

  predicate ValidComparison(c: string) { c == "gt" || c == "lt" || c == "eq" }

  predicate ValidSeverity(s: string) { s == "info" || s == "warning" || s == "critical" }

  function OrDefault(s: string, default: string): string { if s == "" then default else s }

  /**
   * CreateAlertRuleHandler's checks, in order: name, condition present,
   * condition known, comparison (empty means gt), severity (empty means
   * warning). On success the rule with its defaults filled in.
   */
  function Validate(input: RuleInput): (r: Result<RuleInput>)
    ensures r.Ok? <==> (input.name != "" && ValidCondition(input.condition)
      && ValidComparison(OrDefault(input.comparison, "gt")) && ValidSeverity(OrDefault(input.severity, "warning")))
    ensures r.Ok? ==> r.value == input.(comparison := OrDefault(input.comparison, "gt"), severity := OrDefault(input.severity, "warning"))
    ensures input.name == "" ==> r == Err("Name is required")
    ensures input.name != "" && input.condition == "" ==> r == Err("Condition type is required")
    ensures input.name != "" && input.condition != "" && !ValidCondition(input.condition) ==> r == Err("Invalid condition type")
  {
    if input.name == "" then Err("Name is required")
    else if input.condition == "" then Err("Condition type is required")
    else if !ValidCondition(input.condition) then Err("Invalid condition type")
    else
      var comparison := OrDefault(input.comparison, "gt");
      if !ValidComparison(comparison) then Err("Invalid comparison")
      else
        var severity := OrDefault(input.severity, "warning");
        if !ValidSeverity(severity) then Err("Invalid severity")
        else Ok(input.(comparison := comparison, severity := severity))
  }

  /** A validated rule is valid on every field, and validating it again changes nothing. */
  lemma ValidateIdempotent(input: RuleInput)
    requires Validate(input).Ok?
    ensures var v := Validate(input).value;
      ValidCondition(v.condition) && ValidComparison(v.comparison) && ValidSeverity(v.severity)
      && Validate(v) == Ok(v)
  {
  }

  /** The row an update writes: every column from the body, is_active included. */
  function Updated(r: Rule, input: RuleInput): Rule {
    r.(name := input.name, condition := input.condition, threshold := input.threshold,
       comparison := input.comparison, severity := input.severity, active := input.active)
  }

  /**
   * UpdateAlertRuleHandler as written: 404 whenever the UPDATE reports
   * zero affected rows. MySQL reports the rows it changed (the DSN does not
   * ask for found rows), so an update that rewrites a rule with its own
   * values is answered "Rule not found".
   */
  function UpdateReplyAsWritten(rules: map<int, Rule>, id: int, input: RuleInput): (reply: Reply)
    ensures reply.code == 404 <==> id !in rules || Updated(rules[id], input) == rules[id]
    ensures reply.code != 404 ==> reply == OK
  {
    var changed := if id in rules && Updated(rules[id], input) != rules[id] then 1 else 0;
    if changed == 0 then Reply(404, "Rule not found") else OK
  }

  /** The intended reply: 404 exactly when no rule has the id. */
  function UpdateReply(rules: map<int, Rule>, id: int): (reply: Reply)
    ensures reply.code == 404 <==> id !in rules
  {
    if id in rules then OK else Reply(404, "Rule not found")
  }

  /** Saving a rule unchanged: the code as written answers 404 although the rule exists. */
  lemma UnchangedUpdateNotFound(rules: map<int, Rule>, id: int, input: RuleInput)
    requires id in rules
    requires Updated(rules[id], input) == rules[id]
    ensures UpdateReplyAsWritten(rules, id, input) == Reply(404, "Rule not found")
    ensures UpdateReply(rules, id) == OK
  {
  }

  /** The two agree whenever the update changes the row or the id is missing. */
  lemma UpdateRepliesAgree(rules: map<int, Rule>, id: int, input: RuleInput)
    requires id !in rules || Updated(rules[id], input) != rules[id]
    ensures UpdateReplyAsWritten(rules, id, input) == UpdateReply(rules, id)
  {
  }

  /** The alert_rules table. */
  class AlertStore {
    var rules: map<int, Rule>
    var nextId: int

    ghost predicate Valid()
      reads this
    {
      forall id :: id in rules ==> id < nextId
    }

    constructor ()
      ensures Valid() && rules == map[]
    {
      rules := map[];
      nextId := 1;
    }

    /**
     * CreateAlertRuleHandler: 401 without a session user, 400 for an
     * undecodable body or a failed check, 500 when the connection or the
     * INSERT fails (`dbOk` false), otherwise the rule is stored active,
     * owned by the session user, under a fresh id.
     */
    method Create(userId: Option<int>, body: Option<RuleInput>, dbOk: bool) returns (reply: Reply, ruleId: Option<int>)
      requires Valid()
      modifies this`rules, this`nextId
      ensures Valid()
      ensures userId.None? ==> reply == Reply(401, "Unauthorized") && ruleId.None? && rules == old(rules)
      ensures userId.Some? && body.None? ==> reply == Reply(400, "Invalid request body") && ruleId.None? && rules == old(rules)
      ensures userId.Some? && body.Some? && Validate(body.value).Err? ==>
        reply == Reply(400, Validate(body.value).error) && ruleId.None? && rules == old(rules)
      ensures userId.Some? && body.Some? && Validate(body.value).Ok? && !dbOk ==>
        reply == DatabaseError && ruleId.None? && rules == old(rules)
      ensures userId.Some? && body.Some? && Validate(body.value).Ok? && dbOk ==>
        var v := Validate(body.value).value;
        reply == OK && ruleId == Some(old(nextId)) && old(nextId) !in old(rules)
        && rules == old(rules)[old(nextId) := Rule(v.name, v.condition, v.threshold, v.comparison, v.severity, true, userId)]
    {
      ruleId := None;
      if userId.None? {
        return Reply(401, "Unauthorized"), None;
      }
      if body.None? {
        return Reply(400, "Invalid request body"), None;
      }
      var checked := Validate(body.value);
      if checked.Err? {
        return Reply(400, checked.error), None;
      }
      if !dbOk {
        return DatabaseError, None;
      }
      var v := checked.value;
      ruleId := Some(nextId);
      rules := rules[nextId := Rule(v.name, v.condition, v.threshold, v.comparison, v.severity, true, userId)];
      nextId := nextId + 1;
      reply := OK;
    }

    /**
     * UpdateAlertRuleHandler: the id must be an integer and the body must
     * decode; a failed connection or UPDATE is 500 without change; the
     * body is written without further checks. The reply is the
     * code's, from the changed-row count, when `asWritten` holds, otherwise
     * the corrected one.
     */
    method Update(idText: string, body: Option<RuleInput>, dbOk: bool, asWritten: bool) returns (reply: Reply)
      requires Valid()
      modifies this`rules
      ensures Valid()
      ensures Atoi(idText).None? ==> reply == Reply(400, "Invalid rule ID") && rules == old(rules)
      ensures Atoi(idText).Some? && body.None? ==> reply == Reply(400, "Invalid request body") && rules == old(rules)
      ensures Atoi(idText).Some? && body.Some? && !dbOk ==> reply == DatabaseError && rules == old(rules)
      ensures Atoi(idText).Some? && body.Some? && dbOk ==>
        var id := Atoi(idText).value;
        reply == (if asWritten then UpdateReplyAsWritten(old(rules), id, body.value) else UpdateReply(old(rules), id))
        && rules == if id in old(rules) then old(rules)[id := Updated(old(rules)[id], body.value)] else old(rules)
    {
      var id := Atoi(idText);
      if id.None? {
        return Reply(400, "Invalid rule ID");
      }
      if body.None? {
        return Reply(400, "Invalid request body");
      }
      if !dbOk {
        return DatabaseError;
      }
      reply := if asWritten then UpdateReplyAsWritten(rules, id.value, body.value) else UpdateReply(rules, id.value);
      if id.value in rules {
        rules := rules[id.value := Updated(rules[id.value], body.value)];
      }
    }

    /**
     * DeleteAlertRuleHandler: 400 for a non-integer id, 500 when the
     * connection or the DELETE fails, 404 when no row is deleted.
     */
    method Delete(idText: string, dbOk: bool) returns (reply: Reply)
      requires Valid()
      modifies this`rules
      ensures Valid()
      ensures Atoi(idText).None? ==> reply == Reply(400, "Invalid rule ID") && rules == old(rules)
      ensures Atoi(idText).Some? && !dbOk ==> reply == DatabaseError && rules == old(rules)
      ensures Atoi(idText).Some? && dbOk && Atoi(idText).value !in old(rules) ==>
        reply == Reply(404, "Rule not found") && rules == old(rules)
      ensures Atoi(idText).Some? && dbOk && Atoi(idText).value in old(rules) ==>
        reply == OK && rules == old(rules) - {Atoi(idText).value}
    {
      var id := Atoi(idText);
      if id.None? {
        return Reply(400, "Invalid rule ID");
      }
      if !dbOk {
        return DatabaseError;
      }
      if id.value !in rules {
        return Reply(404, "Rule not found");
      }
      rules := rules - {id.value};
      reply := OK;
    }
  }

  // ------------------------------------------------------------------ current values

  /** The values getCurrentSystemValues puts in its map; None where it sets no entry. */
  datatype SystemValues = SystemValues(cpu: Option<real>, memory: Option<real>, swap: Option<real>,
                                       disk: Option<real>, temperature: real)

  /** The map lookup stats[rule.ConditionType]. */
  function ValueFor(v: SystemValues, condition: string): (r: Option<real>)
    ensures condition == "temperature" ==> r == Some(v.temperature)
    ensures !ValidCondition(condition) ==> r.None?
  {
    if condition == "cpu" then v.cpu
    else if condition == "memory" then v.memory
    else if condition == "swap" then v.swap
    else if condition == "disk" then v.disk
    else if condition == "temperature" then Some(v.temperature)
    else None
  }

  /** The cpu value: the one-minute load per core as a percentage, at most 100, only with a positive core count. */
  function CpuValue(load1: Option<real>, cores: Option<int>): (r: Option<real>)
    ensures r.Some? <==> load1.Some? && cores.Some? && cores.value > 0
    ensures r.Some? ==> r.value <= 100.0
    ensures r.Some? && load1.value / cores.value as real * 100.0 <= 100.0 ==> r.value == load1.value / cores.value as real * 100.0
    ensures r.Some? && load1.value / cores.value as real * 100.0 > 100.0 ==> r.value == 100.0
  {
    if load1.Some? && cores.Some? && cores.value > 0 then
      var pct := load1.value / cores.value as real * 100.0;
      Some(if pct > 100.0 then 100.0 else pct)
    else None
  }

  /** The usage of the first partition mounted at "/", if any. */
  function RootUsage(parts: seq<Storage.Partition>): (r: Option<real>)
    ensures r.Some? <==> exists k :: 0 <= k < |parts| && parts[k].mountPoint == "/"
    decreases |parts|
  {
    if parts == [] then None
    else if parts[0].mountPoint == "/" then Some(parts[0].usage)
    else
      var rest := RootUsage(parts[1..]);
      assert forall k :: 1 <= k < |parts| ==> parts[k] == parts[1..][k - 1];
      rest
  }

  /** A reading in degrees. */
  function Celsius(r: Temperature.Reading): real { r.milli as real / 1000.0 }

  /** The root partition loop, stopping at the first "/". */
  method RootDiskUsage(parts: seq<Storage.Partition>) returns (usage: Option<real>)
    ensures usage == RootUsage(parts)
    ensures usage.Some? ==> exists k :: (0 <= k < |parts| && parts[k].mountPoint == "/" && parts[k].usage == usage.value
      && forall j :: 0 <= j < k ==> parts[j].mountPoint != "/")
  {
    usage := None;
    var i := 0;
    while i < |parts|
      invariant 0 <= i <= |parts|
      invariant RootUsage(parts) == RootUsage(parts[i..])
      invariant forall j :: 0 <= j < i ==> parts[j].mountPoint != "/"
    {
      assert parts[i..][1..] == parts[i + 1..];
      if parts[i].mountPoint == "/" {
        usage := Some(parts[i].usage);
        return;
      }
      i := i + 1;
    }
  }

  /** The running maximum over the thermal-zone readings and then the hwmon readings, starting from 0. */
  method MaxTemperature(zones: seq<Temperature.Reading>, hwmon: seq<Temperature.Reading>) returns (m: real)
    ensures m >= 0.0
    ensures forall k :: 0 <= k < |zones| ==> Celsius(zones[k]) <= m
    ensures forall k :: 0 <= k < |hwmon| ==> Celsius(hwmon[k]) <= m
    ensures m == 0.0 || (exists k :: 0 <= k < |zones| && Celsius(zones[k]) == m)
      || (exists k :: 0 <= k < |hwmon| && Celsius(hwmon[k]) == m)
  {
    m := 0.0;
    for i := 0 to |zones|
      invariant m >= 0.0
      invariant forall k :: 0 <= k < i ==> Celsius(zones[k]) <= m
      invariant m == 0.0 || exists k :: 0 <= k < i && Celsius(zones[k]) == m
    {
      if Celsius(zones[i]) > m {
        m := Celsius(zones[i]);
      }
    }
    for i := 0 to |hwmon|
      invariant m >= 0.0
      invariant forall k :: 0 <= k < |zones| ==> Celsius(zones[k]) <= m
      invariant forall k :: 0 <= k < i ==> Celsius(hwmon[k]) <= m
      invariant m == 0.0 || (exists k :: 0 <= k < |zones| && Celsius(zones[k]) == m)
        || (exists k :: 0 <= k < i && Celsius(hwmon[k]) == m)
    {
      if Celsius(hwmon[i]) > m {
        m := Celsius(hwmon[i]);
      }
    }
  }

  /**
   * getCurrentSystemValues: cpu from the load average, memory and swap
   * usage, the root partition's usage and the highest temperature.
   */
  method CurrentValues(load1: Option<real>, cores: Option<int>, memory: SystemInfo.Memory, swap: SystemInfo.Swap,
                       parts: seq<Storage.Partition>, zones: seq<Temperature.Reading>, hwmon: seq<Temperature.Reading>)
    returns (v: SystemValues)
    ensures v.cpu == CpuValue(load1, cores) && v.memory == memory.usage && v.swap == Some(swap.usage)
    ensures v.disk == RootUsage(parts)
    ensures v.temperature >= 0.0
    ensures forall k :: 0 <= k < |zones| ==> Celsius(zones[k]) <= v.temperature
    ensures forall k :: 0 <= k < |hwmon| ==> Celsius(hwmon[k]) <= v.temperature
  {
    var disk := RootDiskUsage(parts);
    var temperature := MaxTemperature(zones, hwmon);
    v := SystemValues(CpuValue(load1, cores), memory.usage, Some(swap.usage), disk, temperature);
  }

  // ------------------------------------------------------------------ triggering

  /** The trigger rule: gt, lt and eq compare; any other comparison never fires. */
  predicate Fires(comparison: string, current: real, threshold: real) {
    if comparison == "gt" then current > threshold
    else if comparison == "lt" then current < threshold
    else if comparison == "eq" then current == threshold
    else false
  }

  /** For a given value, exactly one of the three comparisons holds against a threshold. */
  lemma ExactlyOneComparison(current: real, threshold: real)
    ensures Fires("gt", current, threshold) || Fires("lt", current, threshold) || Fires("eq", current, threshold)
    ensures !(Fires("gt", current, threshold) && Fires("lt", current, threshold))
    ensures !(Fires("gt", current, threshold) && Fires("eq", current, threshold))
    ensures !(Fires("lt", current, threshold) && Fires("eq", current, threshold))
  {
  }

  function ComparisonText(comparison: string): string {
    if comparison == "gt" then "exceeded"
    else if comparison == "lt" then "fell below"
    else if comparison == "eq" then "equals"
    else ""
  }

  function TypeText(condition: string): string {
    if condition == "cpu" then "CPU usage"
    else if condition == "memory" then "Memory usage"
    else if condition == "disk" then "Disk usage"
    else if condition == "swap" then "Swap usage"
    else if condition == "temperature" then "Temperature"
    else condition
  }

  function Unit(condition: string): (u: string)
    ensures u == "°C" <==> condition == "temperature"
  {
    if condition == "temperature" then "°C" else "%"
  }

  /** formatAlertMessage, with the two numbers already formatted. */
  function Message(condition: string, comparison: string, current: string, threshold: string): (m: string)
    ensures HasPrefix(m, TypeText(condition) + " " + ComparisonText(comparison) + " threshold: ")
  {
    TypeText(condition) + " " + ComparisonText(comparison) + " threshold: " + current + Unit(condition)
      + " (threshold: " + threshold + Unit(condition) + ")"
  }

  /** For the same rule type and numbers, the three comparisons give three different messages. */
  lemma MessagesDistinguishComparisons(condition: string, c1: string, c2: string, current: string, threshold: string)
    requires ValidComparison(c1) && ValidComparison(c2) && c1 != c2
    ensures Message(condition, c1, current, threshold) != Message(condition, c2, current, threshold)
  {
    var p := TypeText(condition) + " ";
    var t1, t2 := ComparisonText(c1), ComparisonText(c2);
    var m1, m2 := Message(condition, c1, current, threshold), Message(condition, c2, current, threshold);
    ComparisonTextsDiffer(c1, c2);
    assert m1[|p|..|p| + 2] == t1[..2] by { assert HasPrefix(m1, p + t1); }
    assert m2[|p|..|p| + 2] == t2[..2] by { assert HasPrefix(m2, p + t2); }
  }

  /** The three comparison words already differ in their first two letters. */
  lemma ComparisonTextsDiffer(c1: string, c2: string)
    requires ValidComparison(c1) && ValidComparison(c2) && c1 != c2
    ensures |ComparisonText(c1)| >= 2 && |ComparisonText(c2)| >= 2
    ensures ComparisonText(c1)[..2] != ComparisonText(c2)[..2]
  {
    assert "exceeded"[1] == 'x' && "fell below"[0] == 'f' && "equals"[1] == 'q';
  }

  datatype ActiveAlert = ActiveAlert(ruleId: int, ruleName: string, condition: string, severity: string,
                                     current: real, threshold: real, comparison: string, message: string)

  /** A row of the active-rules query. */
  datatype RuleRow = RuleRow(id: int, rule: Rule)

  /** The alert a rule raises against the current values, if any. */
  function AlertFor(row: RuleRow, v: SystemValues, fmt: real -> string): (a: Option<ActiveAlert>)
    ensures a.Some? <==> (row.rule.active && ValueFor(v, row.rule.condition).Some?
      && Fires(row.rule.comparison, ValueFor(v, row.rule.condition).value, row.rule.threshold))
    ensures a.Some? ==> (a.value.ruleId == row.id && a.value.current == ValueFor(v, row.rule.condition).value
      && a.value.threshold == row.rule.threshold && a.value.severity == row.rule.severity)
  {
    var r := row.rule;
    var current := ValueFor(v, r.condition);
    if !r.active || current.None? || !Fires(r.comparison, current.value, r.threshold) then None
    else Some(ActiveAlert(row.id, r.name, r.condition, r.severity, current.value, r.threshold, r.comparison,
                          Message(r.condition, r.comparison, fmt(current.value), fmt(r.threshold))))
  }

  function Alerts(rows: seq<RuleRow>, v: SystemValues, fmt: real -> string): seq<ActiveAlert>
    decreases |rows|
  {
    if rows == [] then []
    else
      var a := AlertFor(rows[|rows| - 1], v, fmt);
      Alerts(rows[..|rows| - 1], v, fmt) + (if a.Some? then [a.value] else [])
  }

  /** GetActiveAlertsHandler's loop over the active rules. */
  method ActiveAlerts(rows: seq<RuleRow>, v: SystemValues, fmt: real -> string) returns (alerts: seq<ActiveAlert>)
    ensures alerts == Alerts(rows, v, fmt)
  {
    alerts := [];
    for i := 0 to |rows|
      invariant alerts == Alerts(rows[..i], v, fmt)
    {
      assert rows[..i + 1][..i] == rows[..i];
      var a := AlertFor(rows[i], v, fmt);
      if a.Some? {
        alerts := alerts + [a.value];
      }
    }
    assert rows[..|rows|] == rows;
  }

  /** The alerts of a list of rules are the alerts of its parts, in order. */
  lemma {:induction false} AlertsAppend(xs: seq<RuleRow>, ys: seq<RuleRow>, v: SystemValues, fmt: real -> string)
    ensures Alerts(xs + ys, v, fmt) == Alerts(xs, v, fmt) + Alerts(ys, v, fmt)
    decreases |ys|
  {
    if ys == [] {
      assert xs + ys == xs;
    } else {
      var ys' := ys[..|ys| - 1];
      AlertsAppend(xs, ys', v, fmt);
      assert (xs + ys)[..|xs + ys| - 1] == xs + ys';
      assert (xs + ys)[|xs + ys| - 1] == ys[|ys| - 1];
    }
  }

  /** A single rule raises an alert exactly when it is active, has a value and its comparison fires. */
  lemma AlertsSingle(row: RuleRow, v: SystemValues, fmt: real -> string)
    ensures |Alerts([row], v, fmt)| == 1 <==> (row.rule.active && ValueFor(v, row.rule.condition).Some?
      && Fires(row.rule.comparison, ValueFor(v, row.rule.condition).value, row.rule.threshold))
    ensures |Alerts([row], v, fmt)| <= 1
  {
    assert [row][..0] == [];
  }

  /** A rule on an unknown condition type never raises an alert. */
  lemma UnknownConditionSilent(row: RuleRow, v: SystemValues, fmt: real -> string)
    requires !ValidCondition(row.rule.condition)
    ensures Alerts([row], v, fmt) == []
  {
    assert [row][..0] == [];
  }
}
