/**
 * `check_webups` and the hours, fan and voltage wrappers: find the item's sensor, then
 * choose where its levels come from, filling a missing embedded bound in place.
 */
module Check {
  import opened Wrappers
  import opened SensorTypes
  import opened Section
  import opened Discovery

  /** The result states the plugin sets itself. */
  datatype State = OK | WARN

  /**
   * A value of the check's parameters: a pair of levels, a word (such as an output unit),
   * or any other setting the plugin only passes on or tests for presence.
   */
  datatype ParamValue = Pair(warn: real, crit: real) | Word(s: string) | Setting(id: int)

  type Params = map<string, ParamValue>

  /** `params[key]` if the key is present, else None. */
  function Get(params: Params, key: string): Option<ParamValue> {
    if key in params then Some(params[key]) else None
  }

  /** The arguments of one `check_levels` call; the framework function itself is not modelled. */
  datatype LevelsCall = LevelsCall(value: real, levelsLower: Option<ParamValue>,
                                   levelsUpper: Option<ParamValue>, metricName: string)

  /** What the check yields, in order. */
  datatype Output =
    | Verdict(state: State, summary: string)   // a Result the plugin builds itself
    | Metric(name: string, value: real)        // a Metric the plugin builds itself
    | LevelsMetric(call: LevelsCall)           // the metric `check_levels` returns for the call
    | LevelsVerdict(call: LevelsCall)          // the result `check_levels` returns for the call

  const NoInput := "No input delivered by sensors command"
  const AlwaysOk := "Always Ok"

  /** The degenerate single-bound case: the missing bound takes the present one's value. */
  function Filled(s: SensorRec): SensorRec {
    if s.critValue.None? then s.(critValue := s.warnValue)
    else if s.warnValue.None? then s.(warnValue := s.critValue)
    else s
  }

  /** What checking one sensor yields, and the sensor record afterwards. */
  datatype Evaluation = Evaluation(outputs: seq<Output>, sensor: SensorRec)

  /**
   * The decision for the item's sensor. Only the bounds can change, and they change
   * exactly when the value is present, the parameters are empty and exactly one bound is
   * set; both bounds then equal that one. A single WARN "No input" comes exactly when the
   * value is missing.
   */
  function Evaluate(s: SensorRec, params: Params, upperKey: string, lowerKey: string, metricName: string): (r: Evaluation)
    ensures r.sensor.name == s.name && r.sensor.sensorType == s.sensorType && r.sensor.value == s.value
    ensures r.sensor != s <==> s.value.Some? && params == map[] && (s.warnValue.None? != s.critValue.None?)
    ensures r.sensor != s ==>
              r.sensor.warnValue == r.sensor.critValue &&
              r.sensor.warnValue == if s.warnValue.Some? then s.warnValue else s.critValue
    ensures s.value.None? <==> r.outputs == [Verdict(WARN, NoInput)]
    ensures s.value.Some? ==> |r.outputs| == 2
  {
    if s.value.None? then Evaluation([Verdict(WARN, NoInput)], s)
    else if params != map[] then
      var call := LevelsCall(s.value.value, Get(params, lowerKey), Get(params, upperKey), metricName);
      Evaluation([LevelsMetric(call), LevelsVerdict(call)], s)
    else if s.critValue.Some? || s.warnValue.Some? then
      var f := Filled(s);
      var call := LevelsCall(s.value.value, None, Some(Pair(f.warnValue.value, f.critValue.value)), metricName);
      Evaluation([LevelsMetric(call), LevelsVerdict(call)], f)
    else
      Evaluation([Verdict(OK, AlwaysOk), Metric(metricName, s.value.value)], s)
  }

  /**
   * Threshold priority, first tier: with non-empty parameters the levels are the
   * parameters' own entries (None where absent), the metric comes before the result, and
   * the embedded bounds play no part.
   */
  lemma ParamsDecide(s: SensorRec, params: Params, upperKey: string, lowerKey: string, metricName: string)
    requires s.value.Some? && params != map[]
    ensures var call := LevelsCall(s.value.value, Get(params, lowerKey), Get(params, upperKey), metricName);
            Evaluate(s, params, upperKey, lowerKey, metricName) == Evaluation([LevelsMetric(call), LevelsVerdict(call)], s)
  {
  }

  /** With non-empty parameters, two sensors that differ only in their bounds yield the same. */
  lemma ParamsIgnoreBounds(s: SensorRec, s': SensorRec, params: Params, upperKey: string, lowerKey: string, metricName: string)
    requires params != map[] && s'.name == s.name && s'.sensorType == s.sensorType && s'.value == s.value
    ensures Evaluate(s, params, upperKey, lowerKey, metricName).outputs ==
            Evaluate(s', params, upperKey, lowerKey, metricName).outputs
  {
  }

  /**
   * Second tier: with empty parameters and some embedded bound, the upper levels are
   * (warn, crit) with a missing one taken from the other, and there are no lower levels.
   */
  lemma EmbeddedBoundsDecide(s: SensorRec, upperKey: string, lowerKey: string, metricName: string)
    requires s.value.Some? && (s.warnValue.Some? || s.critValue.Some?)
    ensures var w := if s.warnValue.Some? then s.warnValue.value else s.critValue.value;
            var c := if s.critValue.Some? then s.critValue.value else s.warnValue.value;
            var call := LevelsCall(s.value.value, None, Some(Pair(w, c)), metricName);
            Evaluate(s, map[], upperKey, lowerKey, metricName) ==
              Evaluation([LevelsMetric(call), LevelsVerdict(call)], s.(warnValue := Some(w), critValue := Some(c)))
  {
  }

  /** Third tier: no parameters and no bounds is "Always Ok" followed by the value as a metric. */
  lemma NoLevelsAlwaysOk(s: SensorRec, upperKey: string, lowerKey: string, metricName: string)
    requires s.value.Some? && s.warnValue.None? && s.critValue.None?
    ensures Evaluate(s, map[], upperKey, lowerKey, metricName).outputs ==
            [Verdict(OK, AlwaysOk), Metric(metricName, s.value.value)]
  {
  }

  predicate NamedAt(chips: seq<ChipRec>, p: Pos, item: string) {
    ValidPos(chips, p) && ServiceName(chips[p.chip].adapter, chips[p.chip].sensors[p.sensor].name) == item
  }

  /** Section order: chip by chip, sensor by sensor. */
  predicate Before(p: Pos, q: Pos) {
    p.chip < q.chip || (p.chip == q.chip && p.sensor < q.sensor)
  }

  /** The first sensor at or after `j` in one chip whose item is `item`. */
  function FindFrom(adapter: string, sensors: seq<SensorRec>, item: string, j: nat): (r: Option<nat>)
    requires j <= |sensors|
    ensures r.Some? ==> j <= r.value < |sensors| && ServiceName(adapter, sensors[r.value].name) == item &&
                        forall k :: j <= k < r.value ==> ServiceName(adapter, sensors[k].name) != item
    ensures r.None? ==> forall k :: j <= k < |sensors| ==> ServiceName(adapter, sensors[k].name) != item
    decreases |sensors| - j
  {
    if j == |sensors| then None
    else if ServiceName(adapter, sensors[j].name) == item then Some(j)
    else FindFrom(adapter, sensors, item, j + 1)
  }

  /** The first position at or after chip `i` whose item is `item`. */
  function LocateFrom(chips: seq<ChipRec>, item: string, i: nat): (r: Option<Pos>)
    requires i <= |chips|
    ensures r.Some? ==> r.value.chip >= i && NamedAt(chips, r.value, item) &&
                        forall q: Pos :: q.chip >= i && Before(q, r.value) ==> !NamedAt(chips, q, item)
    ensures r.None? ==> forall q: Pos :: q.chip >= i ==> !NamedAt(chips, q, item)
    decreases |chips| - i
  {
    if i == |chips| then None
    else
      match FindFrom(chips[i].adapter, chips[i].sensors, item, 0)
      case Some(j) => Some(Pos(i, j))
      case None => LocateFrom(chips, item, i + 1)
  }

  /** The sensor `check_webups` acts on: the first, in section order, whose item is `item`. */
  function Locate(chips: seq<ChipRec>, item: string): (r: Option<Pos>)
    ensures r.Some? ==> NamedAt(chips, r.value, item) && forall q :: Before(q, r.value) ==> !NamedAt(chips, q, item)
    ensures r.None? ==> forall q :: !NamedAt(chips, q, item)
  {
    LocateFrom(chips, item, 0)
  }

  /** The first matching position is unique: anything with Locate's properties is Locate's result. */
  lemma LocateUnique(chips: seq<ChipRec>, item: string, r: Option<Pos>)
    requires r.Some? ==> NamedAt(chips, r.value, item) && forall q :: Before(q, r.value) ==> !NamedAt(chips, q, item)
    requires r.None? ==> forall q :: !NamedAt(chips, q, item)
    ensures r == Locate(chips, item)
  {
    var l := Locate(chips, item);
    if r.Some? && l.Some? {
      assert !Before(r.value, l.value) && !Before(l.value, r.value);
    }
  }

  /** What `check_webups` yields, and the section's value afterwards. */
  datatype CheckRun = CheckRun(outputs: seq<Output>, chips: seq<ChipRec>)

  /** The check on the section's value: Evaluate on the first matching sensor, written back in place. */
  function CheckSection(item: string, params: Params, chips: seq<ChipRec>,
                        upperKey: string, lowerKey: string, metricName: string): CheckRun
  {
    match Locate(chips, item)
    case None => CheckRun([], chips)
    case Some(p) =>
      var e := Evaluate(chips[p.chip].sensors[p.sensor], params, upperKey, lowerKey, metricName);
      CheckRun(e.outputs, UpdateAt(chips, p, e.sensor))
  }

  /**
   * The check yields something exactly when some sensor has the item, and it changes at
   * most the record of the first such sensor, and only its bounds.
   */
  lemma CheckSectionTouchesOnlyMatch(item: string, params: Params, chips: seq<ChipRec>,
                                     upperKey: string, lowerKey: string, metricName: string)
    ensures var run := CheckSection(item, params, chips, upperKey, lowerKey, metricName);
            (run.outputs == [] <==> forall q :: !NamedAt(chips, q, item)) &&
            |run.chips| == |chips| &&
            forall i :: 0 <= i < |chips| ==>
              run.chips[i].name == chips[i].name && run.chips[i].adapter == chips[i].adapter &&
              |run.chips[i].sensors| == |chips[i].sensors| &&
              forall j :: 0 <= j < |chips[i].sensors| ==>
                var a := run.chips[i].sensors[j];
                var b := chips[i].sensors[j];
                a.name == b.name && a.sensorType == b.sensorType && a.value == b.value &&
                (a != b ==> Locate(chips, item) == Some(Pos(i, j)))
  {
    if Locate(chips, item).Some? {
      var p := Locate(chips, item).value;
      var e := Evaluate(chips[p.chip].sensors[p.sensor], params, upperKey, lowerKey, metricName);
      assert e.outputs != [];
    }
  }

  /** Two sections equal in everything but their sensors' bounds. */
  predicate AlikeButBounds(chips: seq<ChipRec>, chips': seq<ChipRec>) {
    |chips| == |chips'| &&
    forall i :: 0 <= i < |chips| ==>
      chips[i].adapter == chips'[i].adapter && |chips[i].sensors| == |chips'[i].sensors| &&
      forall j :: 0 <= j < |chips[i].sensors| ==>
        chips[i].sensors[j].name == chips'[i].sensors[j].name &&
        chips[i].sensors[j].sensorType == chips'[i].sensors[j].sensorType &&
        chips[i].sensors[j].value == chips'[i].sensors[j].value
  }

  /** With non-empty parameters, sections that differ only in their bounds yield the same. */
  lemma ParamsIgnoreSectionBounds(item: string, params: Params, chips: seq<ChipRec>, chips': seq<ChipRec>,
                                  upperKey: string, lowerKey: string, metricName: string)
    requires params != map[] && AlikeButBounds(chips, chips')
    ensures CheckSection(item, params, chips, upperKey, lowerKey, metricName).outputs ==
            CheckSection(item, params, chips', upperKey, lowerKey, metricName).outputs
  {
    forall q: Pos ensures NamedAt(chips, q, item) <==> NamedAt(chips', q, item) {
    }
    LocateUnique(chips', item, Locate(chips, item));
    if Locate(chips, item).Some? {
      var l := Locate(chips, item).value;
      ParamsIgnoreBounds(chips[l.chip].sensors[l.sensor], chips'[l.chip].sensors[l.sensor],
                         params, upperKey, lowerKey, metricName);
    }
  }

  /** An item no sensor has yields nothing and changes nothing. */
  lemma UnknownItemYieldsNothing(item: string, params: Params, chips: seq<ChipRec>,
                                 upperKey: string, lowerKey: string, metricName: string)
    requires forall i, j :: 0 <= i < |chips| && 0 <= j < |chips[i].sensors| ==>
               ServiceName(chips[i].adapter, chips[i].sensors[j].name) != item
    ensures CheckSection(item, params, chips, upperKey, lowerKey, metricName) == CheckRun([], chips)
  {
    LocateUnique(chips, item, None);
  }

  /**
   * A first matching sensor without a value yields exactly one WARN result, no metric,
   * and the section is left as it was.
   */
  lemma MissingValueWarns(item: string, params: Params, chips: seq<ChipRec>,
                          upperKey: string, lowerKey: string, metricName: string, p: Pos)
    requires NamedAt(chips, p, item) && forall q :: Before(q, p) ==> !NamedAt(chips, q, item)
    requires chips[p.chip].sensors[p.sensor].value.None?
    ensures CheckSection(item, params, chips, upperKey, lowerKey, metricName) ==
            CheckRun([Verdict(WARN, NoInput)], chips)
  {
    LocateUnique(chips, item, Some(p));
    UpdateAtSame(chips, p);
  }

  /** Every discovered item is one the check finds a sensor for, so it yields something. */
  lemma DiscoveredItemsAreChecked(chips: seq<ChipRec>, t: SensorType, item: string, params: Params,
                                  upperKey: string, lowerKey: string, metricName: string)
    requires item in Discover(chips, t)
    ensures Locate(chips, item).Some?
    ensures CheckSection(item, params, chips, upperKey, lowerKey, metricName).outputs != []
  {
    DiscoverMembers(chips, t);
    var i, j :| 0 <= i < |chips| && 0 <= j < |chips[i].sensors| &&
                chips[i].sensors[j].sensorType == Some(t) &&
                item == ServiceName(chips[i].adapter, chips[i].sensors[j].name);
    assert NamedAt(chips, Pos(i, j), item);
  }

  /**
   * Degenerate fill: a sensor with warn 30 and no crit, checked without parameters, is
   * compared against (30, 30), and afterwards holds 30 as both bounds, all else unchanged.
   */
  lemma DegenerateFillExample(chips: seq<ChipRec>, p: Pos, item: string, v: real,
                              upperKey: string, lowerKey: string, metricName: string)
    requires NamedAt(chips, p, item) && forall q :: Before(q, p) ==> !NamedAt(chips, q, item)
    requires chips[p.chip].sensors[p.sensor].value == Some(v)
    requires chips[p.chip].sensors[p.sensor].warnValue == Some(30.0)
    requires chips[p.chip].sensors[p.sensor].critValue == None
    ensures var run := CheckSection(item, map[], chips, upperKey, lowerKey, metricName);
            var call := LevelsCall(v, None, Some(Pair(30.0, 30.0)), metricName);
            var s := chips[p.chip].sensors[p.sensor];
            run.outputs == [LevelsMetric(call), LevelsVerdict(call)] &&
            run.chips == UpdateAt(chips, p, s.(critValue := Some(30.0)))
  {
    LocateUnique(chips, item, Some(p));
  }

  /** The search loop of `check_webups`: chips in order, sensors in order, stop at the first match. */
  method FindSensor(section: seq<Chip>, item: string) returns (p: Option<Pos>)
    ensures p == Locate(Snapshot(section), item)
  {
    ghost var snap := Snapshot(section);
    for i := 0 to |section|
      invariant forall q: Pos :: q.chip < i ==> !NamedAt(snap, q, item)
    {
      for j := 0 to |section[i].sensors|
        invariant forall q: Pos :: (q.chip < i || (q.chip == i && q.sensor < j)) ==> !NamedAt(snap, q, item)
      {
        if ServiceName(section[i].adapter, section[i].sensors[j].name) == item {
          p := Some(Pos(i, j));
          assert NamedAt(snap, p.value, item);
          LocateUnique(snap, item, p);
          return;
        }
      }
    }
    p := None;
    LocateUnique(snap, item, p);
  }

  /** The body of `check_webups` once the sensor is found; the bounds are filled in place. */
  method EvaluateSensor(sensor: Sensor, params: Params, upperKey: string, lowerKey: string, metricName: string)
    returns (out: seq<Output>)
    modifies sensor
    ensures var e := Evaluate(old(sensor.Rec()), params, upperKey, lowerKey, metricName);
            out == e.outputs && sensor.Rec() == e.sensor
  {
    if sensor.value.None? {
      return [Verdict(WARN, NoInput)];
    }
    var levelsLower: Option<ParamValue> := None;
    var levelsUpper: Option<ParamValue> := None;
    if params != map[] {
      if upperKey in params {
        levelsUpper := Some(params[upperKey]);
      }
      if lowerKey in params {
        levelsLower := Some(params[lowerKey]);
      }
    } else if sensor.critValue.Some? || sensor.warnValue.Some? {
      if sensor.critValue.None? {
        sensor.critValue := sensor.warnValue;
      } else if sensor.warnValue.None? {
        sensor.warnValue := sensor.critValue;
      }
      levelsUpper := Some(Pair(sensor.warnValue.value, sensor.critValue.value));
    } else {
      return [Verdict(OK, AlwaysOk), Metric(metricName, sensor.value.value)];
    }
    var call := LevelsCall(sensor.value.value, levelsLower, levelsUpper, metricName);
    return [LevelsMetric(call), LevelsVerdict(call)];
  }

  /** Evaluating the sensor at `p` in place changes that sensor's record and no other. */
  method EvaluateAt(section: seq<Chip>, p: Pos, params: Params, upperKey: string, lowerKey: string, metricName: string)
    returns (out: seq<Output>)
    requires Distinct(section) && ValidPos(Snapshot(section), p)
    modifies section[p.chip].sensors[p.sensor]
    ensures var snap := old(Snapshot(section));
            var e := Evaluate(snap[p.chip].sensors[p.sensor], params, upperKey, lowerKey, metricName);
            out == e.outputs && Snapshot(section) == UpdateAt(snap, p, e.sensor)
  {
    ghost var snap := Snapshot(section);
    var sensor := section[p.chip].sensors[p.sensor];
    forall i, j | 0 <= i < |section| && 0 <= j < |section[i].sensors| && Pos(i, j) != p
      ensures section[i].sensors[j] != sensor
    {
    }
    out := EvaluateSensor(sensor, params, upperKey, lowerKey, metricName);
    ghost var e := Evaluate(snap[p.chip].sensors[p.sensor], params, upperKey, lowerKey, metricName);
    SnapshotIs(section, UpdateAt(snap, p, e.sensor));
  }

  /**
   * `check_webups`: what it yields and the section afterwards are those of CheckSection;
   * only the first matching sensor's record is touched.
   */
  method CheckWebups(item: string, params: Params, section: seq<Chip>,
                     upperKey: string, lowerKey: string, metricName: string) returns (out: seq<Output>)
    requires Distinct(section)
    modifies SensorsOf(section)
    ensures var run := CheckSection(item, params, old(Snapshot(section)), upperKey, lowerKey, metricName);
            out == run.outputs && Snapshot(section) == run.chips
  {
    ghost var snap := Snapshot(section);
    var found := FindSensor(section, item);
    assert Snapshot(section) == snap;
    if found.None? {
      assert CheckSection(item, params, snap, upperKey, lowerKey, metricName) == CheckRun([], snap);
      return [];
    }
    var p := found.value;
    ghost var e := Evaluate(snap[p.chip].sensors[p.sensor], params, upperKey, lowerKey, metricName);
    assert CheckSection(item, params, snap, upperKey, lowerKey, metricName) == CheckRun(e.outputs, UpdateAt(snap, p, e.sensor));
    assert section[p.chip].sensors[p.sensor] in SensorsOf(section);
    out := EvaluateAt(section, p, params, upperKey, lowerKey, metricName);
    assert Snapshot(section) == UpdateAt(snap, p, e.sensor);
  }

  method CheckHours(item: string, params: Params, section: seq<Chip>) returns (out: seq<Output>)
    requires Distinct(section)
    modifies SensorsOf(section)
    ensures var run := CheckSection(item, params, old(Snapshot(section)), "levels", "levels_lower", "hours");
            out == run.outputs && Snapshot(section) == run.chips
  {
    out := CheckWebups(item, params, section, "levels", "levels_lower", "hours");
  }

  /** Fans read their upper levels from "upper" and their lower levels from "levels". */
  method CheckFan(item: string, params: Params, section: seq<Chip>) returns (out: seq<Output>)
    requires Distinct(section)
    modifies SensorsOf(section)
    ensures var run := CheckSection(item, params, old(Snapshot(section)), "upper", "levels", "fan_speed");
            out == run.outputs && Snapshot(section) == run.chips
  {
    out := CheckWebups(item, params, section, "upper", "levels", "fan_speed");
  }

  method CheckVolt(item: string, params: Params, section: seq<Chip>) returns (out: seq<Output>)
    requires Distinct(section)
    modifies SensorsOf(section)
    ensures var run := CheckSection(item, params, old(Snapshot(section)), "levels", "levels_lower", "volt");
            out == run.outputs && Snapshot(section) == run.chips
  {
    out := CheckWebups(item, params, section, "levels", "levels_lower", "volt");
  }
}
