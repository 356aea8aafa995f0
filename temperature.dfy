/**
 * `check_webups_temp`: refuse the temperature options the plugin does not support,
 * convert every sensor value of the section to the requested output unit in place, then
 * run the shared check with the temperature keys.
 */
module Temperature {
  import opened Wrappers
  import opened Section
  import opened Check

  /** The exception the wrapper raises for an option it does not support. */
  datatype ConfigError = Unsupported(message: string)

  const TrendMessage := "trend_compute is not supported by webups plugin"
  const DeviceLevelsMessage := "device_levels_handling not supported, webups always uses sensor values of no rule is configured"
  const InputUnitMessage := "input_unit is not supported by webups plugin"

  /**
   * The first unsupported option, tested in the order trend_compute,
   * device_levels_handling, input_unit; None exactly when none of the three is present.
   */
  function Rejected(params: Params): (r: Option<ConfigError>)
    ensures r.None? <==> "trend_compute" !in params && "device_levels_handling" !in params && "input_unit" !in params
    ensures "trend_compute" in params ==> r == Some(Unsupported(TrendMessage))
    ensures "trend_compute" !in params && "device_levels_handling" in params ==> r == Some(Unsupported(DeviceLevelsMessage))
    ensures "trend_compute" !in params && "device_levels_handling" !in params && "input_unit" in params ==>
              r == Some(Unsupported(InputUnitMessage))
  {
    if "trend_compute" in params then Some(Unsupported(TrendMessage))
    else if "device_levels_handling" in params then Some(Unsupported(DeviceLevelsMessage))
    else if "input_unit" in params then Some(Unsupported(InputUnitMessage))
    else None
  }

  /** Sensors report degrees Celsius; the other two are the units the values can be converted to. */
  datatype Unit = Celsius | Fahrenheit | Kelvin

  /** "f" and "k" select a conversion; "c", any other value and no output_unit leave values as they are. */
  function OutputUnit(params: Params): Unit {
    if "output_unit" in params && params["output_unit"] == Word("f") then Fahrenheit
    else if "output_unit" in params && params["output_unit"] == Word("k") then Kelvin
    else Celsius
  }

  /** A Celsius value expressed in the unit. */
  function ToUnit(v: real, u: Unit): real {
    match u
    case Celsius => v
    case Fahrenheit => v * 1.8 + 32.0
    case Kelvin => v + 273.15
  }

  /** The Celsius value a value in the unit stands for. */
  function FromUnit(v: real, u: Unit): real {
    match u
    case Celsius => v
    case Fahrenheit => (v - 32.0) / 1.8
    case Kelvin => v - 273.15
  }

  /** No information is lost: converting back gives the Celsius value again. */
  lemma UnitRoundTrip(v: real, u: Unit)
    ensures FromUnit(ToUnit(v, u), u) == v
  {
  }

  /** Conversion keeps the order of values, so it never swaps which of two readings is higher. */
  lemma UnitMonotone(v: real, w: real, u: Unit)
    ensures v < w <==> ToUnit(v, u) < ToUnit(w, u)
  {
  }

  /** A sensor record in the unit: a present value is converted, a missing one stays missing. */
  function ConvertRec(s: SensorRec, u: Unit): (r: SensorRec)
    ensures s.value.None? ==> r == s
    ensures s.value.Some? ==> r.value.Some?
    ensures r.name == s.name && r.sensorType == s.sensorType && r.warnValue == s.warnValue && r.critValue == s.critValue
  {
    match s.value
    case None => s
    case Some(v) => s.(value := Some(ToUnit(v, u)))
  }

  /** A converted record still determines the Celsius reading it was made from. */
  lemma ConvertRecRoundTrip(s: SensorRec, u: Unit)
    requires s.value.Some?
    ensures FromUnit(ConvertRec(s, u).value.value, u) == s.value.value
  {
    UnitRoundTrip(s.value.value, u);
  }

  /** The section with every sensor record in the unit, and nothing else changed. */
  function ConvertChips(chips: seq<ChipRec>, u: Unit): (r: seq<ChipRec>)
    ensures |r| == |chips|
    ensures forall i :: 0 <= i < |chips| ==>
              r[i].name == chips[i].name && r[i].adapter == chips[i].adapter &&
              |r[i].sensors| == |chips[i].sensors| &&
              forall j :: 0 <= j < |chips[i].sensors| ==> r[i].sensors[j] == ConvertRec(chips[i].sensors[j], u)
  {
    seq(|chips|, i requires 0 <= i < |chips| =>
      chips[i].(sensors := seq(|chips[i].sensors|, j requires 0 <= j < |chips[i].sensors| =>
        ConvertRec(chips[i].sensors[j], u))))
  }

  /** Celsius, the default, leaves the section exactly as it was. */
  lemma CelsiusKeepsSection(chips: seq<ChipRec>)
    ensures ConvertChips(chips, Celsius) == chips
  {
    var r := ConvertChips(chips, Celsius);
    forall i | 0 <= i < |chips| ensures r[i] == chips[i] {
      assert r[i].sensors == chips[i].sensors;
    }
  }

  /** What `check_webups_temp` yields and the section afterwards, or the exception it raises. */
  function CheckTempSection(item: string, params: Params, chips: seq<ChipRec>): (r: Result<CheckRun, ConfigError>)
    ensures r.Failure? <==> Rejected(params).Some?
    ensures r.Failure? ==> r.error == Rejected(params).value
    ensures r.Success? ==>
              r.value == CheckSection(item, params, ConvertChips(chips, OutputUnit(params)), "levels", "levels_lower", "temperature")
  {
    match Rejected(params)
    case Some(e) => Failure(e)
    case None =>
      Success(CheckSection(item, params, ConvertChips(chips, OutputUnit(params)), "levels", "levels_lower", "temperature"))
  }

  /** Conversion touches only values, so sections alike but for their bounds stay alike. */
  lemma ConvertKeepsAlike(chips: seq<ChipRec>, chips': seq<ChipRec>, u: Unit)
    requires AlikeButBounds(chips, chips')
    ensures AlikeButBounds(ConvertChips(chips, u), ConvertChips(chips', u))
  {
  }

  /**
   * Any output_unit makes the parameters non-empty, so the check then never uses the
   * bounds the sensors report: two sections that differ only in those bounds check alike.
   */
  lemma OutputUnitIgnoresEmbeddedBounds(item: string, params: Params, chips: seq<ChipRec>, chips': seq<ChipRec>)
    requires "output_unit" in params && Rejected(params).None?
    requires AlikeButBounds(chips, chips')
    ensures CheckTempSection(item, params, chips).value.outputs ==
            CheckTempSection(item, params, chips').value.outputs
  {
    var u := OutputUnit(params);
    ConvertKeepsAlike(chips, chips', u);
    ParamsIgnoreSectionBounds(item, params, ConvertChips(chips, u), ConvertChips(chips', u),
                              "levels", "levels_lower", "temperature");
  }

  /** 20 degrees Celsius checked with output_unit "f" is compared as 68, with no levels set. */
  lemma FahrenheitExample(chips: seq<ChipRec>, p: Pos, item: string)
    requires NamedAt(chips, p, item) && forall q :: Before(q, p) ==> !NamedAt(chips, q, item)
    requires chips[p.chip].sensors[p.sensor].value == Some(20.0)
    ensures var call := LevelsCall(68.0, None, None, "temperature");
            CheckTempSection(item, map["output_unit" := Word("f")], chips) ==
              Success(CheckRun([LevelsMetric(call), LevelsVerdict(call)], ConvertChips(chips, Fahrenheit)))
  {
    var params := map["output_unit" := Word("f")];
    var a := ConvertChips(chips, Fahrenheit);
    assert OutputUnit(params) == Fahrenheit;
    forall q: Pos ensures NamedAt(a, q, item) <==> NamedAt(chips, q, item) {
    }
    LocateUnique(a, item, Some(p));
    assert a[p.chip].sensors[p.sensor].value == Some(68.0);
    UpdateAtSame(a, p);
  }

  /** The inner conversion loop, over one chip's sensors. */
  method ConvertChip(chip: Chip, u: Unit)
    requires NoDuplicates(chip.sensors)
    modifies set s | s in chip.sensors
    ensures forall j :: 0 <= j < |chip.sensors| ==> chip.sensors[j].Rec() == ConvertRec(old(chip.sensors[j].Rec()), u)
  {
    for j := 0 to |chip.sensors|
      invariant forall j' :: 0 <= j' < |chip.sensors| ==>
                  chip.sensors[j'].Rec() == if j' < j then ConvertRec(old(chip.sensors[j'].Rec()), u) else old(chip.sensors[j'].Rec())
    {
      var sensor := chip.sensors[j];
      if sensor.value == None {
        continue;
      }
      sensor.value := Some(ToUnit(sensor.value.value, u));
    }
  }

  /** One step of the outer conversion loop: chip `i`'s sensors change, no other sensor does. */
  method ConvertChipAt(section: seq<Chip>, i: nat, u: Unit)
    requires Distinct(section) && i < |section|
    modifies set s | s in section[i].sensors
    ensures forall i', j :: 0 <= i' < |section| && 0 <= j < |section[i'].sensors| ==>
              section[i'].sensors[j].Rec() ==
                if i' == i then ConvertRec(old(section[i'].sensors[j].Rec()), u) else old(section[i'].sensors[j].Rec())
  {
    assert NoDuplicates(section[i].sensors);
    forall i', j | 0 <= i' < |section| && i' != i && 0 <= j < |section[i'].sensors|
      ensures section[i'].sensors[j] !in section[i].sensors
    {
      DistinctApart(section, i, i', j);
    }
    ConvertChip(section[i], u);
  }

  /** The conversion loops: every present sensor value of the section is converted in place. */
  method ConvertSection(section: seq<Chip>, u: Unit)
    requires Distinct(section)
    modifies SensorsOf(section)
    ensures Snapshot(section) == ConvertChips(old(Snapshot(section)), u)
    ensures Distinct(section)
  {
    ghost var snap := Snapshot(section);
    for i := 0 to |section|
      invariant forall i' :: 0 <= i' < |section| ==> |snap[i'].sensors| == |section[i'].sensors|
      invariant forall i', j :: 0 <= i' < |section| && 0 <= j < |section[i'].sensors| ==>
                  section[i'].sensors[j].Rec() == if i' < i then ConvertRec(snap[i'].sensors[j], u) else snap[i'].sensors[j]
    {
      ConvertChipAt(section, i, u);
    }
    SnapshotIs(section, ConvertChips(snap, u));
  }

  /** The "output_unit" branch: the values are converted in place for "f" and "k" only. */
  method ConvertOutputUnit(params: Params, section: seq<Chip>) returns (u: Unit)
    requires Distinct(section)
    modifies SensorsOf(section)
    ensures u == OutputUnit(params)
    ensures Snapshot(section) == ConvertChips(old(Snapshot(section)), u)
    ensures Distinct(section)
  {
    u := OutputUnit(params);
    if u != Celsius {
      ConvertSection(section, u);
    } else {
      CelsiusKeepsSection(Snapshot(section));
    }
  }

  /**
   * `check_webups_temp`: an unsupported option raises before anything changes; otherwise
   * the values are converted (only for "f" and "k") and the shared check runs on the result.
   */
  method CheckTemp(item: string, params: Params, section: seq<Chip>) returns (r: Result<seq<Output>, ConfigError>)
    requires Distinct(section)
    modifies SensorsOf(section)
    ensures var t := CheckTempSection(item, params, old(Snapshot(section)));
            (t.Failure? ==> r == Failure(t.error) && Snapshot(section) == old(Snapshot(section))) &&
            (t.Success? ==> r == Success(t.value.outputs) && Snapshot(section) == t.value.chips)
  {
    ghost var snap := Snapshot(section);
    var rejected := Rejected(params);
    if rejected.Some? {
      return Failure(rejected.value);
    }
    var u := ConvertOutputUnit(params, section);
    ghost var converted := ConvertChips(snap, u);
    var out := CheckWebups(item, params, section, "levels", "levels_lower", "temperature");
    assert CheckTempSection(item, params, snap) ==
           Success(CheckSection(item, params, converted, "levels", "levels_lower", "temperature"));
    r := Success(out);
  }
}
