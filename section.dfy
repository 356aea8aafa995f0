/**
 * The parsed section: `Sensor` and `Chip` records, which the check functions update in
 * place, and their value snapshots, in which the specifications are written.
 */
module Section {
  import opened Wrappers
  import opened SensorTypes

  /** The value a `Sensor` record holds at one moment. */
  datatype SensorRec = SensorRec(
    name: string,
    sensorType: Option<SensorType>,
    value: Option<real>,
    critValue: Option<real>,
    warnValue: Option<real>)

  /** The value a `Chip` record holds at one moment. */
  datatype ChipRec = ChipRec(name: Option<string>, adapter: string, sensors: seq<SensorRec>)

  /** A freshly named sensor: everything but the name is still None. */
  function Blank(name: string): SensorRec {
    SensorRec(name, None, None, None, None)
  }

  /** The service item of a sensor: its chip's adapter, a space, and its own name. */
  function ServiceName(adapter: string, sensorName: string): string {
    adapter + " " + sensorName
  }

  /** An item splits back into its parts: the adapter, then one space, then the sensor name. */
  lemma ServiceNameParts(adapter: string, sensorName: string)
    ensures var r := ServiceName(adapter, sensorName);
            |r| == |adapter| + 1 + |sensorName| &&
            r[..|adapter|] == adapter && r[|adapter|] == ' ' && r[|adapter| + 1..] == sensorName
  {
  }

  /**
   * When adapters contain no space, an item names one adapter and one sensor name: the
   * first space of the item separates them. (With a space inside an adapter, "a b" + "c"
   * and "a" + "b c" give the same item.)
   */
  lemma ServiceNameInjective(adapter: string, sensorName: string, adapter': string, sensorName': string)
    requires ' ' !in adapter && ' ' !in adapter'
    ensures ServiceName(adapter, sensorName) == ServiceName(adapter', sensorName') <==>
              adapter == adapter' && sensorName == sensorName'
  {
    ServiceNameParts(adapter, sensorName);
    ServiceNameParts(adapter', sensorName');
  }

  class Sensor {
    var name: string
    var sensorType: Option<SensorType>
    var value: Option<real>
    var critValue: Option<real>
    var warnValue: Option<real>

    /** `Sensor()` followed at once by `sensor.name = ...`, as the parser does. */
    constructor (name: string)
      ensures Rec() == Blank(name)
    {
      this.name := name;
      sensorType, value, critValue, warnValue := None, None, None, None;
    }

    function Rec(): SensorRec
      reads this
    {
      SensorRec(name, sensorType, value, critValue, warnValue)
    }
  }

  class Chip {
    var name: Option<string>
    var adapter: string
    var sensors: seq<Sensor>

    /** `Chip()` followed at once by `parsed.adapter = ...`; `name` is never set. */
    constructor (adapter: string)
      ensures this.adapter == adapter && name == None && sensors == []
    {
      this.adapter := adapter;
      name, sensors := None, [];
    }

    function Rec(): (r: ChipRec)
      reads this, sensors
      ensures r.name == name && r.adapter == adapter && |r.sensors| == |sensors|
      ensures forall j :: 0 <= j < |sensors| ==> r.sensors[j] == sensors[j].Rec()
    {
      ChipRec(name, adapter, Recs(sensors))
    }
  }

  function Recs(sensors: seq<Sensor>): (r: seq<SensorRec>)
    reads sensors
    ensures |r| == |sensors| && forall j :: 0 <= j < |sensors| ==> r[j] == sensors[j].Rec()
  {
    if sensors == [] then [] else [sensors[0].Rec()] + Recs(sensors[1..])
  }

  /** Every sensor record reachable from the section. */
  ghost function SensorsOf(section: seq<Chip>): set<Sensor>
    reads section
  {
    set i, j | 0 <= i < |section| && 0 <= j < |section[i].sensors| :: section[i].sensors[j]
  }

  /** The section's value: one `ChipRec` per chip, in order. */
  ghost function Snapshot(section: seq<Chip>): (r: seq<ChipRec>)
    reads section, SensorsOf(section)
    ensures |r| == |section| && forall i :: 0 <= i < |section| ==> r[i] == section[i].Rec()
  {
    seq(|section|, i reads section, SensorsOf(section) requires 0 <= i < |section| => section[i].Rec())
  }

  /** No sensor record occurs twice in the list. */
  predicate NoDuplicates(sensors: seq<Sensor>) {
    forall j, j' :: 0 <= j < j' < |sensors| ==> sensors[j] != sensors[j']
  }

  lemma NoDuplicatesAppend(sensors: seq<Sensor>, s: Sensor)
    requires NoDuplicates(sensors) && s !in sensors
    ensures NoDuplicates(sensors + [s])
  {
  }

  /** No sensor record is shared between two positions of the section. */
  ghost predicate Distinct(section: seq<Chip>)
    reads section
  {
    forall i, j, i', j' ::
      (0 <= i < |section| && 0 <= j < |section[i].sensors| &&
       0 <= i' < |section| && 0 <= j' < |section[i'].sensors| &&
       section[i].sensors[j] == section[i'].sensors[j']) ==> i == i' && j == j'
  }

  /** A position in the section: chip index, then sensor index within the chip. */
  datatype Pos = Pos(chip: nat, sensor: nat)

  predicate ValidPos(chips: seq<ChipRec>, p: Pos) {
    p.chip < |chips| && p.sensor < |chips[p.chip].sensors|
  }

  /** The section's value with the sensor at `p` replaced by `s`. */
  function UpdateAt(chips: seq<ChipRec>, p: Pos, s: SensorRec): (r: seq<ChipRec>)
    requires ValidPos(chips, p)
    ensures |r| == |chips| && ValidPos(r, p) && r[p.chip].sensors[p.sensor] == s
    ensures forall i :: 0 <= i < |chips| ==>
              r[i].name == chips[i].name && r[i].adapter == chips[i].adapter &&
              |r[i].sensors| == |chips[i].sensors| &&
              forall j :: 0 <= j < |chips[i].sensors| && Pos(i, j) != p ==> r[i].sensors[j] == chips[i].sensors[j]
  {
    chips[p.chip := chips[p.chip].(sensors := chips[p.chip].sensors[p.sensor := s])]
  }

  /** In a distinct section, no sensor of one chip is a sensor of another. */
  lemma DistinctApart(section: seq<Chip>, i: nat, i': nat, j: nat)
    requires Distinct(section) && i < |section| && i' < |section| && i != i' && j < |section[i'].sensors|
    ensures section[i'].sensors[j] !in section[i].sensors
  {
    forall k | 0 <= k < |section[i].sensors| ensures section[i].sensors[k] != section[i'].sensors[j] {
    }
  }

  /** Writing back the record already at a position changes nothing. */
  lemma UpdateAtSame(chips: seq<ChipRec>, p: Pos)
    requires ValidPos(chips, p)
    ensures UpdateAt(chips, p, chips[p.chip].sensors[p.sensor]) == chips
  {
    assert chips[p.chip].sensors[p.sensor := chips[p.chip].sensors[p.sensor]] == chips[p.chip].sensors;
  }

  /** The snapshot is determined by the chips' own fields and each sensor's record. */
  lemma SnapshotIs(section: seq<Chip>, snap: seq<ChipRec>)
    requires |snap| == |section|
    requires forall i :: 0 <= i < |section| ==>
               snap[i].name == section[i].name && snap[i].adapter == section[i].adapter &&
               |snap[i].sensors| == |section[i].sensors|
    requires forall i, j :: 0 <= i < |section| && 0 <= j < |section[i].sensors| ==>
               snap[i].sensors[j] == section[i].sensors[j].Rec()
    ensures Snapshot(section) == snap
  {
    forall i | 0 <= i < |section| ensures Snapshot(section)[i] == snap[i] {
      assert Snapshot(section)[i].sensors == snap[i].sensors;
    }
  }

  lemma RecsAppend(sensors: seq<Sensor>, s: Sensor)
    ensures Recs(sensors + [s]) == Recs(sensors) + [s.Rec()]
  {
    assert forall j :: 0 <= j < |sensors| ==> (sensors + [s])[j] == sensors[j];
  }

  lemma SnapshotAppend(section: seq<Chip>, c: Chip)
    ensures Snapshot(section + [c]) == Snapshot(section) + [c.Rec()]
  {
    assert forall i :: 0 <= i < |section| ==> (section + [c])[i] == section[i];
  }

  /** Appending a chip whose sensors are new and pairwise different keeps the section free of sharing. */
  lemma DistinctAppend(section: seq<Chip>, c: Chip)
    requires Distinct(section) && NoDuplicates(c.sensors)
    requires forall s :: s in c.sensors ==> s !in SensorsOf(section)
    ensures Distinct(section + [c])
  {
    var sec := section + [c];
    assert forall i :: 0 <= i < |section| ==> sec[i] == section[i];
    assert forall i, j :: 0 <= i < |section| && 0 <= j < |section[i].sensors| ==> section[i].sensors[j] in SensorsOf(section);
    assert forall j :: 0 <= j < |c.sensors| ==> c.sensors[j] in c.sensors;
    forall i, j, i', j' |
      0 <= i < |sec| && 0 <= j < |sec[i].sensors| && 0 <= i' < |sec| && 0 <= j' < |sec[i'].sensors| &&
      sec[i].sensors[j] == sec[i'].sensors[j']
      ensures i == i' && j == j'
    {
      if i < |section| && i' < |section| {
      } else if i == |section| && i' == |section| {
      }
    }
  }
}
