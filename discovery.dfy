/** `_discover_webups` and its four wrappers: one service item per sensor of the requested type. */
module Discovery {
  import opened Wrappers
  import opened SensorTypes
  import opened Section

  /** The items of one chip, in sensor order. */
  function ChipItems(adapter: string, sensors: seq<SensorRec>, t: SensorType): seq<string> {
    if sensors == [] then []
    else
      var last := sensors[|sensors| - 1];
      ChipItems(adapter, sensors[..|sensors| - 1], t) +
      if last.sensorType == Some(t) then [ServiceName(adapter, last.name)] else []
  }

  /** The items of the whole section, chip by chip. */
  function Discover(chips: seq<ChipRec>, t: SensorType): seq<string> {
    if chips == [] then []
    else
      var last := chips[|chips| - 1];
      Discover(chips[..|chips| - 1], t) + ChipItems(last.adapter, last.sensors, t)
  }

  /** `item` names a sensor of type `t` somewhere in the section. */
  ghost predicate Discoverable(chips: seq<ChipRec>, t: SensorType, item: string) {
    exists i, j :: 0 <= i < |chips| && 0 <= j < |chips[i].sensors| &&
                   chips[i].sensors[j].sensorType == Some(t) &&
                   item == ServiceName(chips[i].adapter, chips[i].sensors[j].name)
  }

  lemma {:induction false} ChipItemsMembers(adapter: string, sensors: seq<SensorRec>, t: SensorType)
    ensures forall n :: n in ChipItems(adapter, sensors, t) <==>
              exists j :: 0 <= j < |sensors| && sensors[j].sensorType == Some(t) && n == ServiceName(adapter, sensors[j].name)
  {
    if sensors != [] {
      var init := sensors[..|sensors| - 1];
      ChipItemsMembers(adapter, init, t);
      assert forall j :: 0 <= j < |init| ==> init[j] == sensors[j];
    }
  }

  /**
   * Discovery yields exactly the items "<adapter> <sensor name>" of the sensors whose type
   * is the requested one, and nothing else.
   */
  lemma {:induction false} DiscoverMembers(chips: seq<ChipRec>, t: SensorType)
    ensures forall n :: n in Discover(chips, t) <==> Discoverable(chips, t, n)
  {
    if chips != [] {
      var init := chips[..|chips| - 1];
      var last := chips[|chips| - 1];
      DiscoverMembers(init, t);
      ChipItemsMembers(last.adapter, last.sensors, t);
      assert forall i :: 0 <= i < |init| ==> init[i] == chips[i];
      forall n | Discoverable(chips, t, n) ensures n in Discover(chips, t) {
        var i, j :| 0 <= i < |chips| && 0 <= j < |chips[i].sensors| &&
                    chips[i].sensors[j].sensorType == Some(t) &&
                    n == ServiceName(chips[i].adapter, chips[i].sensors[j].name);
        if i < |init| {
          assert Discoverable(init, t, n);
        }
      }
    }
  }

  /** Items keep the section's order: discovering two sections one after the other is discovering their concatenation. */
  lemma {:induction false} DiscoverAppend(a: seq<ChipRec>, b: seq<ChipRec>, t: SensorType)
    ensures Discover(a + b, t) == Discover(a, t) + Discover(b, t)
  {
    if b == [] {
      assert a + b == a;
    } else {
      var init := b[..|b| - 1];
      var last := b[|b| - 1];
      DiscoverAppend(a, init, t);
      assert (a + b)[..|a + b| - 1] == a + init;
      assert (a + b)[|a + b| - 1] == last;
      var items := ChipItems(last.adapter, last.sensors, t);
      assert Discover(a + b, t) == Discover(a + init, t) + items;
      assert Discover(b, t) == Discover(init, t) + items;
    }
  }

  /** Within a chip, too, items follow the sensor order. */
  lemma {:induction false} ChipItemsAppend(adapter: string, s: seq<SensorRec>, u: seq<SensorRec>, t: SensorType)
    ensures ChipItems(adapter, s + u, t) == ChipItems(adapter, s, t) + ChipItems(adapter, u, t)
  {
    if u == [] {
      assert s + u == s;
    } else {
      var init := u[..|u| - 1];
      ChipItemsAppend(adapter, s, init, t);
      assert (s + u)[..|s + u| - 1] == s + init;
      assert (s + u)[|s + u| - 1] == u[|u| - 1];
    }
  }

  function DiscoverTemp(chips: seq<ChipRec>): (r: seq<string>)
    ensures forall n :: n in r <==> Discoverable(chips, TEMP, n)
  {
    DiscoverMembers(chips, TEMP);
    Discover(chips, TEMP)
  }

  function DiscoverHours(chips: seq<ChipRec>): (r: seq<string>)
    ensures forall n :: n in r <==> Discoverable(chips, HOURS, n)
  {
    DiscoverMembers(chips, HOURS);
    Discover(chips, HOURS)
  }

  function DiscoverFan(chips: seq<ChipRec>): (r: seq<string>)
    ensures forall n :: n in r <==> Discoverable(chips, FAN, n)
  {
    DiscoverMembers(chips, FAN);
    Discover(chips, FAN)
  }

  /** Voltage services are the sensors typed IN (keys starting "in"). */
  function DiscoverVolt(chips: seq<ChipRec>): (r: seq<string>)
    ensures forall n :: n in r <==> Discoverable(chips, IN, n)
  {
    DiscoverMembers(chips, IN);
    Discover(chips, IN)
  }
}
