/**
 * `parse_webups` from the decoded JSON on: one `Chip` per top-level key, one `Sensor` per
 * non-"Adapter" key of the chip, the sensor's fields routed by key suffix.
 */
module Parse {
  import opened Wrappers
  import opened Text
  import opened SensorTypes
  import opened Json
  import opened Section

  /** Where `parse_webups` raises. */
  datatype ParseError =
    | MissingAdapter(chip: string)            // KeyError on `sensors[chip_name]["Adapter"]`
    | AdapterNotText(chip: string)            // the adapter is not a string
    | NotIterable(chip: string, sensor: string) // TypeError iterating a number or null
    | ConversionRaised(chip: string, sensor: string) // TypeError from `float(None)` in `str_to_float`

  const AdapterKey := "Adapter"

  predicate IsInputKey(key: string) { EndsWith(key, "_input") }
  predicate IsCritKey(key: string) { EndsWith(key, "crit") }
  predicate IsMaxKey(key: string) { EndsWith(key, "max") }

  /** A key one of the three `if`s acts on, and so passes its value to `str_to_float`. */
  predicate IsRoutedKey(key: string) { IsInputKey(key) || IsCritKey(key) || IsMaxKey(key) }

  /** An `_input` key that also names a sensor type. */
  predicate IsTypedInputKey(key: string) { IsInputKey(key) && InferType(key).Some? }

  /** The three independent `if`s of the innermost loop, applied to one field. */
  function ApplyField(r: SensorRec, key: string, v: Scalar, floatOf: FloatSyntax): SensorRec {
    var r1 := if IsInputKey(key)
              then r.(value := StrToFloat(v, floatOf),
                      sensorType := if InferType(key).Some? then InferType(key) else r.sensorType)
              else r;
    var r2 := if IsCritKey(key) then r1.(critValue := StrToFloat(v, floatOf)) else r1;
    if IsMaxKey(key) then r2.(warnValue := StrToFloat(v, floatOf)) else r2
  }

  /** The innermost loop: the fields applied in order. */
  function ParseFields(r: SensorRec, fields: seq<Entry<Scalar>>, floatOf: FloatSyntax): SensorRec {
    if fields == [] then r
    else
      var last := fields[|fields| - 1];
      ApplyField(ParseFields(r, fields[..|fields| - 1], floatOf), last.key, last.val, floatOf)
  }

  /** The position of the last field whose key satisfies `p`. */
  function LastKeyWhere(fields: seq<Entry<Scalar>>, p: string -> bool): (r: Option<nat>)
    ensures r.None? ==> forall k :: 0 <= k < |fields| ==> !p(fields[k].key)
    ensures r.Some? ==> r.value < |fields| && p(fields[r.value].key) &&
                        forall k :: r.value < k < |fields| ==> !p(fields[k].key)
  {
    if fields == [] then None
    else if p(fields[|fields| - 1].key) then Some(|fields| - 1)
    else
      var r := LastKeyWhere(fields[..|fields| - 1], p);
      assert forall k :: 0 <= k < |fields| - 1 ==> fields[..|fields| - 1][k] == fields[k];
      r
  }

  /** What the last field selected by `p` sets a bound or value to, or `otherwise`. */
  function LastWritten(fields: seq<Entry<Scalar>>, p: string -> bool, floatOf: FloatSyntax,
                       otherwise: Option<real>): Option<real>
  {
    match LastKeyWhere(fields, p)
    case None => otherwise
    case Some(k) => StrToFloat(fields[k].val, floatOf)
  }

  /** `LastWritten` one field at a time: the last field decides if `p` selects it. */
  lemma LastWrittenStep(fields: seq<Entry<Scalar>>, p: string -> bool, floatOf: FloatSyntax, otherwise: Option<real>)
    requires fields != []
    ensures LastWritten(fields, p, floatOf, otherwise) ==
              if p(fields[|fields| - 1].key) then StrToFloat(fields[|fields| - 1].val, floatOf)
              else LastWritten(fields[..|fields| - 1], p, floatOf, otherwise)
  {
    var init := fields[..|fields| - 1];
    if !p(fields[|fields| - 1].key) {
      assert LastKeyWhere(fields, p) == LastKeyWhere(init, p);
      match LastKeyWhere(init, p)
      case None =>
      case Some(k) => assert init[k] == fields[k];
    }
  }

  /**
   * Key routing, value and bounds: after the fields are applied, the value is set by the
   * last `_input` key, the critical bound by the last key ending "crit" and the warning
   * bound by the last key ending "max"; where no key of a kind occurs, that field keeps its
   * earlier content, and the name is never touched.
   */
  lemma {:induction false} ParseFieldsBounds(r: SensorRec, fields: seq<Entry<Scalar>>, floatOf: FloatSyntax)
    ensures ParseFields(r, fields, floatOf).name == r.name
    ensures ParseFields(r, fields, floatOf).value == LastWritten(fields, IsInputKey, floatOf, r.value)
    ensures ParseFields(r, fields, floatOf).critValue == LastWritten(fields, IsCritKey, floatOf, r.critValue)
    ensures ParseFields(r, fields, floatOf).warnValue == LastWritten(fields, IsMaxKey, floatOf, r.warnValue)
  {
    if fields != [] {
      var init := fields[..|fields| - 1];
      ParseFieldsBounds(r, init, floatOf);
      LastWrittenStep(fields, IsInputKey, floatOf, r.value);
      LastWrittenStep(fields, IsCritKey, floatOf, r.critValue);
      LastWrittenStep(fields, IsMaxKey, floatOf, r.warnValue);
    }
  }

  /**
   * Key routing, type: the type is the one inferred from the last `_input` key that names
   * a type; `_input` keys that name none leave the earlier type in place.
   */
  lemma {:induction false} ParseFieldsType(r: SensorRec, fields: seq<Entry<Scalar>>, floatOf: FloatSyntax)
    ensures ParseFields(r, fields, floatOf).sensorType ==
              match LastKeyWhere(fields, IsTypedInputKey)
              case None => r.sensorType
              case Some(k) => InferType(fields[k].key)
  {
    if fields != [] {
      var init := fields[..|fields| - 1];
      ParseFieldsType(r, init, floatOf);
    }
  }

  /** A key that matches none of the three suffixes changes nothing, e.g. `_min`. */
  lemma IgnoredKey(r: SensorRec, key: string, v: Scalar, floatOf: FloatSyntax)
    requires !IsInputKey(key) && !IsCritKey(key) && !IsMaxKey(key)
    ensures ApplyField(r, key, v, floatOf) == r
  {
  }

  /** No field the three `if`s act on makes `str_to_float` raise. */
  predicate ConvertsAll(fields: seq<Entry<Scalar>>, floatOf: FloatSyntax, conv: Conversion) {
    forall k :: 0 <= k < |fields| && IsRoutedKey(fields[k].key) ==> Convert(conv, fields[k].val, floatOf).Success?
  }

  /**
   * The sensor for one non-"Adapter" key. Iterating a string visits its characters, and
   * no one-character key ends in any of the three suffixes, so a string member gives a
   * blank sensor; a number or null cannot be iterated; a routed field whose conversion
   * raises aborts the parse, and the sensor built so far is dropped.
   */
  function ParseMember(chip: string, key: string, m: Member, floatOf: FloatSyntax, conv: Conversion): (r: Result<SensorRec, ParseError>)
    ensures r.Failure? <==>
              m.Atom? ||
              (m.Object? && exists k :: 0 <= k < |m.fields| && IsRoutedKey(m.fields[k].key) &&
                                        conv == AsWritten && m.fields[k].val.Null?)
    ensures m.Atom? ==> r == Failure(NotIterable(chip, key))
    ensures m.Object? && r.Failure? ==> r.error == ConversionRaised(chip, key)
    ensures r.Success? ==> r.value.name == key
    ensures m.Text? ==> r == Success(Blank(key))
  {
    ParseFieldsBounds(Blank(key), if m.Object? then m.fields else [], floatOf);
    match m
    case Atom(_) => Failure(NotIterable(chip, key))
    case Text(_) => Success(Blank(key))
    case Object(fields) =>
      if ConvertsAll(fields, floatOf, conv) then Success(ParseFields(Blank(key), fields, floatOf))
      else Failure(ConversionRaised(chip, key))
  }

  /** The entries of a chip object that become sensors, in order. */
  function SensorEntries(obj: ChipObject): seq<Entry<Member>> {
    if obj == [] then []
    else SensorEntries(obj[..|obj| - 1]) + if obj[|obj| - 1].key == AdapterKey then [] else [obj[|obj| - 1]]
  }

  /** The sensor entries are exactly the entries not keyed "Adapter". */
  lemma {:induction false} SensorEntriesAreNonAdapter(obj: ChipObject)
    ensures forall e :: e in SensorEntries(obj) <==> e in obj && e.key != AdapterKey
  {
    if obj != [] {
      var init := obj[..|obj| - 1];
      SensorEntriesAreNonAdapter(init);
      assert obj == init + [obj[|obj| - 1]];
    }
  }

  /** Filtering the sensor entries keeps entry order and repeats: it distributes over concatenation. */
  lemma {:induction false} SensorEntriesAppend(a: ChipObject, b: ChipObject)
    ensures SensorEntries(a + b) == SensorEntries(a) + SensorEntries(b)
  {
    if b == [] {
      assert a + b == a;
    } else {
      var init, last := b[..|b| - 1], b[|b| - 1];
      var tail := if last.key == AdapterKey then [] else [last];
      SensorEntriesAppend(a, init);
      assert (a + b)[..|a + b| - 1] == a + init && (a + b)[|a + b| - 1] == last;
      assert SensorEntries(a + b) == SensorEntries(a + init) + tail;
      assert SensorEntries(b) == SensorEntries(init) + tail;
    }
  }

  /** The sensor loop of one chip: the error of the first entry that raises, if any. */
  function ParseMembers(chip: string, obj: ChipObject, floatOf: FloatSyntax, conv: Conversion): Result<seq<SensorRec>, ParseError> {
    if obj == [] then Success([])
    else
      var last := obj[|obj| - 1];
      match ParseMembers(chip, obj[..|obj| - 1], floatOf, conv)
      case Failure(e) => Failure(e)
      case Success(prev) =>
        if last.key == AdapterKey then Success(prev)
        else
          match ParseMember(chip, last.key, last.val, floatOf, conv)
          case Failure(e) => Failure(e)
          case Success(s) => Success(prev + [s])
  }

  /**
   * Parse structure of one chip: one sensor per entry not keyed "Adapter", in entry order,
   * each the sensor parsed from that entry; the chip raises exactly when one of those
   * entries holds a number or null, or a routed field whose conversion raises.
   */
  lemma {:induction false} ParseMembersStructure(chip: string, obj: ChipObject, floatOf: FloatSyntax, conv: Conversion)
    ensures ParseMembers(chip, obj, floatOf, conv).Failure? <==>
              exists k :: 0 <= k < |obj| && obj[k].key != AdapterKey && ParseMember(chip, obj[k].key, obj[k].val, floatOf, conv).Failure?
    ensures ParseMembers(chip, obj, floatOf, conv).Success? ==>
              var sensors := ParseMembers(chip, obj, floatOf, conv).value;
              |sensors| == |SensorEntries(obj)| &&
              forall j :: 0 <= j < |sensors| ==>
                ParseMember(chip, SensorEntries(obj)[j].key, SensorEntries(obj)[j].val, floatOf, conv) == Success(sensors[j])
  {
    if obj != [] {
      var init := obj[..|obj| - 1];
      ParseMembersStructure(chip, init, floatOf, conv);
      assert forall k :: 0 <= k < |init| ==> init[k] == obj[k];
    }
  }

  /** One chip: its adapter first, then its sensors. */
  function ParseChip(name: string, obj: ChipObject, floatOf: FloatSyntax, conv: Conversion): Result<ChipRec, ParseError> {
    match Lookup(obj, AdapterKey)
    case None => Failure(MissingAdapter(name))
    case Some(a) =>
      if !a.Text? then Failure(AdapterNotText(name))
      else
        match ParseMembers(name, obj, floatOf, conv)
        case Failure(e) => Failure(e)
        case Success(sensors) => Success(ChipRec(None, a.s, sensors))
  }

  /**
   * A chip parses exactly when its "Adapter" entry exists, is a string, and every other
   * entry parses; otherwise it raises the first of: the missing adapter, the adapter that
   * is not a string, the error of its sensor loop. A parsed chip takes its adapter from
   * that entry, has no name, and holds the sensors of its entries.
   */
  lemma ParseChipStructure(name: string, obj: ChipObject, floatOf: FloatSyntax, conv: Conversion)
    ensures (forall k :: 0 <= k < |obj| ==> obj[k].key != AdapterKey) ==>
              ParseChip(name, obj, floatOf, conv) == Failure(MissingAdapter(name))
    ensures ParseChip(name, obj, floatOf, conv).Success? <==>
              Lookup(obj, AdapterKey).Some? && Lookup(obj, AdapterKey).value.Text? &&
              forall k :: 0 <= k < |obj| && obj[k].key != AdapterKey ==>
                ParseMember(name, obj[k].key, obj[k].val, floatOf, conv).Success?
    ensures ParseChip(name, obj, floatOf, conv).Failure? ==>
              ParseChip(name, obj, floatOf, conv).error ==
                if Lookup(obj, AdapterKey).None? then MissingAdapter(name)
                else if !Lookup(obj, AdapterKey).value.Text? then AdapterNotText(name)
                else ParseMembers(name, obj, floatOf, conv).error
    ensures ParseChip(name, obj, floatOf, conv).Success? ==>
              var c := ParseChip(name, obj, floatOf, conv).value;
              Lookup(obj, AdapterKey) == Some(Text(c.adapter)) && c.name == None &&
              ParseMembers(name, obj, floatOf, conv) == Success(c.sensors)
  {
    ParseMembersStructure(name, obj, floatOf, conv);
  }

  /** The whole section: one chip per top-level key, in order, or the error of the first chip that raises. */
  function ParseSection(doc: Document, floatOf: FloatSyntax, conv: Conversion): Result<seq<ChipRec>, ParseError> {
    if doc == [] then Success([])
    else
      var last := doc[|doc| - 1];
      match ParseSection(doc[..|doc| - 1], floatOf, conv)
      case Failure(e) => Failure(e)
      case Success(prev) =>
        match ParseChip(last.key, last.val, floatOf, conv)
        case Failure(e) => Failure(e)
        case Success(c) => Success(prev + [c])
  }

  /** Parse structure: the section parses exactly when every chip does, one chip per key, in order. */
  lemma {:induction false} ParseSectionStructure(doc: Document, floatOf: FloatSyntax, conv: Conversion)
    ensures ParseSection(doc, floatOf, conv).Success? <==>
              forall i :: 0 <= i < |doc| ==> ParseChip(doc[i].key, doc[i].val, floatOf, conv).Success?
    ensures ParseSection(doc, floatOf, conv).Success? ==>
              var chips := ParseSection(doc, floatOf, conv).value;
              |chips| == |doc| &&
              forall i :: 0 <= i < |doc| ==> ParseChip(doc[i].key, doc[i].val, floatOf, conv) == Success(chips[i])
  {
    if doc != [] {
      var init := doc[..|doc| - 1];
      var last := doc[|doc| - 1];
      ParseSectionStructure(init, floatOf, conv);
      if ParseSection(init, floatOf, conv).Success? && ParseChip(last.key, last.val, floatOf, conv).Success? {
        var prev := ParseSection(init, floatOf, conv).value;
        var chips := prev + [ParseChip(last.key, last.val, floatOf, conv).value];
        assert ParseSection(doc, floatOf, conv) == Success(chips);
        forall i | 0 <= i < |doc|
          ensures ParseChip(doc[i].key, doc[i].val, floatOf, conv) == Success(chips[i])
        {
          if i < |init| {
            assert init[i] == doc[i] && chips[i] == prev[i];
          }
        }
      } else if ParseSection(init, floatOf, conv).Failure? {
        var i :| 0 <= i < |init| && ParseChip(init[i].key, init[i].val, floatOf, conv).Failure?;
        assert init[i] == doc[i];
      }
    }
  }

  /** The error reported is that of the first chip that raises; the chips before it parse. */
  lemma {:induction false} ParseSectionFirstError(doc: Document, floatOf: FloatSyntax, conv: Conversion, i: nat)
    requires i < |doc| && ParseChip(doc[i].key, doc[i].val, floatOf, conv).Failure?
    requires forall i' :: 0 <= i' < i ==> ParseChip(doc[i'].key, doc[i'].val, floatOf, conv).Success?
    ensures ParseSection(doc, floatOf, conv) == Failure(ParseChip(doc[i].key, doc[i].val, floatOf, conv).error)
  {
    var init := doc[..|doc| - 1];
    if i < |doc| - 1 {
      assert init[i] == doc[i];
      assert forall i' :: 0 <= i' < i ==> init[i'] == doc[i'];
      ParseSectionFirstError(init, floatOf, conv, i);
    } else {
      assert forall i' :: 0 <= i' < |init| ==> init[i'] == doc[i'];
      ParseSectionStructure(init, floatOf, conv);
    }
  }

  /** Once a prefix of a chip's entries raises, the whole chip raises with the same error. */
  lemma {:induction false} ParseMembersFailurePersists(chip: string, obj: ChipObject, floatOf: FloatSyntax, conv: Conversion, k: nat)
    requires k <= |obj| && ParseMembers(chip, obj[..k], floatOf, conv).Failure?
    ensures ParseMembers(chip, obj, floatOf, conv) == ParseMembers(chip, obj[..k], floatOf, conv)
  {
    if k < |obj| {
      var init := obj[..|obj| - 1];
      assert init[..k] == obj[..k];
      ParseMembersFailurePersists(chip, init, floatOf, conv, k);
    } else {
      assert obj[..k] == obj;
    }
  }

  /** Once a prefix of the section raises, the whole section raises with the same error. */
  lemma {:induction false} ParseSectionFailurePersists(doc: Document, floatOf: FloatSyntax, conv: Conversion, k: nat)
    requires k <= |doc| && ParseSection(doc[..k], floatOf, conv).Failure?
    ensures ParseSection(doc, floatOf, conv) == ParseSection(doc[..k], floatOf, conv)
  {
    if k < |doc| {
      var init := doc[..|doc| - 1];
      assert init[..k] == doc[..k];
      ParseSectionFailurePersists(init, floatOf, conv, k);
    } else {
      assert doc[..k] == doc;
    }
  }

  /** The fields the collector writes for one configured sensor whose warn cell is empty. */
  function NullBoundFields(): seq<Entry<Scalar>> {
    [Entry("temp1_input", Num(20.0)), Entry("temp1_max", Null)]
  }

  /** A section holding one chip with one such sensor. */
  function NullBoundDocument(): Document {
    [Entry("webups", [Entry(AdapterKey, Text("parameters")), Entry("temp1, temp", Object(NullBoundFields()))])]
  }

  /** Those fields give the value 20 and, through the corrected `str_to_float`, no warning bound. */
  lemma NullBoundRecord(floatOf: FloatSyntax)
    ensures var rec := ParseFields(Blank("temp1, temp"), NullBoundFields(), floatOf);
            rec.value == Some(20.0) && rec.warnValue == None
  {
    var fields := NullBoundFields();
    var blank := Blank("temp1, temp");
    assert fields[..1][..0] == [] && fields[..2][..1] == fields[..1] && fields[..2] == fields;
    assert IsInputKey(fields[0].key) && !IsCritKey(fields[0].key) && !IsMaxKey(fields[0].key);
    assert !IsInputKey(fields[1].key) && !IsCritKey(fields[1].key) && IsMaxKey(fields[1].key);
    var r1 := ApplyField(blank, fields[0].key, fields[0].val, floatOf);
    assert r1.value == Some(20.0) && r1.warnValue == None;
    assert ParseFields(blank, fields[..1], floatOf) == r1;
  }

  /** As written, that null reaches `float(None)` and the whole parse raises. */
  lemma NullBoundFailsParseAsWritten(floatOf: FloatSyntax)
    ensures ParseSection(NullBoundDocument(), floatOf, AsWritten) == Failure(ConversionRaised("webups", "temp1, temp"))
  {
    var doc := NullBoundDocument();
    var obj := doc[0].val;
    var e := ConversionRaised("webups", "temp1, temp");
    assert EndsWith(obj[1].val.fields[1].key, "max");
    assert ParseMember("webups", obj[1].key, obj[1].val, floatOf, AsWritten) == Failure(e);
    assert obj[..1][..0] == [] && obj[..2][..1] == obj[..1] && obj[..2] == obj;
    assert ParseMembers("webups", obj[..1], floatOf, AsWritten) == Success([]);
    assert ParseMembers("webups", obj, floatOf, AsWritten) == Failure(e);
    assert doc[..0] == [];
  }

  /** With the corrected conversion the same section parses, its warning bound unset. */
  lemma NullBoundParsesCorrected(floatOf: FloatSyntax)
    ensures ParseSection(NullBoundDocument(), floatOf, Corrected).Success?
    ensures var chips := ParseSection(NullBoundDocument(), floatOf, Corrected).value;
            |chips| == 1 && |chips[0].sensors| == 1 &&
            chips[0].sensors[0].value == Some(20.0) && chips[0].sensors[0].warnValue == None
  {
    var doc := NullBoundDocument();
    var obj := doc[0].val;
    var rec := ParseFields(Blank(obj[1].key), NullBoundFields(), floatOf);
    NullBoundRecord(floatOf);
    assert ParseMember("webups", obj[1].key, obj[1].val, floatOf, Corrected) == Success(rec);
    assert obj[..1][..0] == [] && obj[..2][..1] == obj[..1] && obj[..2] == obj;
    assert ParseMembers("webups", obj[..1], floatOf, Corrected) == Success([]);
    assert obj[1].key[0] != AdapterKey[0];
    assert ParseMembers("webups", obj, floatOf, Corrected) == Success([] + [rec]);
    assert [] + [rec] == [rec];
    assert Lookup(obj, AdapterKey) == Some(Text("parameters"));
    assert ParseChip("webups", obj, floatOf, Corrected) == Success(ChipRec(None, "parameters", [rec]));
    assert doc[..|doc| - 1] == [];
    assert ParseSection(doc, floatOf, Corrected) == Success([] + [ChipRec(None, "parameters", [rec])]);
  }

  /**
   * The three `if`s of the innermost loop, on the sensor record in place; a conversion
   * that raises ends the field update there.
   */
  method ApplyFieldTo(sensor: Sensor, key: string, v: Scalar, floatOf: FloatSyntax, conv: Conversion)
    returns (err: Option<ConversionError>)
    modifies sensor
    ensures err.Some? <==> IsRoutedKey(key) && Convert(conv, v, floatOf).Failure?
    ensures err.None? ==> sensor.Rec() == ApplyField(old(sensor.Rec()), key, v, floatOf)
  {
    if EndsWith(key, "_input") {
      var x := Convert(conv, v, floatOf);
      if x.Failure? {
        return Some(x.error);
      }
      sensor.value := x.value;
      var t := MatchType(key, sensor.sensorType);
      sensor.sensorType := t;
    }
    if EndsWith(key, "crit") {
      var x := Convert(conv, v, floatOf);
      if x.Failure? {
        return Some(x.error);
      }
      sensor.critValue := x.value;
    }
    if EndsWith(key, "max") {
      var x := Convert(conv, v, floatOf);
      if x.Failure? {
        return Some(x.error);
      }
      sensor.warnValue := x.value;
    }
    return None;
  }

  /** The innermost loop on a sensor in place: its fields applied in order, or a conversion raises. */
  method ApplyFields(sensor: Sensor, fields: seq<Entry<Scalar>>, floatOf: FloatSyntax, conv: Conversion) returns (ok: bool)
    modifies sensor
    ensures ok <==> ConvertsAll(fields, floatOf, conv)
    ensures ok ==> sensor.Rec() == ParseFields(old(sensor.Rec()), fields, floatOf)
  {
    ghost var start := sensor.Rec();
    for k := 0 to |fields|
      invariant sensor.Rec() == ParseFields(start, fields[..k], floatOf)
      invariant forall j :: 0 <= j < k && IsRoutedKey(fields[j].key) ==> Convert(conv, fields[j].val, floatOf).Success?
    {
      assert fields[..k + 1][..k] == fields[..k];
      var err := ApplyFieldTo(sensor, fields[k].key, fields[k].val, floatOf, conv);
      if err.Some? {
        assert IsRoutedKey(fields[k].key) && Convert(conv, fields[k].val, floatOf).Failure?;
        return false;
      }
    }
    assert fields[..|fields|] == fields;
    return true;
  }

  /** A new `Sensor` for one non-"Adapter" key, its fields applied in order. */
  method ParseSensor(chip: string, key: string, m: Member, floatOf: FloatSyntax, conv: Conversion) returns (r: Result<Sensor, ParseError>)
    ensures r.Failure? ==> ParseMember(chip, key, m, floatOf, conv) == Failure(r.error)
    ensures r.Success? ==> fresh(r.value) && ParseMember(chip, key, m, floatOf, conv) == Success(r.value.Rec())
  {
    if m.Atom? {
      return Failure(NotIterable(chip, key));
    }
    var sensor := new Sensor(key);
    if m.Object? {
      var ok := ApplyFields(sensor, m.fields, floatOf, conv);
      if !ok {
        return Failure(ConversionRaised(chip, key));
      }
    }
    return Success(sensor);
  }

  /** One step of the sensor loop: a new sensor for the entry, appended to `chip.sensors`. */
  method AppendSensor(chip: Chip, name: string, key: string, m: Member, floatOf: FloatSyntax, conv: Conversion) returns (err: Option<ParseError>)
    requires NoDuplicates(chip.sensors)
    modifies chip`sensors
    ensures err.Some? ==> ParseMember(name, key, m, floatOf, conv) == Failure(err.value)
    ensures err.None? ==> ParseMember(name, key, m, floatOf, conv).Success? &&
                          Recs(chip.sensors) == old(Recs(chip.sensors)) + [ParseMember(name, key, m, floatOf, conv).value]
    ensures NoDuplicates(chip.sensors)
    ensures forall s :: s in chip.sensors ==> s in old(chip.sensors) || fresh(s)
  {
    ghost var recs := Recs(chip.sensors);
    var sensor := ParseSensor(name, key, m, floatOf, conv);
    if sensor.Failure? {
      return Some(sensor.error);
    }
    ghost var rec := sensor.value.Rec();
    var before := chip.sensors;
    assert Recs(before) == recs;
    NoDuplicatesAppend(before, sensor.value);
    RecsAppend(before, sensor.value);
    chip.sensors := before + [sensor.value];
    assert Recs(chip.sensors) == recs + [rec];
    return None;
  }

  /** The sensor loop of one chip: a new sensor appended to `chip.sensors` per non-"Adapter" entry. */
  method AppendSensors(chip: Chip, name: string, obj: ChipObject, floatOf: FloatSyntax, conv: Conversion) returns (err: Option<ParseError>)
    requires chip.sensors == []
    modifies chip`sensors
    ensures err.Some? ==> ParseMembers(name, obj, floatOf, conv) == Failure(err.value)
    ensures err.None? ==> ParseMembers(name, obj, floatOf, conv) == Success(Recs(chip.sensors))
    ensures forall s :: s in chip.sensors ==> fresh(s)
    ensures NoDuplicates(chip.sensors)
  {
    ghost var recs: seq<SensorRec> := [];
    for k := 0 to |obj|
      invariant ParseMembers(name, obj[..k], floatOf, conv) == Success(recs)
      invariant Recs(chip.sensors) == recs
      invariant forall s :: s in chip.sensors ==> fresh(s)
      invariant NoDuplicates(chip.sensors)
    {
      assert obj[..k + 1][..k] == obj[..k];
      if obj[k].key == AdapterKey {
        continue;
      }
      err := AppendSensor(chip, name, obj[k].key, obj[k].val, floatOf, conv);
      if err.Some? {
        ParseMembersFailurePersists(name, obj, floatOf, conv, k + 1);
        return;
      }
      recs := recs + [ParseMember(name, obj[k].key, obj[k].val, floatOf, conv).value];
    }
    assert obj[..|obj|] == obj;
    return None;
  }

  /** `Chip()` with its adapter set, then the sensor loop; only new objects are touched. */
  method NewChip(name: string, adapter: string, obj: ChipObject, floatOf: FloatSyntax, conv: Conversion) returns (r: Result<Chip, ParseError>)
    ensures r.Failure? ==> ParseMembers(name, obj, floatOf, conv) == Failure(r.error)
    ensures r.Success? ==>
              fresh(r.value) && ParseMembers(name, obj, floatOf, conv) == Success(Recs(r.value.sensors)) &&
              r.value.Rec() == ChipRec(None, adapter, Recs(r.value.sensors)) &&
              NoDuplicates(r.value.sensors) && forall s :: s in r.value.sensors ==> fresh(s)
  {
    var chip := new Chip(adapter);
    var err := AppendSensors(chip, name, obj, floatOf, conv);
    if err.Some? {
      return Failure(err.value);
    }
    return Success(chip);
  }

  /**
   * A new `Chip` for one top-level key: its adapter, then its sensors. Its sensor records
   * are new, so the chips parsed so far are left as they were and share none with it.
   */
  method ParseChipObject(name: string, obj: ChipObject, floatOf: FloatSyntax, conv: Conversion, ghost parsed: seq<Chip>)
    returns (r: Result<Chip, ParseError>)
    requires Distinct(parsed)
    ensures r.Failure? ==> ParseChip(name, obj, floatOf, conv) == Failure(r.error)
    ensures r.Success? ==>
              fresh(r.value) && ParseChip(name, obj, floatOf, conv) == Success(r.value.Rec()) && Distinct(parsed + [r.value])
    ensures Snapshot(parsed) == old(Snapshot(parsed))
  {
    var adapter := Lookup(obj, AdapterKey);
    if adapter.None? {
      return Failure(MissingAdapter(name));
    }
    if !adapter.value.Text? {
      return Failure(AdapterNotText(name));
    }
    r := NewChip(name, adapter.value.s, obj, floatOf, conv);
    if r.Success? {
      DistinctAppend(parsed, r.value);
    }
  }

  /** One step of the key loop: the chip of one top-level key, appended to the chips parsed so far. */
  method AppendChip(name: string, obj: ChipObject, floatOf: FloatSyntax, conv: Conversion, parsed: seq<Chip>)
    returns (r: Result<seq<Chip>, ParseError>)
    requires Distinct(parsed)
    ensures r.Failure? ==> ParseChip(name, obj, floatOf, conv) == Failure(r.error)
    ensures r.Success? ==>
              ParseChip(name, obj, floatOf, conv).Success? && Distinct(r.value) &&
              Snapshot(r.value) == old(Snapshot(parsed)) + [ParseChip(name, obj, floatOf, conv).value]
  {
    ghost var snap := Snapshot(parsed);
    var chip := ParseChipObject(name, obj, floatOf, conv, parsed);
    if chip.Failure? {
      return Failure(chip.error);
    }
    SnapshotAppend(parsed, chip.value);
    return Success(parsed + [chip.value]);
  }

  /**
   * `parse_webups` after `json.loads`: the chips are built and appended in key order, and
   * every sensor record is new, so none is shared.
   */
  method ParseWebups(doc: Document, floatOf: FloatSyntax, conv: Conversion) returns (r: Result<seq<Chip>, ParseError>)
    ensures r.Failure? ==> ParseSection(doc, floatOf, conv) == Failure(r.error)
    ensures r.Success? ==> ParseSection(doc, floatOf, conv) == Success(Snapshot(r.value)) && Distinct(r.value)
  {
    var parsed: seq<Chip> := [];
    ghost var snap: seq<ChipRec> := [];
    for i := 0 to |doc|
      invariant ParseSection(doc[..i], floatOf, conv) == Success(snap)
      invariant Snapshot(parsed) == snap
      invariant Distinct(parsed)
    {
      assert doc[..i + 1][..i] == doc[..i];
      var next := AppendChip(doc[i].key, doc[i].val, floatOf, conv, parsed);
      if next.Failure? {
        ParseSectionFailurePersists(doc, floatOf, conv, i + 1);
        return Failure(next.error);
      }
      snap := snap + [ParseChip(doc[i].key, doc[i].val, floatOf, conv).value];
      parsed := next.value;
    }
    assert doc[..|doc|] == doc;
    return Success(parsed);
  }
}
