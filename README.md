# webups check plugin, modelled in Dafny

This project models the check-plugin side of webups: `webups.py`, a Checkmk agent-based
plugin for a UPS / air-conditioner controller. It has three parts:

- **The section parser** (`parse_webups` after `json.loads`) works on the decoded JSON document, an ordered mapping from chip keys to chip objects. For each chip it builds a `Chip` holding the chip's `"Adapter"` string. Inside each chip, it builds one `Sensor` per other key. A sensor's fields are routed by key suffix: `_input` sets the value and infers the sensor type, `crit` sets the critical bound, and `max` sets the warning bound. The parser takes the `str_to_float` it calls as a parameter (`Json.Conversion`): the code as written, where a JSON null raises `TypeError`, or the corrected one, where it gives None (see "## Findings").
- **Discovery** (`_discover_webups` and its four wrappers) lists the item `"<adapter> <sensor name>"` for every sensor of the requested type, in section order.
- **The check** (`check_webups` and its hours, fan and voltage wrappers) finds the first sensor whose item matches. It then picks where the levels come from:
  1. the rule's parameters;
  2. otherwise the sensor's own bounds, filling a missing one in place from the other;
  3. otherwise nothing, giving "Always Ok".

  The temperature wrapper refuses three unsupported options first. It then converts every sensor value of the section to °F or K in place before checking.

`Sensor` and `Chip` are classes with mutable fields, as the Python objects are. Their fields are changed in place by module-level methods (`Parse.ApplyFieldTo`, `Check.EvaluateSensor`, `Temperature.ConvertChip` and the methods built on them), as the Python functions do. Each class has a value snapshot (`SensorRec`, `ChipRec`, `Snapshot`). The specifications are functions on those snapshots:

- `ParseSection`
- `Discover`
- `Evaluate`
- `CheckSection`
- `CheckTempSection`

Each method is proved to produce exactly the result and new state its function describes. The lemmas then prove the behaviour the plugin promises about those functions.

Modules and files:

| file | module | content |
|---|---|---|
| wrappers.dfy | Wrappers | `Option`, `Result` |
| text.dfy | Text | `startswith` / `endswith` |
| sensor_types.dfy | SensorTypes | the `SensorType` enum and type inference |
| json.dfy | Json | the decoded document, `str_to_float` |
| section.dfy | Section | records, classes, snapshots, aliasing freedom |
| parse.dfy | Parse | `parse_webups` |
| discovery.dfy | Discovery | `_discover_webups` and wrappers |
| check.dfy | Check | `check_webups` and the hours, fan and voltage wrappers |
| temperature.dfy | Temperature | `check_webups_temp` |

Things the model takes as parameters or leaves abstract:

- Python's `float(str)` is a parameter `floatOf: string -> Option<real>`.
- `check_levels`, `Result` and `Metric` are symbolic outputs that record exactly the arguments the plugin passes.
- A raised exception is a `Failure` carrying the error.

## Model

| member | source | states |
|---|---|---|
| SensorTypes.LastMatchAt | webups.py:66-68 | the position found is a member whose value `key` starts with, and no later member matches; None only when no member matches |
| SensorTypes.InferType | webups.py:66-68 | the type the enum loop assigns; stated by InferredIsLongestMatch and LastMatchIs, and computed by MatchType |
| SensorTypes.MatchType | webups.py:64-70 | the loop over the enum leaves the last matching member in declaration order, or the sensor's earlier type when no member matches |
| SensorTypes.LastMatchIs | webups.py:66-68 | a matching member with no later match is exactly the type the loop infers |
| SensorTypes.InferredIsLongestMatch | webups.py:6-16 | no type is inferred iff no member matches; otherwise the inferred member matches, and every matching member's value is a prefix of the inferred one's |
| SensorTypes.OnlyInNestsInIntrusion | webups.py:6-16 | of the ten enum values, "in" and "intrusion" are the only pair where one is a prefix of the other |
| SensorTypes.IntrusionExample | webups.py:64-68 | "intrusion0_input" is typed INTRUSION, not IN |
| SensorTypes.InExample | webups.py:64-68 | "in1_input" is typed IN |
| SensorTypes.UnknownExample | webups.py:64-70 | a key no enum value starts leaves the type unset |
| Json.Lookup | webups.py:56 | `obj[key]`: None iff no entry has the key; otherwise the value of an entry with that key |
| Json.StrToFloat | webups.py:35-39 | a JSON null gives None; wherever the code as written returns normally, the result is the same |
| Json.Convert | webups.py:35-39 | the chosen `str_to_float` raises only as written, and only on null; where it returns, its value is StrToFloat's |
| Json.StrToFloatAsWritten | webups.py:35-39 | the code as written raises exactly on JSON null, because `float(None)` raises TypeError and only ValueError is caught |
| Json.NullBoundRaisesAsWritten | webups.py:35-39 | a null bound raises as written, and the corrected conversion gives None |
| Section.Sensor.constructor | webups.py:19-25 | a new sensor holds the given name and every other field None |
| Section.Chip.constructor | webups.py:28-32 | a new chip holds the adapter, no name and no sensors |
| Section.Chip.Rec | webups.py:28-32 | a chip's value is its own fields plus the value of each of its sensors, in order |
| Section.ServiceNameParts | webups.py:97 | the item (`ServiceName`) is the chip's adapter, one space, then the sensor's name (the same expression as at line 89) |
| Section.ServiceNameInjective | webups.py:89-98 | when adapters have no space, two items are equal iff they have the same adapter and sensor name, so an item picks out one (adapter, sensor name) pair |
| Section.Snapshot | webups.py:52-82 | the section's value is one chip value per chip, in order |
| Section.UpdateAt | webups.py:111-114 | replacing one sensor record changes that position only; every other chip field and sensor is kept |
| Section.DistinctApart | webups.py:78-80 | in an unshared section, no sensor of one chip occurs in another chip |
| Section.UpdateAtSame | webups.py:111-114 | writing a sensor's own record back leaves the section's value unchanged |
| Section.DistinctAppend | webups.py:78-80 | appending a chip whose sensors are new and pairwise distinct keeps every sensor object in the section unshared |
| Parse.LastWrittenStep | webups.py:63-76 | the last field sets a value or bound if its key has the suffix; otherwise the earlier fields decide |
| Parse.ParseFieldsBounds | webups.py:63-76 | after the field loop: the name is kept; value, crit and warn each come from the last key with their suffix (`_input`, `crit`, `max`), or keep their earlier value |
| Parse.ParseFieldsType | webups.py:63-70 | after the field loop, the type is the one inferred from the last `_input` key a member matches, or is unchanged |
| Parse.IgnoredKey | webups.py:63-76 | a key with none of the three suffixes (such as `_min`) changes nothing |
| Parse.ApplyField | webups.py:64-76 | the three routing `if`s on one record; their effect over a field list is stated by ParseFieldsBounds, ParseFieldsType and IgnoredKey |
| Parse.ParseFields | webups.py:63-76 | the field loop on one record; stated by ParseFieldsBounds and ParseFieldsType, and carried out in place by ParseSensor |
| Parse.ParseMember | webups.py:61-76 | a sensor entry is named by its key; a string entry gives a blank sensor; it raises iff the entry is a number or null (NotIterable) or, with the conversion as written, a routed field holds null (ConversionRaised) |
| Parse.SensorEntriesAreNonAdapter | webups.py:58-60 | the sensor entries are exactly the chip's entries not keyed "Adapter" |
| Parse.ParseMembers | webups.py:58-78 | the sensor loop of one chip; stated by ParseMembersStructure and ParseMembersFailurePersists |
| Parse.SensorEntriesAppend | webups.py:58-60 | the "Adapter" skip keeps entry order and repeats: filtering a concatenation is the concatenation of the filtered parts |
| Parse.ParseMembersStructure | webups.py:58-78 | one sensor per non-"Adapter" entry, in entry order, each parsed from that entry; failure iff ParseMember raises on some such entry |
| Parse.ParseChipStructure | webups.py:55-80 | a chip parses iff its "Adapter" entry exists, is a string, and every other entry parses; otherwise it raises the missing adapter, then the non-string adapter, then the sensor loop's error, in that order; a parsed chip has no name, the adapter from that entry and the sensors of its entries |
| Parse.ParseChip | webups.py:55-80 | one chip: its adapter, then its sensors; stated by ParseChipStructure |
| Parse.ParseSection | webups.py:52-82 | the chip loop; stated by ParseSectionStructure, ParseSectionFirstError and ParseSectionFailurePersists |
| Parse.ParseSectionStructure | webups.py:54-82 | success iff every chip parses; then one chip per top-level key, in order, each the parse of its key |
| Parse.ParseSectionFirstError | webups.py:54-82 | the error raised is that of the first chip that fails |
| Parse.ParseMembersFailurePersists | webups.py:58-78 | once a prefix of a chip's entries raises, the whole chip raises the same error |
| Parse.ParseSectionFailurePersists | webups.py:54-80 | once a prefix of the document raises, the whole parse raises the same error |
| Parse.ApplyFieldTo | webups.py:64-76 | the in-place field update raises iff the key is routed and its conversion raises; otherwise it leaves the sensor at ApplyField of its old value |
| Parse.ApplyFields | webups.py:63-76 | the loop over a sensor's fields succeeds iff every routed field converts; then the sensor is at ParseFields of its old value |
| Parse.ParseSensor | webups.py:61-76 | builds a new `Sensor` whose value is ParseMember's result, or raises its error |
| Parse.AppendSensor | webups.py:59-78 | one sensor entry appends one new sensor whose value is ParseMember's result, or raises its error; the list stays free of duplicates |
| Parse.AppendSensors | webups.py:58-78 | appends to the chip's list exactly the sensors ParseMembers describes; all of them are new and pairwise distinct |
| Parse.NewChip | webups.py:55-78 | a new chip with the given adapter and no name, holding new, pairwise distinct sensors whose values are ParseMembers' result, or ParseMembers' error |
| Parse.ParseChipObject | webups.py:55-78 | builds a new `Chip` whose value is ParseChip's result, or raises its error; the chips parsed before are unchanged and share no sensor with it |
| Parse.AppendChip | webups.py:54-80 | one top-level key extends the parsed chips by ParseChip's result, keeping the sensors unshared, or raises its error |
| Parse.ParseWebups | webups.py:52-82 | under either conversion, raises ParseSection's error, or returns chips whose snapshot is ParseSection's result and whose sensor objects are all distinct |
| Parse.NullBoundFailsParseAsWritten | webups.py:35-82 | as written, a section whose "temp1_max" field is null makes the whole parse raise |
| Parse.NullBoundParsesCorrected | webups.py:35-82 | with the corrected conversion, the same section parses to one sensor with value 20 and no warning bound |
| Discovery.ChipItems | webups.py:87-91 | the items of one chip's sensors of a type; stated by ChipItemsMembers and ChipItemsAppend |
| Discovery.Discover | webups.py:85-91 | the discovered items of a section; stated by DiscoverMembers and DiscoverAppend |
| Discovery.DiscoverMembers | webups.py:85-91 | an item is discovered iff some sensor of the requested type has it as `adapter + " " + name` |
| Discovery.ChipItemsMembers | webups.py:87-91 | within one chip: an item is listed iff a sensor of the type has it |
| Discovery.DiscoverAppend | webups.py:85-91 | discovery keeps section order: the items of a concatenation are the items of the parts, concatenated |
| Discovery.ChipItemsAppend | webups.py:87-91 | within one chip, sensors keep their order |
| Discovery.DiscoverTemp | webups.py:180-182 | the temperature wrapper lists exactly the TEMP sensors' items |
| Discovery.DiscoverHours | webups.py:185-187 | the hours wrapper lists exactly the HOURS sensors' items |
| Discovery.DiscoverFan | webups.py:190-192 | the fan wrapper lists exactly the FAN sensors' items |
| Discovery.DiscoverVolt | webups.py:195-197 | the voltage wrapper lists exactly the IN sensors' items |
| Check.Filled | webups.py:111-114 | a missing bound filled from the other; stated by EmbeddedBoundsDecide and DegenerateFillExample |
| Check.Evaluate | webups.py:99-132 | only the bounds can change, exactly when the value is present, params are empty and exactly one bound is set, and then both equal it; a single WARN "No input" iff the value is missing; two outputs otherwise |
| Check.ParamsDecide | webups.py:103-108 | with non-empty params, the levels are `params[upper key]` and `params[lower key]` (None where absent), the metric is yielded before the result, and the sensor is unchanged |
| Check.ParamsIgnoreBounds | webups.py:103-108 | with non-empty params, the embedded bounds have no influence on the outputs |
| Check.EmbeddedBoundsDecide | webups.py:109-116 | with empty params and some bound, the upper levels are (warn, crit) with a missing one taken from the other, the lower levels None, and the record updated to both values |
| Check.NoLevelsAlwaysOk | webups.py:117-120 | no params and no bounds yields OK "Always Ok" followed by the metric of the value |
| Check.LocateFrom | webups.py:95-98 | the first matching position at or after chip `i` in section order, with no match before it; None iff no sensor from chip `i` on matches |
| Check.FindFrom | webups.py:96-98 | the first sensor at or after a position whose item matches, with none before it |
| Check.Locate | webups.py:95-98 | the position acted on has the item, and no earlier position in section order has it; None iff no sensor has the item |
| Check.LocateUnique | webups.py:95-98 | any position with Locate's two properties is Locate's result |
| Check.CheckSection | webups.py:94-133 | the check on the section's value; stated by CheckSectionTouchesOnlyMatch, ParamsIgnoreSectionBounds, UnknownItemYieldsNothing, MissingValueWarns and DiscoveredItemsAreChecked, and carried out in place by CheckWebups |
| Check.CheckSectionTouchesOnlyMatch | webups.py:94-133 | the check yields nothing iff no sensor has the item; it keeps every chip's name and adapter and every sensor's name, type and value, and can change a sensor record only at the first match |
| Check.ParamsIgnoreSectionBounds | webups.py:103-108 | with non-empty params, two sections that differ only in their sensors' bounds yield the same outputs |
| Check.UnknownItemYieldsNothing | webups.py:95-98 | an item no sensor has yields no output and leaves the section unchanged |
| Check.MissingValueWarns | webups.py:99-133 | a first matching sensor without a value yields only the WARN "No input delivered by sensors command" and changes nothing |
| Check.DiscoveredItemsAreChecked | webups.py:85-98 | every discovered item is found by the check and yields at least one output |
| Check.DegenerateFillExample | webups.py:111-130 | warn 30 and no crit, without params: compared against (30, 30), metric yielded before result, record left at (30, 30) |
| Check.FindSensor | webups.py:95-98 | the nested search loop returns exactly Locate's position on the section's snapshot |
| Check.EvaluateSensor | webups.py:99-132 | the in-place branch yields Evaluate's outputs and leaves the sensor at Evaluate's record |
| Check.EvaluateAt | webups.py:99-116 | evaluating the sensor at one position of an unshared section yields Evaluate's outputs and changes the snapshot at that position only, to Evaluate's record |
| Check.CheckWebups | webups.py:94-133 | the outputs and the section's new snapshot are CheckSection's on the old snapshot |
| Check.CheckHours | webups.py:165-167 | CheckSection with keys "levels" / "levels_lower" and metric "hours" |
| Check.CheckFan | webups.py:170-172 | CheckSection with keys "upper" / "levels" and metric "fan_speed" |
| Check.CheckVolt | webups.py:175-177 | CheckSection with keys "levels" / "levels_lower" and metric "volt" |
| Temperature.Rejected | webups.py:137-144 | None iff none of trend_compute, device_levels_handling, input_unit is set; otherwise the first of them in that order, with its message |
| Temperature.OutputUnit | webups.py:146-160 | the unit "output_unit" selects: "f", "k", or Celsius for anything else; stated by CelsiusKeepsSection and FahrenheitExample |
| Temperature.ToUnit | webups.py:149-160 | the °F and K formulas; stated by UnitRoundTrip and UnitMonotone |
| Temperature.UnitRoundTrip | webups.py:149-160 | in exact reals, the °F and K conversions lose nothing: converting back gives the Celsius value |
| Temperature.UnitMonotone | webups.py:149-160 | the conversions keep the order of readings |
| Temperature.ConvertRec | webups.py:152-160 | a missing value stays missing, a present one stays present; name, type and bounds are unchanged |
| Temperature.ConvertRecRoundTrip | webups.py:152-160 | a converted record determines the Celsius reading it came from |
| Temperature.ConvertChips | webups.py:150-160 | every sensor of every chip is converted, not only the item's and not only temperature sensors; chips keep everything else |
| Temperature.CelsiusKeepsSection | webups.py:146-148 | "c", another value, or no output_unit leaves the section exactly as it was |
| Temperature.CheckTempSection | webups.py:136-163 | raises iff an unsupported option is set, with Rejected's error; otherwise CheckSection with the temperature keys on the converted section |
| Temperature.ConvertKeepsAlike | webups.py:150-160 | the conversion keeps two sections that differ only in their bounds differing only in their bounds |
| Temperature.OutputUnitIgnoresEmbeddedBounds | webups.py:103-162 | with output_unit set and no unsupported option, two sections that differ only in their sensors' bounds yield the same outputs |
| Temperature.FahrenheitExample | webups.py:149-162 | 20 °C with output_unit "f" is compared as 68 with no levels, and the whole section is converted |
| Temperature.ConvertChip | webups.py:151-154 | the inner loop converts each of one chip's sensors in place |
| Temperature.ConvertChipAt | webups.py:150-154 | one outer step converts chip `i`'s sensors and no other sensor |
| Temperature.ConvertSection | webups.py:150-160 | the section's new snapshot is ConvertChips of the old one, and no sensor object becomes shared |
| Temperature.ConvertOutputUnit | webups.py:146-160 | the output_unit branch leaves the section at ConvertChips of its old value for the unit OutputUnit selects, with no sensor object shared |
| Temperature.CheckTemp | webups.py:136-163 | an unsupported option raises before anything changes; otherwise the outputs and new snapshot are CheckTempSection's |

## Left out

- The collector (`agent/webups.py`: `curl`, CSV files, `print`, rounding) is not part of this model. Its JSON output is the parser's input type.
- Rebuilding the text lines into one JSON string and `json.loads` are not modelled. The model starts from the decoded document, held as ordered `Entry` lists that keep key order.
- JSON values are limited to what the parser meets:
  - a chip's value is always an object;
  - a sensor entry is an object of scalars, a string, or a number or null;
  - booleans, arrays, and nesting below a sensor's fields are not distinguished.
- Json.Document: the types allow a key twice in one object, which `json.loads` never produces (it keeps the last value of a repeated key). The model assumes distinct keys; `Lookup` returns the first entry with the key.
- `float` on strings is the parameter `floatOf`. IEEE rounding is not modelled: values are `real`, and the °F and K conversions are exact.
- The framework's `check_levels`, `Result`, `Metric`, `Service` and `register.*` calls are symbolic. Outputs record the arguments passed or the fixed texts; what `check_levels` computes is not modelled.
- Printing "unknown sensor type" is a side effect with no effect on the result, and is not modelled.
- Parse.ParseChip: an "Adapter" value that is not a string makes the model reject the whole section at parse time (`AdapterNotText`). Python stores it and still parses, discovers and checks every other chip normally. It raises only in a discovery or check call that reaches `chip.adapter + " " + sensor.name` for that chip (webups.py:89, 97): discovery reaches it only for a sensor of the requested type, and the check for every sensor it scans up to and including its first match. A chip that neither call reaches never raises. The model does not capture this, because the collector always writes the adapter as a string.
- Parse.ParseMember: a string under a sensor key is modelled as a blank sensor. Python iterates over its characters, and a single character never ends in `_input`, `crit` or `max`.
- Exceptions are `Failure` values carrying the error. Exception classes are not modelled beyond the message texts of the temperature wrapper. Generator laziness is not modelled: an exception is a result in place of any output.
- Check.CheckWebups, Check.CheckHours, Check.CheckFan, Check.CheckVolt, Check.EvaluateAt, Temperature.ConvertChipAt, Temperature.ConvertSection, Temperature.ConvertOutputUnit, Temperature.CheckTemp require `Distinct` (no sensor object shared between two positions of the section), and Temperature.ConvertChip requires `NoDuplicates` of one chip's sensors. Parse.ParseWebups establishes both. A section with aliased sensors, which the parser never builds, is outside the model.
- Parse.ParseWebups: the ensures does not say the returned chips are newly allocated; it states only that their sensor objects are pairwise distinct.
- Discovery works on the section's snapshot, a value; it only reads the section.
- Repeated checks on one section object: each check is modelled on the section it is given. The model does not say how often the framework reuses a parsed section, so it makes no claim about conversions being applied repeatedly across calls.

## Findings

| source | as written | input that shows it | evidently intended | confidence | as-written member | corrected member |
|---|---|---|---|---|---|---|
| webups.py:35-39 | `str_to_float` catches only `ValueError`, so `float(None)` raises `TypeError` and the whole parse fails | a sensor object `{"temp1_input": 20, "temp1_max": null}`; the collector (agent/webups.py:17-21, 46-47) writes null for every empty warn or crit cell | an unconvertible bound is left unset (None) | not executed | Json.StrToFloatAsWritten, Json.NullBoundRaisesAsWritten, Parse.NullBoundFailsParseAsWritten | Json.StrToFloat, Parse.NullBoundParsesCorrected |
