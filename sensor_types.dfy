/** The sensor type vocabulary and the prefix match that assigns a type to an `_input` key. */
module SensorTypes {
  import opened Wrappers
  import opened Text

  datatype SensorType = TEMP | IN | FAN | CPU | POWER | CURR | ENERGY | INTRUSION | HUMIDITY | HOURS

  /** The enum member's value: the key prefix it stands for. */
  function Value(t: SensorType): string {
    match t
    case TEMP => "temp"
    case IN => "in"
    case FAN => "fan"
    case CPU => "cpu"
    case POWER => "power"
    case CURR => "curr"
    case ENERGY => "energy"
    case INTRUSION => "intrusion"
    case HUMIDITY => "humidity"
    case HOURS => "hours"
  }

  /** The members in declaration order, the order in which iterating the enum visits them. */
  const Members: seq<SensorType> := [TEMP, IN, FAN, CPU, POWER, CURR, ENERGY, INTRUSION, HUMIDITY, HOURS]

  predicate Matches(key: string, t: SensorType) {
    StartsWith(key, Value(t))
  }

  /** The position of the last member of `ts` whose value is a prefix of `key`. */
  function LastMatchAt(key: string, ts: seq<SensorType>): (r: Option<nat>)
    ensures r.None? ==> forall k :: 0 <= k < |ts| ==> !Matches(key, ts[k])
    ensures r.Some? ==> r.value < |ts| && Matches(key, ts[r.value]) &&
                        forall k :: r.value < k < |ts| ==> !Matches(key, ts[k])
  {
    if ts == [] then None
    else if Matches(key, ts[|ts| - 1]) then Some(|ts| - 1)
    else
      var r := LastMatchAt(key, ts[..|ts| - 1]);
      assert forall k :: 0 <= k < |ts| - 1 ==> ts[..|ts| - 1][k] == ts[k];
      r
  }

  /** The last member of `ts` whose value is a prefix of `key`, if there is one. */
  function LastMatch(key: string, ts: seq<SensorType>): Option<SensorType> {
    match LastMatchAt(key, ts)
    case None => None
    case Some(k) => Some(ts[k])
  }

  /** The type an `_input` key names, if any member matches it. */
  function InferType(key: string): Option<SensorType> {
    LastMatch(key, Members)
  }

  /** A member that matches, with no later member matching, is the inferred type. */
  lemma {:induction false} LastMatchIs(key: string, ts: seq<SensorType>, k: nat)
    requires k < |ts| && Matches(key, ts[k])
    requires forall k' :: k < k' < |ts| ==> !Matches(key, ts[k'])
    ensures LastMatch(key, ts) == Some(ts[k])
  {
    if k < |ts| - 1 {
      LastMatchIs(key, ts[..|ts| - 1], k);
    }
  }

  /**
   * The loop over the enum inside the parser: it starts from the sensor's current type and
   * overwrites it at every member that matches, never breaking out.
   */
  method MatchType(key: string, prior: Option<SensorType>) returns (t: Option<SensorType>)
    ensures t == if InferType(key).Some? then InferType(key) else prior
  {
    t := prior;
    for i := 0 to |Members|
      invariant t == if LastMatch(key, Members[..i]).Some? then LastMatch(key, Members[..i]) else prior
    {
      assert Members[..i + 1][..i] == Members[..i];
      if StartsWith(key, Value(Members[i])) {
        t := Some(Members[i]);
      }
    }
    assert Members[..|Members|] == Members;
  }

  /** The only two member values of which one is a prefix of the other are "in" and "intrusion". */
  lemma OnlyInNestsInIntrusion(u: SensorType, t: SensorType)
    requires u != t && StartsWith(Value(t), Value(u))
    ensures u == IN && t == INTRUSION
  {
    assert Value(t)[..|Value(u)|] == Value(u);
    assert Value(t)[0] == Value(u)[0] && Value(t)[1] == Value(u)[1];
  }

  lemma MemberIndex(t: SensorType) returns (k: nat)
    ensures k < |Members| && Members[k] == t
  {
    match t
    case TEMP => k := 0;
    case IN => k := 1;
    case FAN => k := 2;
    case CPU => k := 3;
    case POWER => k := 4;
    case CURR => k := 5;
    case ENERGY => k := 6;
    case INTRUSION => k := 7;
    case HUMIDITY => k := 8;
    case HOURS => k := 9;
  }

  /**
   * Last-in-declaration-order is the same as longest-match: the inferred type matches,
   * every matching member's value is a prefix of the inferred one's, and no type is
   * inferred exactly when no member matches.
   */
  lemma InferredIsLongestMatch(key: string)
    ensures InferType(key).None? <==> forall t :: !Matches(key, t)
    ensures InferType(key).Some? ==>
              Matches(key, InferType(key).value) &&
              forall u :: Matches(key, u) ==> StartsWith(Value(InferType(key).value), Value(u))
  {
    forall t | Matches(key, t) ensures InferType(key).Some? {
      var k := MemberIndex(t);
    }
    if InferType(key).Some? {
      var at := LastMatchAt(key, Members).value;
      var t := Members[at];
      forall u | Matches(key, u) ensures StartsWith(Value(t), Value(u)) {
        if u != t {
          var k := MemberIndex(u);
          if |Value(t)| < |Value(u)| {
            PrefixesNest(key, Value(t), Value(u));
            OnlyInNestsInIntrusion(t, u);
            // "in" is declared before "intrusion", so it cannot be the last match here
            assert false;
          }
          PrefixesNest(key, Value(u), Value(t));
        }
      }
    }
  }

  lemma FirstCharacter(s: string, p: string)
    requires StartsWith(s, p) && |p| > 0
    ensures s[0] == p[0]
  {
    assert s[..|p|][0] == p[0];
  }

  lemma DiffersAt(s: string, p: string, i: nat)
    requires i < |p| && i < |s| && s[i] != p[i]
    ensures !StartsWith(s, p)
  {
    if |p| <= |s| { assert s[..|p|][i] == s[i]; }
  }

  /** A key starting "intrusion" is INTRUSION, not IN, although "in" matches it too. */
  lemma IntrusionExample()
    ensures InferType("intrusion0_input") == Some(INTRUSION)
  {
    var a := "intrusion0_input";
    assert a[..9] == "intrusion";
    forall k | 7 < k < |Members| ensures !Matches(a, Members[k]) {
      if Matches(a, Members[k]) { FirstCharacter(a, Value(Members[k])); }
    }
    LastMatchIs(a, Members, 7);
  }

  /** A key starting "in" and nothing longer is IN. */
  lemma InExample()
    ensures InferType("in1_input") == Some(IN)
  {
    var b := "in1_input";
    assert b[..2] == "in";
    forall k | 1 < k < |Members| ensures !Matches(b, Members[k]) {
      var v := Value(Members[k]);
      if |v| <= |b| {
        if b[0] != v[0] { DiffersAt(b, v, 0); } else { DiffersAt(b, v, 2); }
      }
    }
    LastMatchIs(b, Members, 1);
  }

  /** A key no member's value starts leaves the type unset. */
  lemma UnknownExample()
    ensures InferType("voltage_input") == None
  {
    var c := "voltage_input";
    assert c[0] == 'v';
    forall t ensures !Matches(c, t) {
      if Matches(c, t) { FirstCharacter(c, Value(t)); }
    }
  }
}
