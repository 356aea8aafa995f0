/**
 * The decoded JSON the check plugin receives: an ordered mapping from chip keys to chip
 * objects; each chip object maps "Adapter" to the adapter's name and every other key to a
 * sensor object of scalar fields. An object is its item list in key order.
 */
module Json {
  import opened Wrappers

  /** A JSON scalar as the parser meets it in a sensor's fields. */
  datatype Scalar = Num(x: real) | Str(s: string) | Null

  /** A JSON number or null: a scalar that is not a string. */
  type NonText = v: Scalar | !v.Str? witness Null

  /** A value under a chip key: a string, a nested object, or a number or null. */
  datatype Member = Text(s: string) | Object(fields: seq<Entry<Scalar>>) | Atom(a: NonText)

  datatype Entry<T> = Entry(key: string, val: T)

  type ChipObject = seq<Entry<Member>>
  type Document = seq<Entry<ChipObject>>

  /** Python's `float(str)` on the text of a JSON string; its syntax is not modelled. */
  type FloatSyntax = string -> Option<real>

  /** `obj[key]`: the value stored under `key`. */
  function Lookup<T>(obj: seq<Entry<T>>, key: string): (r: Option<T>)
    ensures r.None? <==> forall k :: 0 <= k < |obj| ==> obj[k].key != key
    ensures r.Some? ==> exists k :: 0 <= k < |obj| && obj[k].key == key && obj[k].val == r.value
  {
    if obj == [] then None
    else if obj[0].key == key then Some(obj[0].val)
    else
      var r := Lookup(obj[1..], key);
      assert forall k :: 0 <= k < |obj| - 1 ==> obj[1..][k] == obj[k + 1];
      r
  }

  /**
   * `str_to_float`: a number is kept, a string goes through `float`, and a failed
   * conversion gives None. A JSON null gives None; see StrToFloatAsWritten for what the
   * code as written does with it.
   */
  function StrToFloat(v: Scalar, floatOf: FloatSyntax): (r: Option<real>)
    ensures v.Null? ==> r.None?
    ensures StrToFloatAsWritten(v, floatOf).Success? ==> r == StrToFloatAsWritten(v, floatOf).value
  {
    match v
    case Num(x) => Some(x)
    case Str(s) => floatOf(s)
    case Null => None
  }

  datatype ConversionError = TypeError

  /**
   * `str_to_float` as written: `float(None)` raises TypeError, which the `except ValueError`
   * clause does not catch.
   */
  function StrToFloatAsWritten(v: Scalar, floatOf: FloatSyntax): (r: Result<Option<real>, ConversionError>)
    ensures r.Failure? <==> v.Null?
  {
    match v
    case Num(x) => Success(Some(x))
    case Str(s) => Success(floatOf(s))
    case Null => Failure(TypeError)
  }

  /** Which `str_to_float` the parser calls: the corrected one, or the one as written. */
  datatype Conversion = Corrected | AsWritten

  /** `str_to_float` under the chosen conversion: it raises only as written, and only on null. */
  function Convert(conv: Conversion, v: Scalar, floatOf: FloatSyntax): (r: Result<Option<real>, ConversionError>)
    ensures r.Failure? <==> conv == AsWritten && v.Null?
    ensures r.Success? ==> r.value == StrToFloat(v, floatOf)
  {
    match conv
    case Corrected => Success(StrToFloat(v, floatOf))
    case AsWritten => StrToFloatAsWritten(v, floatOf)
  }

  /**
   * The collector writes JSON null for every empty bound in its configuration table; as
   * written the parser then raises instead of leaving the bound unset.
   */
  lemma NullBoundRaisesAsWritten(floatOf: FloatSyntax)
    ensures StrToFloatAsWritten(Null, floatOf) == Failure(TypeError)
    ensures StrToFloat(Null, floatOf) == None
  {
  }
}
