/**
 * JSON values as serde sees them, and the few typed reads the derived
 * `Deserialize` implementations of the core perform on them. How text
 * becomes a value is not modelled: it is a function given by the caller.
 */
module Json {
  import opened Wrappers

  /** A JSON value. Numbers are integers only: every number the core reads is an `i64`. */
  datatype Json =
    | Null
    | Bool(b: bool)
    | Number(n: int)
    | Str(s: string)
    | Array(items: seq<Json>)
    | Object(fields: map<string, Json>)

  const I64Min: int := -0x8000_0000_0000_0000
  const I64Max: int := 0x7FFF_FFFF_FFFF_FFFF

  /** The member `name` of an object; `None` when it is absent or `j` is not an object. */
  function Field(j: Json, name: string): Option<Json>
  {
    if j.Object? && name in j.fields then Some(j.fields[name]) else None
  }

  /** A `String` field: present and a JSON string. */
  function StringField(j: Json, name: string): (r: Option<string>)
    ensures r.Some? <==> j.Object? && name in j.fields && j.fields[name].Str?
    ensures r.Some? ==> j.fields[name] == Str(r.value)
  {
    match Field(j, name)
    case Some(Str(s)) => Some(s)
    case _ => None
  }

  /** An `i64` field: present, a JSON integer, and within the range of `i64`. */
  function I64Field(j: Json, name: string): (r: Option<int>)
    ensures r.Some? <==> && j.Object? && name in j.fields && j.fields[name].Number?
                         && I64Min <= j.fields[name].n <= I64Max
    ensures r.Some? ==> j.fields[name] == Number(r.value)
  {
    match Field(j, name)
    case Some(Number(n)) => if I64Min <= n <= I64Max then Some(n) else None
    case _ => None
  }

  /** The elements of an array of strings (`Vec<String>`), or `None` if one of them is not a string. */
  function Strings(items: seq<Json>): (r: Option<seq<string>>)
    ensures r.Some? <==> forall i :: 0 <= i < |items| ==> items[i].Str?
    ensures r.Some? ==> |r.value| == |items| && forall i :: 0 <= i < |items| ==> items[i] == Str(r.value[i])
    decreases |items|
  {
    if items == [] then Some([])
    else match items[0]
      case Str(s) =>
        (match Strings(items[1..])
         case Some(rest) => Some([s] + rest)
         case None => None)
      case _ => None
  }

  /** The JSON array that holds exactly the strings `ss`. */
  function StringArray(ss: seq<string>): (j: Json)
  {
    Array(seq(|ss|, i requires 0 <= i < |ss| => Str(ss[i])))
  }

  /** `Strings` reads back exactly the list that `StringArray` writes, and nothing else gives that list. */
  lemma StringsOfStringArray(items: seq<Json>, ss: seq<string>)
    ensures Strings(items) == Some(ss) <==> Array(items) == StringArray(ss)
  {
    if Strings(items) == Some(ss) {
      assert items == StringArray(ss).items;
    }
    if Array(items) == StringArray(ss) {
      assert forall i :: 0 <= i < |items| ==> items[i] == Str(ss[i]);
      var v := Strings(items).value;
      assert forall i :: 0 <= i < |ss| ==> v[i] == ss[i];
      assert v == ss;
    }
  }

  /** A `Vec<String>` field. */
  function StringListField(j: Json, name: string): (r: Option<seq<string>>)
    ensures r.Some? <==> && j.Object? && name in j.fields && j.fields[name].Array?
                         && forall i :: 0 <= i < |j.fields[name].items| ==> j.fields[name].items[i].Str?
    ensures r.Some? ==> j.fields[name] == StringArray(r.value)
  {
    match Field(j, name)
    case Some(Array(items)) =>
      (match Strings(items)
       case Some(ss) => StringsOfStringArray(items, ss); Some(ss)
       case None => None)
    case _ => None
  }
}
