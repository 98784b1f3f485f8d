/** Parsed JSON as the quote provider's responses arrive after
    `response.json()`, with the few JavaScript operations the data layer
    applies to them: truthiness, property access, `Object.keys` and the
    numeric coercions `parseFloat`/`parseInt`. */
module JsonValues {
  import opened Wrappers
  import opened Sequences
  import Numbers

  /** A parsed JSON value. An object keeps its members in document order;
      a name may appear more than once, as it may in JSON text. */
  datatype Json =
    | Null
    | Bool(b: bool)
    | Num(n: real)
    | Str(s: string)
    | Arr(items: seq<Json>)
    | Obj(fields: seq<(string, Json)>)

  /** JavaScript truthiness (`if (v)`, `v || d`). */
  predicate Truthy(v: Json) {
    match v
    case Null => false
    case Bool(b) => b
    case Num(n) => n != 0.0
    case Str(s) => s != ""
    case _ => true
  }

  /** The value `JSON.parse` keeps for `key`: the last member with that name. */
  function Lookup(fields: seq<(string, Json)>, key: string): (r: Option<Json>)
    ensures r.Some? <==> exists i :: 0 <= i < |fields| && fields[i].0 == key
  {
    if fields == [] then None
    else if fields[|fields| - 1].0 == key then Some(fields[|fields| - 1].1)
    else
      var r := Lookup(fields[..|fields| - 1], key);
      assert forall i :: 0 <= i < |fields| - 1 ==> fields[..|fields| - 1][i] == fields[i];
      r
  }

  /** The member at `i` is the one `JSON.parse` keeps when no later member
      has its name. */
  lemma {:induction false} LookupAt(fields: seq<(string, Json)>, i: nat)
    requires i < |fields|
    requires forall j :: i < j < |fields| ==> fields[j].0 != fields[i].0
    ensures Lookup(fields, fields[i].0) == Some(fields[i].1)
    decreases |fields|
  {
    if i < |fields| - 1 {
      var init := fields[..|fields| - 1];
      LookupAt(init, i);
      assert init[i] == fields[i];
    }
  }

  /** A later member with another name does not hide an earlier one. */
  lemma LookupSkip(fields: seq<(string, Json)>, member: (string, Json), key: string)
    requires member.0 != key
    ensures Lookup(fields + [member], key) == Lookup(fields, key)
  {
    assert (fields + [member])[..|fields|] == fields;
  }

  /** The last member with a name is the one read. */
  lemma LookupHit(fields: seq<(string, Json)>, member: (string, Json))
    ensures Lookup(fields + [member], member.0) == Some(member.1)
  {
  }

  /** `v[key]` for a property name that is not an array index; `None` is
      `undefined`. Only objects have such properties in parsed JSON. */
  function Get(v: Json, key: string): Option<Json> {
    match v
    case Obj(fields) => Lookup(fields, key)
    case _ => None
  }

  function Names(fields: seq<(string, Json)>): (r: seq<string>)
    ensures |r| == |fields| && forall i :: 0 <= i < |r| ==> r[i] == fields[i].0
  {
    seq(|fields|, i requires 0 <= i < |fields| => fields[i].0)
  }

  /** `Object.keys(v)` of a parsed object: each member name once, in order of
      first appearance. Other values are given no keys here. */
  function Keys(v: Json): seq<string> {
    match v
    case Obj(fields) => Dedup(Names(fields))
    case _ => []
  }

  /** `Object.keys(v).length`: members of an object, elements of an array,
      characters of a string, and none for the other values. */
  function KeyCount(v: Json): nat {
    match v
    case Obj(fields) => |Dedup(Names(fields))|
    case Arr(items) => |items|
    case Str(s) => |s|
    case _ => 0
  }

  /** Every key `Object.keys` reports can be looked up, and no name repeats. */
  lemma KeysPresent(v: Json)
    ensures Distinct(Keys(v))
    ensures forall k :: k in Keys(v) ==> Get(v, k).Some?
  {
    if v.Obj? {
      DedupSpec(Names(v.fields));
      forall k | k in Keys(v)
        ensures Get(v, k).Some?
      {
        var i :| 0 <= i < |Names(v.fields)| && Names(v.fields)[i] == k;
        assert v.fields[i].0 == k;
      }
    }
  }

  /** An object has keys exactly when it has a member. */
  lemma KeysOfObject(fields: seq<(string, Json)>)
    ensures |Keys(Obj(fields))| == KeyCount(Obj(fields))
    ensures KeyCount(Obj(fields)) == 0 <==> fields == []
  {
    DedupSpec(Names(fields));
    if fields != [] {
      assert Names(fields)[0] in Dedup(Names(fields));
    }
  }

  /** `parseFloat(v)`; `None` is `NaN`. A string is read as decimal text, a
      number is itself, `undefined`, `null`, booleans and objects are `NaN`. */
  function ParseFloatOf(v: Option<Json>): Option<real> {
    match v
    case Some(Str(s)) => Numbers.ParseFloat(s)
    case Some(Num(n)) => Some(n)
    case _ => None
  }

  /** `parseInt(v)`; a number is truncated toward zero. */
  function ParseIntOf(v: Option<Json>): Option<int> {
    match v
    case Some(Str(s)) => Numbers.ParseInt(s)
    case Some(Num(n)) => Some(if n >= 0.0 then n.Floor else -((-n).Floor))
    case _ => None
  }
}
