/**
 * The values that flow through the API: request arguments, database cells,
 * the JSON items handed to `jsonify`, parsed request bodies and responses.
 */
module Values {

  datatype Option<+T> = None | Some(value: T)

  /** `request.args.get(key)`: the query-string arguments of a request, looked up by name. */
  function Arg(args: map<string, string>, key: string): (r: Option<string>)
    ensures r.Some? <==> key in args
    ensures r.Some? ==> r.value == args[key]
  {
    if key in args then Some(args[key]) else None
  }

  /** A floating-point number seen abstractly: a finite value or NaN. */
  datatype Num = Finite(value: real) | NaN

  /** A timestamp produced by the database (seconds since the epoch, UTC). */
  datatype Timestamp = Timestamp(epochSeconds: int)

  /** A cell that the CSV export turns into text with Python's `str()`. */
  datatype Scalar = SNum(n: Num) | SInt(i: int) | STime(t: Timestamp) | SNone

  /** `str()` of a nullable numeric cell: `None` when the cell is NULL. */
  function OptNumScalar(v: Option<Num>): (s: Scalar)
    ensures v.None? <==> s == SNone
    ensures v.Some? ==> s == SNum(v.value)
  {
    match v
    case None => SNone
    case Some(n) => SNum(n)
  }

  /** A value stored in a response item (a Python dict that `jsonify` serialises). */
  datatype Value =
    | VNull
    | VBool(b: bool)
    | VInt(i: int)
    | VNum(n: Num)
    | VStr(s: string)
    | VTime(t: Timestamp)

  /** One response item: a dict from key to value (`jsonify` sorts keys on output). */
  type Item = map<string, Value>

  /**
   * A JSON request body as sent. An object's fields are listed as they appear
   * in the text, so a key may repeat; parsing it into a Python dict keeps
   * each key once, at its first position.
   */
  datatype Json =
    | JNull
    | JBool(b: bool)
    | JInt(i: int)
    | JFloat(n: Num)
    | JStr(s: string)
    | JArray(elems: seq<Json>)
    | JObject(fields: seq<(string, Json)>)

  /** Python truthiness of a parsed body (`if observations`). */
  predicate Truthy(j: Json)
  {
    match j
    case JNull => false
    case JBool(b) => b
    case JInt(i) => i != 0
    case JFloat(n) => n != Finite(0.0)
    case JStr(s) => s != ""
    case JArray(e) => e != []
    case JObject(f) => f != []
  }

  /** The position of the first occurrence of `k` in `s`. */
  function IndexOf(s: seq<string>, k: string): (i: nat)
    requires k in s
    ensures i < |s| && s[i] == k && k !in s[..i]
  {
    if s[0] == k then 0
    else
      var i := 1 + IndexOf(s[1..], k);
      assert s[..i] == [s[0]] + s[1..][..i - 1];
      i
  }

  /**
   * The keys of a dict built from `keys` in order, leaving out those in
   * `seen`: each key once, at its first occurrence, so in the order of
   * their first occurrences.
   */
  function FirstOccurrences(keys: seq<string>, seen: set<string>): (r: seq<string>)
    ensures forall i :: 0 <= i < |r| ==> r[i] in keys && r[i] !in seen
    ensures forall i, j :: 0 <= i < j < |r| ==> r[i] != r[j]
    ensures forall k :: k in keys && k !in seen ==> k in r
    ensures forall i, j :: 0 <= i < j < |r| ==> IndexOf(keys, r[i]) < IndexOf(keys, r[j])
    decreases |keys|
  {
    if keys == [] then []
    else if keys[0] in seen then
      var r := FirstOccurrences(keys[1..], seen);
      IndexOfTail(keys, r);
      r
    else
      var rest := FirstOccurrences(keys[1..], seen + {keys[0]});
      IndexOfTail(keys, rest);
      [keys[0]] + rest
  }

  /** Past the head, a key's first position is one more than in the tail. */
  lemma IndexOfTail(keys: seq<string>, r: seq<string>)
    requires |keys| > 0
    requires forall i :: 0 <= i < |r| ==> r[i] in keys[1..] && r[i] != keys[0]
    ensures forall i :: 0 <= i < |r| ==> IndexOf(keys, r[i]) == 1 + IndexOf(keys[1..], r[i])
  {
  }

  /** The names of an object's fields, in the order the body lists them. */
  function FieldNames(fields: seq<(string, Json)>): (names: seq<string>)
    ensures |names| == |fields|
    ensures forall i :: 0 <= i < |fields| ==> names[i] == fields[i].0
  {
    seq(|fields|, i requires 0 <= i < |fields| => fields[i].0)
  }

  /**
   * The keys of the dict that `request.get_json()` builds from an object's
   * fields: each field name once, in the order of first appearance.
   */
  function DictKeys(fields: seq<(string, Json)>): (r: seq<string>)
    ensures forall i, j :: 0 <= i < j < |r| ==> r[i] != r[j]
    ensures forall k :: k in r <==> k in FieldNames(fields)
    ensures forall i, j :: 0 <= i < j < |r| ==> IndexOf(FieldNames(fields), r[i]) < IndexOf(FieldNames(fields), r[j])
    ensures |r| > 0 <==> |fields| > 0
  {
    var keys := FieldNames(fields);
    var r := FirstOccurrences(keys, {});
    assert |fields| > 0 ==> keys[0] in r;
    r
  }

  /**
   * What `for x in body` yields, or None when the body has no length
   * (`len()` of a number or a bool raises): a list yields its elements, a
   * string its one-character strings, a dict its keys, each once.
   */
  function Elements(j: Json): (r: Option<seq<Json>>)
    ensures r.Some? <==> (j.JArray? || j.JStr? || j.JObject?)
    ensures j.JArray? ==> r == Some(j.elems)
    ensures j.JStr? ==> |r.value| == |j.s| && forall i :: 0 <= i < |j.s| ==> r.value[i] == JStr([j.s[i]])
    ensures j.JObject? ==>
      var keys := DictKeys(j.fields);
      |r.value| == |keys| && forall i :: 0 <= i < |keys| ==> r.value[i] == JStr(keys[i])
    ensures r.Some? ==> (|r.value| > 0 <==> Truthy(j))
  {
    match j
    case JArray(e) => Some(e)
    case JStr(s) => Some(seq(|s|, i requires 0 <= i < |s| => JStr([s[i]])))
    case JObject(f) =>
      var keys := DictKeys(f);
      Some(seq(|keys|, i requires 0 <= i < |keys| => JStr(keys[i])))
    case _ => None
  }

  /** A key repeated in the body is iterated once, as the parsed dict holds it once. */
  lemma RepeatedKeyIteratedOnce()
    ensures Elements(JObject([("a", JInt(1)), ("a", JInt(2))])) == Some([JStr("a")])
  {
    var fields := [("a", JInt(1)), ("a", JInt(2))];
    var keys := ["a", "a"];
    assert FieldNames(fields) == keys;
    assert FirstOccurrences(keys[1..], {"a"}) == [];
    assert DictKeys(fields) == ["a"];
    var r := Elements(JObject(fields));
    assert |r.value| == 1 && r.value[0] == JStr("a");
    assert r.value == [JStr("a")];
  }

  /** What a route hands back to Flask. */
  datatype Response =
    | Items(items: seq<Item>)                              // jsonify(array), status 200
    | Echo(status: int, body: Json)                        // Response(json.dumps(body), status)
    | SendFile(path: string, attachmentName: Option<string>) // send_file(path, as_attachment=True)
    | ServerError                                          // an uncaught exception: status 500
}
