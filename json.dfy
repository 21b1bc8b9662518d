/**
 * JSON values as the browser client and the HTTP views exchange them, with the JavaScript
 * readings the client applies to them: property lookup, truthiness and string conversion.
 * Numbers are integers only.
 */
module Json {
  import opened Wrappers
  import opened Text

  datatype Json =
    | JNull
    | JBool(b: bool)
    | JNum(n: int)
    | JStr(s: string)
    | JArr(items: seq<Json>)
    | JObj(entries: seq<(string, Json)>)  // in insertion order; a parsed object has distinct keys

  /** The keys of an object's entries. */
  function Keys(entries: seq<(string, Json)>): (r: set<string>)
    ensures forall i :: 0 <= i < |entries| ==> entries[i].0 in r
    ensures forall k | k in r :: exists i :: 0 <= i < |entries| && entries[i].0 == k
  {
    set i | 0 <= i < |entries| :: entries[i].0
  }

  /** The value under `key` in an object's entries (the first such entry). */
  function Lookup(entries: seq<(string, Json)>, key: string): Option<Json> {
    if entries == [] then None
    else if entries[0].0 == key then Some(entries[0].1)
    else Lookup(entries[1..], key)
  }

  /** A lookup finds a value exactly when some entry has the key, and the value is that entry's. */
  lemma {:induction false} LookupKeys(entries: seq<(string, Json)>, key: string)
    ensures Lookup(entries, key).None? <==> key !in Keys(entries)
    ensures Lookup(entries, key).Some? ==> exists i :: 0 <= i < |entries| && entries[i] == (key, Lookup(entries, key).value)
  {
    if entries != [] && entries[0].0 != key {
      LookupKeys(entries[1..], key);
      assert Keys(entries) == {entries[0].0} + Keys(entries[1..]);
      if Lookup(entries, key).Some? {
        var i :| 0 <= i < |entries[1..]| && entries[1..][i] == (key, Lookup(entries, key).value);
        assert entries[i + 1] == entries[1..][i];
      }
    }
  }

  /** An object's entries with every entry under `k` dropped. */
  function Without(entries: seq<(string, Json)>, k: string): (r: seq<(string, Json)>)
    ensures k !in Keys(r)
    ensures forall key | key != k :: Lookup(r, key) == Lookup(entries, key)
  {
    if entries == [] then []
    else if entries[0].0 == k then Without(entries[1..], k)
    else [entries[0]] + Without(entries[1..], k)
  }

  /** The entries pairing each key with the value at the same position. */
  function Zip(keys: seq<string>, values: seq<Json>): (e: seq<(string, Json)>)
    requires |keys| == |values|
    ensures |e| == |keys| && forall i :: 0 <= i < |keys| ==> e[i] == (keys[i], values[i])
  {
    seq(|keys|, i requires 0 <= i < |keys| => (keys[i], values[i]))
  }

  /** The key at position `i` of zipped entries, if no earlier key equals it, finds the value at `i`. */
  lemma LookupZip(keys: seq<string>, values: seq<Json>, i: nat)
    requires |keys| == |values| && i < |keys|
    requires forall j | 0 <= j < i :: keys[j] != keys[i]
    ensures Lookup(Zip(keys, values), keys[i]) == Some(values[i])
  {
    LookupFirst(Zip(keys, values), i);
  }

  /** An entry that no earlier entry shadows is what a lookup of its key finds. */
  lemma {:induction false} LookupFirst(entries: seq<(string, Json)>, i: nat)
    requires i < |entries|
    requires forall j | 0 <= j < i :: entries[j].0 != entries[i].0
    ensures Lookup(entries, entries[i].0) == Some(entries[i].1)
  {
    if i > 0 {
      LookupFirst(entries[1..], i - 1);
    }
  }

  /** A lookup in two runs of entries finds the first run's value if it has one, else the second's. */
  lemma {:induction false} LookupAppend(a: seq<(string, Json)>, b: seq<(string, Json)>, key: string)
    ensures Lookup(a + b, key) == if Lookup(a, key).Some? then Lookup(a, key) else Lookup(b, key)
  {
    if a == [] {
      assert a + b == b;
    } else {
      assert (a + b)[1..] == a[1..] + b;
      LookupAppend(a[1..], b, key);
    }
  }

  /** The JavaScript property access `v.key`: `None` stands for `undefined`. */
  function Get(v: Json, key: string): (r: Option<Json>)
    ensures !v.JObj? ==> r.None?
    ensures v.JObj? ==> r == Lookup(v.entries, key)
  {
    if v.JObj? then Lookup(v.entries, key) else None
  }

  /** JavaScript truthiness of a value that may be `undefined` (`None`). */
  predicate JsTruthy(v: Option<Json>) {
    match v
    case None => false
    case Some(JNull) => false
    case Some(JBool(b)) => b
    case Some(JNum(n)) => n != 0
    case Some(JStr(s)) => s != ""
    case Some(JArr(_)) => true
    case Some(JObj(_)) => true
  }

  /** The decimal form of an integer, with a leading `-` when negative. */
  function IntToString(n: int): (r: string)
    ensures n >= 0 ==> r == NatToString(n)
    ensures n < 0 ==> r == "-" + NatToString(-n)
  {
    if n >= 0 then NatToString(n) else "-" + NatToString(-n)
  }

  /**
   * `String(v)`: strings as they are, arrays as their elements joined by `,` (with `null`
   * elements empty), plain objects as `[object Object]`.
   */
  function JsString(v: Json): string
    decreases v
  {
    match v
    case JNull => "null"
    case JBool(b) => if b then "true" else "false"
    case JNum(n) => IntToString(n)
    case JStr(s) => s
    case JArr(items) => JoinItems(v, items, ",")
    case JObj(_) => "[object Object]"
  }

  /** `items.join(sep)`, where `items` are the elements of the array `parent`, or a suffix of them. */
  function JoinItems(parent: Json, items: seq<Json>, sep: string): (r: string)
    requires parent.JArr? && |items| <= |parent.items| && items == parent.items[|parent.items| - |items|..]
    decreases parent, |items|
  {
    if items == [] then ""
    else
      var first := if items[0].JNull? then "" else JsString(items[0]);
      if |items| == 1 then first
      else first + sep + JoinItems(parent, items[1..], sep)
  }

  /** A string array joins to its strings separated by `sep`. */
  lemma {:induction false} JoinStrings(parent: Json, items: seq<Json>, strs: seq<string>, sep: string)
    requires parent.JArr? && |items| <= |parent.items| && items == parent.items[|parent.items| - |items|..]
    requires |strs| == |items| && forall i :: 0 <= i < |items| ==> items[i] == JStr(strs[i])
    ensures JoinItems(parent, items, sep) == Join(strs, sep)
  {
    if |items| > 1 {
      JoinStrings(parent, items[1..], strs[1..], sep);
    }
  }

  /** A list of strings as a JSON array. */
  function StrArray(strs: seq<string>): (r: Json)
    ensures r.JArr? && |r.items| == |strs|
    ensures forall i :: 0 <= i < |strs| ==> r.items[i] == JStr(strs[i])
  {
    JArr(seq(|strs|, i requires 0 <= i < |strs| => JStr(strs[i])))
  }

  /** A string array's `String(...)`: its strings joined by commas. */
  lemma StringArrayString(strs: seq<string>)
    ensures JsString(StrArray(strs)) == Join(strs, ",")
  {
    var a := StrArray(strs);
    JoinStrings(a, a.items, strs, ",");
  }
}
