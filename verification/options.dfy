/** Option values as the command line, the configuration file and the
    built-in defaults supply them, and the three-layer merge of those sources. */
module Options {
  import opened Results

  /** No key occurs twice in an ordered table. */
  predicate DistinctKeys(t: seq<(string, string)>) {
    forall i, j :: 0 <= i < j < |t| ==> t[i].0 != t[j].0
  }

  /** An ordered string-to-string table, like the Ruby hash
      `{ :fonts => "output/fonts", "special.js" => "assets/javascripts" }`:
      insertion order is kept and keys are distinct. */
  type Dict = t: seq<(string, string)> | DistinctKeys(t)

  /** The shapes an option value can take: a string, a nested table
      (for `input` and `output`) or a list of names (for `templates`). */
  datatype Value =
    | Text(text: string)
    | Table(entries: Dict)
    | Names(names: seq<string>)

  /** A set of options keyed by option name (`font_name`, `input`, ...). */
  type OptionSet = map<string, Value>

  /** The value stored under `key` in an ordered table, if any. */
  function Lookup(t: seq<(string, string)>, key: string): (r: Option<string>)
    ensures r.None? <==> forall i :: 0 <= i < |t| ==> t[i].0 != key
    ensures r.Some? ==> exists i :: 0 <= i < |t| && t[i] == (key, r.value)
  {
    if |t| == 0 then None
    else if t[0].0 == key then Some(t[0].1)
    else Lookup(t[1..], key)
  }

  /** In a table with distinct keys, looking up the key of any entry finds
      that entry's value. */
  lemma {:induction false} LookupEntry(t: seq<(string, string)>, i: nat)
    requires DistinctKeys(t)
    requires i < |t|
    ensures Lookup(t, t[i].0) == Some(t[i].1)
  {
    if i > 0 {
      assert t[0].0 != t[i].0;
      assert t[1..][i - 1] == t[i];
      LookupEntry(t[1..], i - 1);
    }
  }

  /** Looking up in a concatenation searches the first part, then the second. */
  lemma {:induction false} LookupConcat(a: seq<(string, string)>, b: seq<(string, string)>, key: string)
    ensures Lookup(a + b, key) == if Lookup(a, key).Some? then Lookup(a, key) else Lookup(b, key)
  {
    if |a| > 0 {
      assert (a + b)[1..] == a[1..] + b;
      LookupConcat(a[1..], b, key);
    } else {
      assert a + b == b;
    }
  }

  /** The value of option `key`, if the set holds one. */
  function Get(o: OptionSet, key: string): Option<Value> {
    if key in o then Some(o[key]) else None
  }

  /** Layers the three option sources: configuration-file values replace
      defaults and caller (command-line) values replace both, key by key; a
      key absent from a higher layer keeps the lower layer's value whatever
      its shape. */
  function Merge(defaults: OptionSet, fromFile: OptionSet, fromCaller: OptionSet): (r: OptionSet)
    ensures r.Keys == defaults.Keys + fromFile.Keys + fromCaller.Keys
    ensures forall k :: k in fromCaller ==> r[k] == fromCaller[k]
    ensures forall k :: k in fromFile && k !in fromCaller ==> r[k] == fromFile[k]
    ensures forall k :: k in defaults && k !in fromFile && k !in fromCaller ==> r[k] == defaults[k]
  {
    defaults + fromFile + fromCaller
  }
}
