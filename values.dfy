/** Values as the plugin passes them around: PHP scalars, lists and
    string-keyed arrays, plus the REST response that wraps one of them. */
module Values {

  datatype Option<+T> = None | Some(value: T)

  /** A PHP value: a scalar, a list array or a string-keyed array. */
  datatype Value =
    | Null
    | Bool(b: bool)
    | Int(i: int)
    | Str(s: string)
    | ListOf(items: seq<Value>)
    | Dict(fields: map<string, Value>)

  /** A key of a PHP array: a positional index or a string key. */
  datatype Key = Index(i: nat) | Name(s: string)

  /** A PHP array such as the `$args` handed to `wp_remote_post`. */
  type Args = map<Key, Value>

  /** A `WP_REST_Response`: its data and its HTTP status. */
  datatype Response = Response(data: Value, status: int)

  /** The arguments a hook callback receives (`func_get_args()`), as the
      positional array PHP builds from them. */
  function Positional(vals: seq<Value>): (r: Args)
    ensures forall k :: k in r <==> k.Index? && k.i < |vals|
    ensures forall i :: 0 <= i < |vals| ==> r[Index(i)] == vals[i]
  {
    map i | 0 <= i < |vals| :: Index(i) := vals[i]
  }

  /** A list of strings as a PHP list array. */
  function StrList(s: seq<string>): (v: Value)
  {
    ListOf(seq(|s|, i requires 0 <= i < |s| => Str(s[i])))
  }

  /** A table from names to string lists as a PHP array of list arrays. */
  function TableValue(t: map<string, seq<string>>): (v: Value)
  {
    Dict(map h | h in t :: StrList(t[h]))
  }

  /** Reads back a list of strings: defined exactly when every item is a
      string, and then item by item the same strings. */
  function StringsOf(items: seq<Value>): (r: Option<seq<string>>)
    ensures r.Some? <==> forall i :: 0 <= i < |items| ==> items[i].Str?
    ensures r.Some? ==> |r.value| == |items| && forall i :: 0 <= i < |items| ==> items[i] == Str(r.value[i])
  {
    if items == [] then Some([])
    else match (items[0], StringsOf(items[1..]))
      case (Str(s), Some(rest)) => Some([s] + rest)
      case _ => None
  }

  /** Reads back an array whose members are lists of strings. */
  function TableOf(v: Value): (r: Option<map<string, seq<string>>>)
  {
    if v.Dict? && forall h | h in v.fields :: v.fields[h].ListOf? && StringsOf(v.fields[h].items).Some?
    then Some(map h | h in v.fields :: StringsOf(v.fields[h].items).value)
    else None
  }

  lemma {:induction false} StringsOfStrList(s: seq<string>)
    ensures StringsOf(StrList(s).items) == Some(s)
  {
    var items := StrList(s).items;
    if s != [] {
      assert items[1..] == StrList(s[1..]).items;
      StringsOfStrList(s[1..]);
      assert [s[0]] + s[1..] == s;
    }
  }

  /** The encoding of a table loses nothing: reading it back gives the table. */
  lemma TableRoundTrip(t: map<string, seq<string>>)
    ensures TableOf(TableValue(t)) == Some(t)
  {
    var v := TableValue(t);
    forall h | h in v.fields
      ensures v.fields[h].ListOf? && StringsOf(v.fields[h].items) == Some(t[h])
    {
      StringsOfStrList(t[h]);
    }
    assert TableOf(v).value == t;
  }
}
