/** The in-memory document tree that the JSON or YAML loader produces: nested mappings,
    lists and scalars.  A mapping is kept as a sequence of entries, so that the order in
    which a Python dict iterates over its keys (insertion order) is part of the value. */
module Values {
  import opened Results

  /** A `datetime.date` (YAML turns an unquoted `2010-09-09` into one). */
  datatype Date = Date(year: int, month: int, day: int)

  datatype Value =
    | Map(entries: seq<Entry>)
    | List(items: seq<Value>)
    | Str(text: string)
    | Bool(b: bool)
    | Num(n: int)
    | Stamp(date: Date)
    | Null

  datatype Entry = Entry(key: string, value: Value)

  /** The leaf kinds that the reference walk accepts and skips. */
  predicate IsScalar(v: Value) {
    v.Str? || v.Bool? || v.Num? || v.Stamp?
  }

  /** `key in d` for a dict `d`. */
  predicate HasKey(entries: seq<Entry>, key: string) {
    exists i :: 0 <= i < |entries| && entries[i].key == key
  }

  /** A dict has each key once; the loaders only ever build such mappings. */
  predicate DistinctKeys(entries: seq<Entry>) {
    forall i, j :: 0 <= i < j < |entries| ==> entries[i].key != entries[j].key
  }

  /** `d.get(key)`: the value stored under the first entry with that key. */
  function Lookup(entries: seq<Entry>, key: string): (r: Option<Value>)
    ensures r.Some? <==> HasKey(entries, key)
  {
    if entries == [] then None
    else if entries[0].key == key then Some(entries[0].value)
    else
      var r := Lookup(entries[1..], key);
      assert forall i :: 0 <= i < |entries| - 1 ==> entries[1..][i] == entries[i + 1];
      assert HasKey(entries, key) ==> HasKey(entries[1..], key) by {
        if HasKey(entries, key) {
          var i :| 0 <= i < |entries| && entries[i].key == key;
          assert entries[1..][i - 1].key == key;
        }
      }
      r
  }

  /** `d.get(key)` returns the value of the first entry with that key. */
  lemma {:induction false} LookupFirst(entries: seq<Entry>, key: string, i: nat)
    requires i < |entries| && entries[i].key == key
    requires forall j :: 0 <= j < i ==> entries[j].key != key
    ensures Lookup(entries, key) == Some(entries[i].value)
    decreases i
  {
    if i > 0 {
      assert entries[0].key != key;
      assert forall j :: 0 <= j < i - 1 ==> entries[1..][j] == entries[j + 1];
      LookupFirst(entries[1..], key, i - 1);
    }
  }

  /** In a dict, whose keys are distinct, `d[k]` is the value stored with `k`. */
  lemma LookupDistinct(entries: seq<Entry>, i: nat)
    requires DistinctKeys(entries) && i < |entries|
    ensures Lookup(entries, entries[i].key) == Some(entries[i].value)
  {
    LookupFirst(entries, entries[i].key, i);
  }

  /** Every key of a dict looks up its own value. */
  lemma LookupAll(entries: seq<Entry>)
    ensures DistinctKeys(entries) ==>
              forall i :: 0 <= i < |entries| ==> Lookup(entries, entries[i].key) == Some(entries[i].value)
  {
    if DistinctKeys(entries) {
      forall i | 0 <= i < |entries|
        ensures Lookup(entries, entries[i].key) == Some(entries[i].value)
      {
        LookupDistinct(entries, i);
      }
    }
  }

  /** Python's `bool(v)`: empty containers, empty strings, zero, False and None are false. */
  function Truthy(v: Value): (r: bool)
    ensures !r <==> v == Null || Equal(v, Num(0)) || v == Str("") || v == List([]) || v == Map([])
  {
    match v
    case Map(entries) => |entries| > 0
    case List(items) => |items| > 0
    case Str(text) => |text| > 0
    case Bool(b) => b
    case Num(n) => n != 0
    case Stamp(_) => true
    case Null => false
  }

  /** The integer a Python bool stands for in comparisons (`True == 1`). */
  function BoolAsInt(b: bool): int {
    if b then 1 else 0
  }

  /** The kind of a value as `==` sees it: a bool and a number are of one kind. */
  function Kind(v: Value): nat {
    match v
    case Map(_) => 0
    case List(_) => 1
    case Str(_) => 2
    case Bool(_) => 3
    case Num(_) => 3
    case Stamp(_) => 4
    case Null => 5
  }

  /** Python's `a == b` on document values: lists compare element-wise, dicts compare as
      key-to-value maps regardless of order, and a bool equals the integer it stands for. */
  function Equal(a: Value, b: Value): (r: bool)
    ensures r ==> Kind(a) == Kind(b)
    ensures a.Str? || a.Stamp? || a.Null? ==> (r <==> a == b)
    decreases a, 1
  {
    if a.Map? && b.Map? then
      |a.entries| == |b.entries| &&
      (forall i :: 0 <= i < |a.entries| ==> MatchIn(a.entries[i], b.entries)) &&
      (forall j :: 0 <= j < |b.entries| ==> MatchedBy(b.entries[j], a.entries))
    else if a.List? && b.List? then
      |a.items| == |b.items| && forall i :: 0 <= i < |a.items| ==> Equal(a.items[i], b.items[i])
    else if a.Bool? && b.Num? then BoolAsInt(a.b) == b.n
    else if a.Num? && b.Bool? then a.n == BoolAsInt(b.b)
    else a == b
  }

  /** Some entry of `others` has the key of `e` and a value that `e`'s value equals. */
  predicate MatchIn(e: Entry, others: seq<Entry>)
    decreases e, 0
  {
    exists j :: 0 <= j < |others| && others[j].key == e.key && Equal(e.value, others[j].value)
  }

  /** Some entry of `others` has the key of `e` and a value that equals `e`'s value. */
  predicate MatchedBy(e: Entry, others: seq<Entry>)
    decreases others, 0
  {
    exists i :: 0 <= i < |others| && others[i].key == e.key && Equal(others[i].value, e.value)
  }

  /** Every value equals itself. */
  lemma {:induction false} EqualReflexive(a: Value)
    ensures Equal(a, a)
    decreases a
  {
    match a
    case Map(es) =>
      forall i | 0 <= i < |es|
        ensures MatchIn(es[i], es) && MatchedBy(es[i], es)
      {
        EqualReflexive(es[i].value);
      }
    case List(xs) =>
      forall i | 0 <= i < |xs|
        ensures Equal(xs[i], xs[i])
      {
        EqualReflexive(xs[i]);
      }
    case _ =>
  }

  /** Python's `==` on document values is symmetric. */
  lemma {:induction false} EqualSymmetric(a: Value, b: Value)
    requires Equal(a, b)
    ensures Equal(b, a)
    decreases a
  {
    if a.Map? && b.Map? {
      var ea, eb := a.entries, b.entries;
      forall j | 0 <= j < |eb|
        ensures MatchIn(eb[j], ea)
      {
        assert MatchedBy(eb[j], ea);
        var i :| 0 <= i < |ea| && ea[i].key == eb[j].key && Equal(ea[i].value, eb[j].value);
        EqualSymmetric(ea[i].value, eb[j].value);
      }
      forall i | 0 <= i < |ea|
        ensures MatchedBy(ea[i], eb)
      {
        assert MatchIn(ea[i], eb);
        var j :| 0 <= j < |eb| && eb[j].key == ea[i].key && Equal(ea[i].value, eb[j].value);
        EqualSymmetric(ea[i].value, eb[j].value);
      }
    } else if a.List? && b.List? {
      forall i | 0 <= i < |a.items|
        ensures Equal(b.items[i], a.items[i])
      {
        EqualSymmetric(a.items[i], b.items[i]);
      }
    }
  }

  /** `value.count(x)`: how many elements compare equal to `x`. */
  function Count(value: seq<Value>, x: Value): (n: nat)
    ensures n <= |value|
    ensures n == |value| <==> forall i :: 0 <= i < |value| ==> Equal(value[i], x)
  {
    if value == [] then 0
    else
      var n := (if Equal(value[0], x) then 1 else 0) + Count(value[1..], x);
      assert forall i :: 1 <= i < |value| ==> value[i] == value[1..][i - 1];
      n
  }
}
