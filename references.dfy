/** The reference walk of cfviz.py (`find_refs`): a recursive traversal of one item's
    definition that turns every `{"Ref": name}` and every `{"Fn::GetAtt": [name, ...]}`
    into a directed edge from the referenced entity to the item being defined. */
module References {
  import opened Results
  import opened Values

  const RefKey := "Ref"
  const GetAttKey := "Fn::GetAtt"

  /** `{'from': ..., 'to': ...}`: `from` is the referenced entity as it appears in the
      document, `to` the context (the top-level item whose definition holds the reference). */
  datatype Edge = Edge(from: Value, to: string)

  /** Why the walk stops: the two failed shape assertions, an index into an empty
      `Fn::GetAtt` list, and a leaf that is none of the accepted scalar kinds. */
  datatype Error =
    | RefNotString(found: Value)
    | GetAttNotList(found: Value)
    | GetAttEmpty
    | UnexpectedType(found: Value)

  predicate PointsAt(edges: seq<Edge>, context: string) {
    forall e :: e in edges ==> e.to == context
  }

  /** `list(find_refs(context, elem))`, or the exception that stops it. */
  function FindRefs(context: string, elem: Value): (r: Result<seq<Edge>, Error>)
    ensures r.Success? ==> PointsAt(r.value, context)
    ensures IsScalar(elem) ==> r == Success([])
    decreases elem, 2
  {
    match elem
    case Map(entries) => EntryRefs(context, entries)
    case List(items) => ItemRefs(context, items)
    case Null => Failure(UnexpectedType(elem))
    case _ => Success([])
  }

  /** The loop over `elem.items()`: each entry in order. */
  function EntryRefs(context: string, entries: seq<Entry>): (r: Result<seq<Edge>, Error>)
    ensures r.Success? ==> PointsAt(r.value, context)
    decreases entries, 1
  {
    if entries == [] then Success([])
    else Concat(KeyRefs(context, entries[0]), EntryRefs(context, entries[1..]))
  }

  /** One `k, v` of a mapping: a reference construct ends the walk there, any other key
      is walked into. */
  function KeyRefs(context: string, entry: Entry): (r: Result<seq<Edge>, Error>)
    ensures r.Success? ==> PointsAt(r.value, context)
    decreases entry, 0
  {
    var v := entry.value;
    if entry.key == RefKey then
      if v.Str? then Success([Edge(v, context)]) else Failure(RefNotString(v))
    else if entry.key == GetAttKey then
      if !v.List? then Failure(GetAttNotList(v))
      else if v.items == [] then Failure(GetAttEmpty)
      else Success([Edge(v.items[0], context)])
    else FindRefs(context, v)
  }

  /** The loop over a list's elements. */
  function ItemRefs(context: string, items: seq<Value>): (r: Result<seq<Edge>, Error>)
    ensures r.Success? ==> PointsAt(r.value, context)
    decreases items, 1
  {
    if items == [] then Success([])
    else Concat(FindRefs(context, items[0]), ItemRefs(context, items[1..]))
  }
}

/** Properties of the reference walk. */
module ReferenceLaws {
  import opened Results
  import opened Values
  import opened References

  // ---- The two reference constructs ----

  /** A `Ref` key yields exactly one edge from its string value and is not walked into;
      any other value under `Ref` fails the string assertion. */
  lemma RefShape(context: string, v: Value)
    ensures FindRefs(context, Map([Entry(RefKey, v)])) ==
            if v.Str? then Success([Edge(v, context)]) else Failure(RefNotString(v))
  {
    SingleEntry(context, Entry(RefKey, v));
  }

  /** A `Fn::GetAtt` key yields exactly one edge from the first element of its list; the rest
      of the list is never looked at, a non-list fails the list assertion and an empty list
      fails the index. */
  lemma GetAttShape(context: string, v: Value)
    ensures FindRefs(context, Map([Entry(GetAttKey, v)])) ==
            if !v.List? then Failure(GetAttNotList(v))
            else if v.items == [] then Failure(GetAttEmpty)
            else Success([Edge(v.items[0], context)])
  {
    SingleEntry(context, Entry(GetAttKey, v));
  }

  /** Under any other key the walk goes on into the value with the same context. */
  lemma OtherKeyTransparent(context: string, key: string, v: Value)
    requires key != RefKey && key != GetAttKey
    ensures FindRefs(context, Map([Entry(key, v)])) == FindRefs(context, v)
  {
    SingleEntry(context, Entry(key, v));
  }

  /** A one-entry mapping is walked as its one entry. */
  lemma SingleEntry(context: string, e: Entry)
    ensures FindRefs(context, Map([e])) == KeyRefs(context, e)
  {
    var es := [e];
    assert EntryRefs(context, es[1..]) == Success([]);
    assert EntryRefs(context, es) == Concat(KeyRefs(context, es[0]), EntryRefs(context, es[1..]));
    ConcatEmpty(KeyRefs(context, es[0]));
  }

  /** A one-element list is walked as its one element. */
  lemma SingleItem(context: string, v: Value)
    ensures FindRefs(context, List([v])) == FindRefs(context, v)
  {
    var items := [v];
    assert ItemRefs(context, items[1..]) == Success([]);
    assert ItemRefs(context, items) == Concat(FindRefs(context, items[0]), ItemRefs(context, items[1..]));
    ConcatEmpty(FindRefs(context, items[0]));
  }

  // ---- Order of discovery ----

  /** The edges of a mapping are those of its first part followed by those of the rest. */
  lemma {:induction false} MapConcat(context: string, e1: seq<Entry>, e2: seq<Entry>)
    ensures FindRefs(context, Map(e1 + e2)) ==
            Concat(FindRefs(context, Map(e1)), FindRefs(context, Map(e2)))
  {
    EntryConcat(context, e1, e2);
  }

  lemma {:induction false} EntryConcat(context: string, e1: seq<Entry>, e2: seq<Entry>)
    ensures EntryRefs(context, e1 + e2) == Concat(EntryRefs(context, e1), EntryRefs(context, e2))
  {
    if e1 == [] {
      assert e1 + e2 == e2;
      var b := EntryRefs(context, e2);
      if b.Success? {
        assert [] + b.value == b.value;
      }
    } else {
      assert (e1 + e2)[0] == e1[0];
      assert (e1 + e2)[1..] == e1[1..] + e2;
      EntryConcat(context, e1[1..], e2);
      var h := KeyRefs(context, e1[0]);
      var t1 := EntryRefs(context, e1[1..]);
      var t2 := EntryRefs(context, e2);
      if h.Success? && t1.Success? && t2.Success? {
        assert h.value + (t1.value + t2.value) == (h.value + t1.value) + t2.value;
      }
    }
  }

  /** The edges of a list are those of its first part followed by those of the rest. */
  lemma {:induction false} ListConcat(context: string, l1: seq<Value>, l2: seq<Value>)
    ensures FindRefs(context, List(l1 + l2)) ==
            Concat(FindRefs(context, List(l1)), FindRefs(context, List(l2)))
  {
    ItemConcat(context, l1, l2);
  }

  lemma {:induction false} ItemConcat(context: string, l1: seq<Value>, l2: seq<Value>)
    ensures ItemRefs(context, l1 + l2) == Concat(ItemRefs(context, l1), ItemRefs(context, l2))
  {
    if l1 == [] {
      assert l1 + l2 == l2;
      var b := ItemRefs(context, l2);
      if b.Success? {
        assert [] + b.value == b.value;
      }
    } else {
      assert (l1 + l2)[0] == l1[0];
      assert (l1 + l2)[1..] == l1[1..] + l2;
      ItemConcat(context, l1[1..], l2);
      var h := FindRefs(context, l1[0]);
      var t1 := ItemRefs(context, l1[1..]);
      var t2 := ItemRefs(context, l2);
      if h.Success? && t1.Success? && t2.Success? {
        assert h.value + (t1.value + t2.value) == (h.value + t1.value) + t2.value;
      }
    }
  }

  // ---- Depth does not matter ----

  /** One level of nesting: under a key of a one-entry mapping, or as the only list element. */
  datatype Step = Under(key: string) | Element

  /** `v` wrapped in the steps of `path`, outermost first. */
  function Nest(path: seq<Step>, v: Value): Value {
    if path == [] then v
    else
      match path[0]
      case Under(k) => Map([Entry(k, Nest(path[1..], v))])
      case Element => List([Nest(path[1..], v)])
  }

  /** A path none of whose keys is a reference construct. */
  predicate PlainPath(path: seq<Step>) {
    forall i :: 0 <= i < |path| && path[i].Under? ==> path[i].key != RefKey && path[i].key != GetAttKey
  }

  /** Wrapping a value in plain mappings and lists does not change its edges. */
  lemma {:induction false} NestTransparent(context: string, path: seq<Step>, v: Value)
    requires PlainPath(path)
    ensures FindRefs(context, Nest(path, v)) == FindRefs(context, v)
  {
    if path != [] {
      assert PlainPath(path[1..]) by {
        forall i | 0 <= i < |path[1..]| && path[1..][i].Under?
          ensures path[1..][i].key != RefKey && path[1..][i].key != GetAttKey
        {
          assert path[1..][i] == path[i + 1];
        }
      }
      NestTransparent(context, path[1..], v);
      var inner := Nest(path[1..], v);
      match path[0]
      case Under(k) =>
        OtherKeyTransparent(context, k, inner);
      case Element =>
        SingleItem(context, inner);
    }
  }

  /** A resource holding `{"Ref": name}` at any depth gets exactly the one edge from `name`. */
  lemma DeepRef(context: string, path: seq<Step>, name: string)
    requires PlainPath(path)
    ensures FindRefs(context, Nest(path, Map([Entry(RefKey, Str(name))]))) ==
            Success([Edge(Str(name), context)])
  {
    NestTransparent(context, path, Map([Entry(RefKey, Str(name))]));
    RefShape(context, Str(name));
  }

  // ---- When the walk succeeds ----

  /** Every reference construct in `v` has the shape the walk asserts, and no `null` is
      reached: stated over all positions at once, independently of the walk's order. */
  predicate WellShaped(v: Value)
    decreases v, 2
  {
    match v
    case Map(entries) => forall i :: 0 <= i < |entries| ==> EntryShaped(entries[i])
    case List(items) => forall i :: 0 <= i < |items| ==> WellShaped(items[i])
    case Null => false
    case _ => true
  }

  predicate EntryShaped(e: Entry)
    decreases e, 1
  {
    if e.key == RefKey then e.value.Str?
    else if e.key == GetAttKey then e.value.List? && |e.value.items| > 0
    else WellShaped(e.value)
  }

  /** The walk raises exactly when some reference construct is malformed or a `null` is met. */
  lemma {:induction false} FindRefsSucceeds(context: string, v: Value)
    ensures FindRefs(context, v).Success? <==> WellShaped(v)
    decreases v, 2
  {
    match v
    case Map(entries) => EntriesSucceed(context, entries);
    case List(items) => ItemsSucceed(context, items);
    case _ =>
  }

  lemma {:induction false} EntriesSucceed(context: string, es: seq<Entry>)
    ensures EntryRefs(context, es).Success? <==> forall i :: 0 <= i < |es| ==> EntryShaped(es[i])
    decreases es, 1
  {
    if es != [] {
      KeySucceeds(context, es[0]);
      EntriesSucceed(context, es[1..]);
      assert forall i :: 1 <= i < |es| ==> es[1..][i - 1] == es[i];
    }
  }

  lemma {:induction false} KeySucceeds(context: string, e: Entry)
    ensures KeyRefs(context, e).Success? <==> EntryShaped(e)
    decreases e, 0
  {
    if e.key != RefKey && e.key != GetAttKey {
      FindRefsSucceeds(context, e.value);
    }
  }

  lemma {:induction false} ItemsSucceed(context: string, items: seq<Value>)
    ensures ItemRefs(context, items).Success? <==> forall i :: 0 <= i < |items| ==> WellShaped(items[i])
    decreases items, 1
  {
    if items != [] {
      FindRefsSucceeds(context, items[0]);
      ItemsSucceed(context, items[1..]);
      assert forall i :: 1 <= i < |items| ==> items[1..][i - 1] == items[i];
    }
  }

  // ---- Which edges are found ----

  /** `v` holds a reference to `x`: some `Ref` whose string is `x`, or some `Fn::GetAtt` whose
      list starts with `x`, reached through keys that are not reference constructs. */
  ghost predicate Cites(v: Value, x: Value)
    decreases v, 2
  {
    match v
    case Map(entries) => exists i :: 0 <= i < |entries| && EntryCites(entries[i], x)
    case List(items) => exists i :: 0 <= i < |items| && Cites(items[i], x)
    case _ => false
  }

  ghost predicate EntryCites(e: Entry, x: Value)
    decreases e, 1
  {
    if e.key == RefKey then e.value.Str? && e.value == x
    else if e.key == GetAttKey then e.value.List? && |e.value.items| > 0 && e.value.items[0] == x
    else Cites(e.value, x)
  }

  /** A successful walk finds an edge from `x` exactly when `x` is referenced somewhere in `v`. */
  lemma {:induction false} EdgeIffCited(context: string, v: Value, x: Value)
    requires FindRefs(context, v).Success?
    ensures Edge(x, context) in FindRefs(context, v).value <==> Cites(v, x)
    decreases v, 2
  {
    match v
    case Map(entries) => EntriesCite(context, entries, x);
    case List(items) => ItemsCite(context, items, x);
    case _ =>
  }

  lemma {:induction false} EntriesCite(context: string, es: seq<Entry>, x: Value)
    requires EntryRefs(context, es).Success?
    ensures Edge(x, context) in EntryRefs(context, es).value <==>
            exists i :: 0 <= i < |es| && EntryCites(es[i], x)
    decreases es, 1
  {
    if es != [] {
      KeyCites(context, es[0], x);
      EntriesCite(context, es[1..], x);
      assert forall i :: 1 <= i < |es| ==> es[1..][i - 1] == es[i];
      if exists i :: 0 <= i < |es| && EntryCites(es[i], x) {
        var i :| 0 <= i < |es| && EntryCites(es[i], x);
        if i > 0 {
          assert EntryCites(es[1..][i - 1], x);
        }
      }
    }
  }

  lemma {:induction false} KeyCites(context: string, e: Entry, x: Value)
    requires KeyRefs(context, e).Success?
    ensures Edge(x, context) in KeyRefs(context, e).value <==> EntryCites(e, x)
    decreases e, 0
  {
    if e.key != RefKey && e.key != GetAttKey {
      EdgeIffCited(context, e.value, x);
    }
  }

  lemma {:induction false} ItemsCite(context: string, items: seq<Value>, x: Value)
    requires ItemRefs(context, items).Success?
    ensures Edge(x, context) in ItemRefs(context, items).value <==>
            exists i :: 0 <= i < |items| && Cites(items[i], x)
    decreases items, 1
  {
    if items != [] {
      EdgeIffCited(context, items[0], x);
      ItemsCite(context, items[1..], x);
      assert forall i :: 1 <= i < |items| ==> items[1..][i - 1] == items[i];
      if exists i :: 0 <= i < |items| && Cites(items[i], x) {
        var i :| 0 <= i < |items| && Cites(items[i], x);
        if i > 0 {
          assert Cites(items[1..][i - 1], x);
        }
      }
    }
  }

  // ---- The context only labels the edges ----

  /** The same edges, all pointing at `context` instead. */
  function Retarget(edges: seq<Edge>, context: string): (r: seq<Edge>)
    ensures |r| == |edges|
    ensures forall i :: 0 <= i < |edges| ==> r[i] == Edge(edges[i].from, context)
  {
    if edges == [] then []
    else [Edge(edges[0].from, context)] + Retarget(edges[1..], context)
  }

  function RetargetResult(r: Result<seq<Edge>, Error>, context: string): Result<seq<Edge>, Error> {
    if r.Failure? then r else Success(Retarget(r.value, context))
  }

  lemma RetargetConcat(a: Result<seq<Edge>, Error>, b: Result<seq<Edge>, Error>, context: string)
    ensures RetargetResult(Concat(a, b), context) ==
            Concat(RetargetResult(a, context), RetargetResult(b, context))
  {
    if a.Success? && b.Success? {
      var l := Retarget(a.value + b.value, context);
      var rr := Retarget(a.value, context) + Retarget(b.value, context);
      assert |l| == |rr|;
      forall i | 0 <= i < |l|
        ensures l[i] == rr[i]
      {
        if i < |a.value| {
          assert (a.value + b.value)[i] == a.value[i];
        } else {
          assert (a.value + b.value)[i] == b.value[i - |a.value|];
        }
      }
      assert l == rr;
    }
  }

  /** Walking the same subtree under two contexts finds the same references in the same
      order and fails in the same way: only the `to` side differs. */
  lemma {:induction false} ContextIndependent(c: string, d: string, v: Value)
    ensures FindRefs(d, v) == RetargetResult(FindRefs(c, v), d)
    decreases v, 2
  {
    match v
    case Map(entries) => EntriesIndependent(c, d, entries);
    case List(items) => ItemsIndependent(c, d, items);
    case _ =>
  }

  lemma {:induction false} EntriesIndependent(c: string, d: string, es: seq<Entry>)
    ensures EntryRefs(d, es) == RetargetResult(EntryRefs(c, es), d)
    decreases es, 1
  {
    if es != [] {
      KeyIndependent(c, d, es[0]);
      EntriesIndependent(c, d, es[1..]);
      RetargetConcat(KeyRefs(c, es[0]), EntryRefs(c, es[1..]), d);
    }
  }

  lemma {:induction false} KeyIndependent(c: string, d: string, e: Entry)
    ensures KeyRefs(d, e) == RetargetResult(KeyRefs(c, e), d)
    decreases e, 0
  {
    if e.key != RefKey && e.key != GetAttKey {
      ContextIndependent(c, d, e.value);
    } else if KeyRefs(c, e).Success? {
      assert Retarget(KeyRefs(c, e).value, d) == KeyRefs(d, e).value;
    }
  }

  lemma {:induction false} ItemsIndependent(c: string, d: string, items: seq<Value>)
    ensures ItemRefs(d, items) == RetargetResult(ItemRefs(c, items), d)
    decreases items, 1
  {
    if items != [] {
      ContextIndependent(c, d, items[0]);
      ItemsIndependent(c, d, items[1..]);
      RetargetConcat(FindRefs(c, items[0]), ItemRefs(c, items[1..]), d);
    }
  }
}
