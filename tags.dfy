/** The YAML tag constructors of cf_template.py, as functions on the values PyYAML has
    already constructed for the tagged node (`construct_sequence`, `construct_scalar`,
    the child nodes of `node.value`). */
module Tags {
  import opened Results
  import opened Values
  import opened References
  import opened ReferenceLaws

  const JoinKey := "Fn::Join"

  /** Why a constructor raises: the `IndexError` of `value[0]` on an empty list, the
      `ValueError` of a failed unpacking, or PyYAML's `ConstructorError` for a child of a
      `!Join` node that is not of the kind read from it. */
  datatype TagError =
    | EqualsEmpty
    | IfArity(count: nat)
    | JoinArity(count: nat)
    | JoinSeparatorNotScalar
    | JoinItemsNotSequence

  /** A child node of a `!Join` node: a scalar with its text, a sequence with its already
      constructed elements, or a mapping. */
  datatype Part = ScalarPart(text: string) | SequencePart(items: seq<Value>) | MappingPart(entries: seq<Entry>)

  /** `!Equals [a, b, ...]`: whether every element equals the first. */
  function EqualsTag(value: seq<Value>): (r: Result<Value, TagError>)
    ensures r.Success? <==> |value| > 0
    ensures r.Success? ==> r.value == Bool(forall i :: 0 <= i < |value| ==> Equal(value[i], value[0]))
  {
    if value == [] then Failure(EqualsEmpty)
    else Success(Bool(Count(value, value[0]) == |value|))
  }

  /** `!If [condition, then, otherwise]`: the branch the condition's truth selects. */
  function IfTag(value: seq<Value>): (r: Result<Value, TagError>)
    ensures r.Success? <==> |value| == 3
    ensures r.Success? && Truthy(value[0]) ==> r.value == value[1]
    ensures r.Success? && !Truthy(value[0]) ==> r.value == value[2]
  {
    if |value| != 3 then Failure(IfArity(|value|))
    else Success(if Truthy(value[0]) then value[1] else value[2])
  }

  /** `!GetAtt name`: the whole scalar as the only element of a `Fn::GetAtt` list. */
  function GetAttTag(value: string): (r: Value)
    ensures r.Map? && Lookup(r.entries, GetAttKey) == Some(List([Str(value)]))
    ensures forall k :: k != GetAttKey ==> !HasKey(r.entries, k)
  {
    Map([Entry(GetAttKey, List([Str(value)]))])
  }

  /** `!Join [separator, [items...]]` */
  function JoinTag(parts: seq<Part>): (r: Result<Value, TagError>)
    ensures r.Success? <==> |parts| == 2 && parts[0].ScalarPart? && parts[1].SequencePart?
    ensures r.Success? ==>
              r.value.Map? &&
              Lookup(r.value.entries, JoinKey) == Some(List([Str(parts[0].text), List(parts[1].items)])) &&
              forall k :: k != JoinKey ==> !HasKey(r.value.entries, k)
  {
    if |parts| != 2 then Failure(JoinArity(|parts|))
    else if !parts[0].ScalarPart? then Failure(JoinSeparatorNotScalar)
    else if !parts[1].SequencePart? then Failure(JoinItemsNotSequence)
    else Success(Map([Entry(JoinKey, List([Str(parts[0].text), List(parts[1].items)]))]))
  }

  /** `!Ref name` */
  function RefTag(value: string): (r: Value)
    ensures r.Map? && Lookup(r.entries, RefKey) == Some(Str(value))
    ensures forall k :: k != RefKey ==> !HasKey(r.entries, k)
  {
    Map([Entry(RefKey, Str(value))])
  }

  // ---- What the constructors mean ----

  /** A one-element `!Equals` is always true. */
  lemma EqualsSingleton(x: Value)
    ensures EqualsTag([x]) == Success(Bool(true))
  {
    EqualReflexive(x);
  }

  /** `!Equals [x, y]` compares the second element with the first. */
  lemma EqualsTwo(x: Value, y: Value)
    ensures EqualsTag([x, y]) == Success(Bool(Equal(y, x)))
  {
    var s := [x, y];
    var all := forall i :: 0 <= i < |s| ==> Equal(s[i], s[0]);
    assert EqualsTag(s) == Success(Bool(all));
    if Equal(y, x) {
      forall i | 0 <= i < |s|
        ensures Equal(s[i], s[0])
      {
        if i == 0 {
          EqualReflexive(x);
        }
      }
    } else {
      assert !Equal(s[1], s[0]);
    }
  }

  /** A two-element `!Equals` is Python's `==` of the two, in either order. */
  lemma EqualsPair(a: Value, b: Value)
    ensures EqualsTag([a, b]) == Success(Bool(Equal(a, b)))
    ensures EqualsTag([a, b]) == EqualsTag([b, a])
  {
    EqualsTwo(a, b);
    EqualsTwo(b, a);
    if Equal(a, b) {
      EqualSymmetric(a, b);
    }
    if Equal(b, a) {
      EqualSymmetric(b, a);
    }
  }

  /** `!If [!Equals [a, b], x, y]` selects `x` exactly when `a == b`, and `y` otherwise. */
  lemma IfOfEquals(a: Value, b: Value, x: Value, y: Value)
    ensures IfTag([EqualsTag([a, b]).value, x, y]) == Success(if Equal(a, b) then x else y)
  {
    EqualsPair(a, b);
  }

  /** Walking `!Ref name` gives exactly the edge from `name`. */
  lemma RefTagRefs(context: string, name: string)
    ensures FindRefs(context, RefTag(name)) == Success([Edge(Str(name), context)])
  {
    RefShape(context, Str(name));
  }

  /** Walking `!GetAtt name` gives exactly the edge from the whole scalar, dots included. */
  lemma GetAttTagRefs(context: string, name: string)
    ensures FindRefs(context, GetAttTag(name)) == Success([Edge(Str(name), context)])
  {
    GetAttShape(context, List([Str(name)]));
  }

  /** Walking a `!Join` finds exactly the edges of its items: the separator is a string
      and contributes none. */
  lemma JoinTagRefs(context: string, parts: seq<Part>)
    requires JoinTag(parts).Success?
    ensures FindRefs(context, JoinTag(parts).value) == FindRefs(context, List(parts[1].items))
  {
    var sep, items := Str(parts[0].text), List(parts[1].items);
    OtherKeyTransparent(context, JoinKey, List([sep, items]));
    ListConcat(context, [sep], [items]);
    assert [sep] + [items] == [sep, items];
    SingleItem(context, sep);
    SingleItem(context, items);
    EmptyConcat(FindRefs(context, items));
  }

  // ---- The dotted `!GetAtt` short form ----

  /** The JSON form `{"Fn::GetAtt": [resource, attribute]}`. */
  function JsonGetAtt(resource: string, attribute: string): Value {
    Map([Entry(GetAttKey, List([Str(resource), Str(attribute)]))])
  }

  /** As written, `!GetAtt Bucket.Arn` yields an edge from `Bucket.Arn`, which names no item,
      where the equivalent JSON template yields an edge from `Bucket`. */
  lemma GetAttDottedMismatch()
    ensures FindRefs("Policy", GetAttTag("Bucket.Arn")) == Success([Edge(Str("Bucket.Arn"), "Policy")])
    ensures FindRefs("Policy", JsonGetAtt("Bucket", "Arn")) == Success([Edge(Str("Bucket"), "Policy")])
    ensures FindRefs("Policy", GetAttTag("Bucket.Arn")) != FindRefs("Policy", JsonGetAtt("Bucket", "Arn"))
  {
    GetAttTagRefs("Policy", "Bucket.Arn");
    GetAttShape("Policy", List([Str("Bucket"), Str("Arn")]));
    assert Str("Bucket.Arn") != Str("Bucket");
  }

  /** The position of the first `.` in `s`, or `|s|` when there is none. */
  function FirstDot(s: string): (i: nat)
    ensures i <= |s|
    ensures i < |s| ==> s[i] == '.'
    ensures forall j :: 0 <= j < i ==> s[j] != '.'
  {
    if s == [] then 0
    else if s[0] == '.' then 0
    else 1 + FirstDot(s[1..])
  }

  /** `!GetAtt resource.attribute` split at the first dot into the two-element list that the
      long form `Fn::GetAtt: [resource, attribute]` holds; a name without a dot stays whole. */
  function GetAttTagSplit(value: string): (r: Value)
    ensures '.' !in value ==> r == GetAttTag(value)
    ensures '.' in value ==>
              exists resource, attribute :: '.' !in resource && value == resource + "." + attribute &&
                                            r == JsonGetAtt(resource, attribute)
  {
    var i := FirstDot(value);
    if i == |value| then GetAttTag(value)
    else
      assert value == value[..i] + "." + value[i + 1..];
      JsonGetAtt(value[..i], value[i + 1..])
  }

  /** With the split, the short form is the same value as the JSON long form, so JSON and
      YAML templates give the same edge: from the resource, not from the dotted name. */
  lemma GetAttSplitMatchesJson(context: string, resource: string, attribute: string)
    requires '.' !in resource
    ensures GetAttTagSplit(resource + "." + attribute) == JsonGetAtt(resource, attribute)
    ensures FindRefs(context, GetAttTagSplit(resource + "." + attribute)) ==
            Success([Edge(Str(resource), context)])
  {
    var s := resource + "." + attribute;
    var i := FirstDot(s);
    assert s[|resource|] == '.';
    assert forall j :: 0 <= j < |resource| ==> s[j] == resource[j];
    assert i == |resource|;
    assert s[..i] == resource;
    assert s[i + 1..] == attribute;
    GetAttShape(context, List([Str(resource), Str(attribute)]));
  }
}
