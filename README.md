# cloud-formation-viz in Dafny

A model of the core of `cfviz`. This tool turns an AWS CloudFormation template into a
directed graph for a DOT renderer. The model covers two parts.

- **The reference walk** (`find_refs`). It visits one item's definition. Every `{"Ref": name}`
  and every `{"Fn::GetAtt": [name, ...]}` becomes an edge from the referenced entity to the item.
- **The graph builders.** `extract_graph` makes one node per key of a section. `handle_terminals`
  adds the `Parameters` and `Outputs` sections as styled subgraphs. `handle_psuedo_params`
  collects the `AWS::` pseudo-parameters. Lines 16-21 of `main` put these together.
- **The YAML tag constructors** `!Equals`, `!If`, `!GetAtt`, `!Join` and `!Ref`. They are
  modelled as functions on the values PyYAML has already constructed.

Files and modules:

- `results.dfy` (`Results`): `Option`, `Result`, and `Concat`. `Concat` sequences two
  edge-producing steps, as `yield from` does.
- `values.dfy` (`Values`): the document tree. A mapping is a sequence of `Entry` values, so
  dict iteration order is kept. Also `Lookup` (`dict.get`), `Truthy` (Python's `bool()`),
  `Equal` (Python's `==`: dicts ignore order, `True == 1`) and `Count` (`list.count`).
- `references.dfy`: `References`, which holds `find_refs` as `FindRefs`, `EntryRefs`, `KeyRefs`
  and `ItemRefs`, and `ReferenceLaws`, which holds the walk's properties.
- `graphs.dfy` (`Graphs`): the `Graph` class, which the builders update in place. A subgraph
  that has been appended is kept as a `GraphValue`.
- `tags.dfy` (`Tags`): the tag constructors and what walking their results gives.

Exceptions in the source become `Failure` results. These are the failed `assert`s at
cfviz.py:64 and :67, the `IndexError` of `v[0]`, the unexpected-type `AssertionError`
(reached by `null`), the `KeyError` for a missing `Resources`, the `AttributeError` of
`.items()` / `.get` on a non-dict and of `.startswith` on a non-string edge origin. In the
tag constructors they are the `IndexError` of `value[0]` on an empty `!Equals`, the unpacking
`ValueError` of `!If` and `!Join`, and the `ConstructorError` that PyYAML's
`construct_scalar` / `construct_sequence` raise for a `!Join` separator that is not a scalar or
items that are not a sequence.

Edge origins are `Value`s, not strings. The source takes `v[0]` of a `Fn::GetAtt` list
unchecked, so an origin can be any value.

The code has no edge filters, identifier normalisation or port labels, so none are modelled.

## Model

| member | source | states |
|---|---|---|
| References.FindRefs | cloud_formation_viz/cfviz.py:60-81 | every edge found points at the context at any depth; a string, bool, number or date yields no edge |
| References.EntryRefs | cloud_formation_viz/cfviz.py:61-70 | every edge found in a mapping's entries points at the context |
| References.KeyRefs | cloud_formation_viz/cfviz.py:63-70 | the edges of one key/value pair point at the context |
| References.ItemRefs | cloud_formation_viz/cfviz.py:71-73 | every edge found in a list's elements points at the context |
| ReferenceLaws.RefShape | cloud_formation_viz/cfviz.py:63-65 | `{"Ref": v}` yields exactly the edge (v, context) when v is a string and raises otherwise; v is not walked |
| ReferenceLaws.GetAttShape | cloud_formation_viz/cfviz.py:66-68 | `{"Fn::GetAtt": v}` yields exactly (v[0], context), whatever the rest of v holds; it raises for a non-list and for an empty list |
| ReferenceLaws.OtherKeyTransparent | cloud_formation_viz/cfviz.py:69-70 | under any other key, the value is walked with the same context |
| ReferenceLaws.MapConcat | cloud_formation_viz/cfviz.py:61-70 | a mapping's edges are its first part's edges followed by the rest's, and the first failure wins |
| ReferenceLaws.ListConcat | cloud_formation_viz/cfviz.py:71-73 | a list's edges are its first part's edges followed by the rest's, and the first failure wins |
| ReferenceLaws.NestTransparent | cloud_formation_viz/cfviz.py:60-73 | wrapping a value in plain one-entry mappings and one-element lists does not change its edges |
| ReferenceLaws.DeepRef | cloud_formation_viz/cfviz.py:60-73 | a `{"Ref": name}` nested at any depth gives exactly the one edge (name, context) |
| ReferenceLaws.FindRefsSucceeds | cloud_formation_viz/cfviz.py:60-81 | the walk succeeds iff every Ref holds a string, every GetAtt a non-empty list, and no null is reached |
| ReferenceLaws.EdgeIffCited | cloud_formation_viz/cfviz.py:60-78 | a successful walk has edge (x, context) iff x is referenced by some Ref or GetAtt in the tree |
| ReferenceLaws.ContextIndependent | cloud_formation_viz/cfviz.py:60-73 | walking a tree under two contexts gives the same origins in the same order, or the same failure |
| Graphs.Graph.constructor | cloud_formation_viz/cfviz.py:52 | a new graph has the given name and no nodes, edges, subgraphs or hints |
| Graphs.ExtractGraph | cloud_formation_viz/cfviz.py:51-57 | one node per key in key order, no edges in the graph itself, and the section's edges returned beside it; a non-dict or a raising walk is an error |
| Graphs.NodesFollowKeys | cloud_formation_viz/cfviz.py:54-55 | the i-th node is named by the i-th key, and there are as many nodes as keys |
| Graphs.SectionConcat | cloud_formation_viz/cfviz.py:53-56 | a section's edges are the concatenation of its items' edges, in item order |
| Graphs.SectionTargets | cloud_formation_viz/cfviz.py:54-56 | every edge of a section points at one of that section's keys |
| Graphs.SectionSucceeds | cloud_formation_viz/cfviz.py:54-56 | extracting a section raises iff some item holds a malformed reference or a null |
| Graphs.EmptySection | cloud_formation_viz/cfviz.py:51-57 | an empty section gives zero nodes and zero edges |
| Graphs.HandleTerminals | cloud_formation_viz/cfviz.py:26-32 | the graph is unchanged when the section is absent; otherwise exactly one subgraph is appended, with the rank and style `filled,rounded`, and the section's edges follow the existing ones |
| Graphs.HandlePseudoParams | cloud_formation_viz/cfviz.py:35-48 | an ellipse graph with no edges whose nodes are the distinct `AWS::`-prefixed origins, each once; it raises at the first non-string origin |
| Graphs.BuildGraph | cloud_formation_viz/cfviz.py:16-21 | the resources' nodes, all edges of Resources then Parameters then Outputs, the present terminal subgraphs, and last the pseudo-parameter subgraph; each error case as the source raises it |
| Graphs.FinishGraph | cloud_formation_viz/cfviz.py:19-21 | after the resources graph: both terminal sections, then the pseudo-parameter subgraph over all edges |
| Graphs.EdgeTargetsDeclared | cloud_formation_viz/cfviz.py:16-20 | every edge of the finished graph points at a declared resource, parameter or output |
| Graphs.EmptyTemplate | cloud_formation_viz/cfviz.py:16-20 | any template whose Resources section is empty and which has no Parameters or Outputs section gives no nodes and no edges |
| Graphs.Description | cloud_formation_viz/cfviz.py:16 | the graph name is the empty string when the template has no `Description`, and otherwise the value stored under it |
| Graphs.BucketPolicyExample | cloud_formation_viz/cfviz.py:16-18 | Bucket and a Policy whose Target is `{"Ref": "Bucket"}` give nodes [Bucket, Policy] and the single edge (Bucket, Policy) |
| Values.Lookup | cloud_formation_viz/cfviz.py:16-17 | `d.get(k)` / `d[k]` finds a value exactly when `k in d` holds |
| Values.LookupFirst | cloud_formation_viz/cfviz.py:27-28 | the value found is that of the first entry with the key |
| Values.LookupDistinct | cloud_formation_viz/cfviz.py:27-28 | in a dict, whose keys are distinct, every key finds its own value |
| Values.Truthy | cloud_formation_viz/cf_template.py:13 | Python's `bool(v)` is false exactly for None, a value equal to 0 (False included), and the empty string, list and dict |
| Values.Equal | cloud_formation_viz/cf_template.py:8 | Python's `==` never holds between values of different kinds, apart from a bool and a number; on strings, dates and None it is identity |
| Values.Count | cloud_formation_viz/cf_template.py:8 | `count(x) == len` iff every element equals x |
| Values.EqualReflexive | cloud_formation_viz/cf_template.py:8 | every value equals itself under Python's `==` |
| Values.EqualSymmetric | cloud_formation_viz/cf_template.py:8 | Python's `==` on document values is symmetric |
| Tags.EqualsTag | cloud_formation_viz/cf_template.py:6-8 | defined iff the list is non-empty, and then true iff every element equals the first |
| Tags.EqualsSingleton | cloud_formation_viz/cf_template.py:6-8 | a one-element `!Equals` is true |
| Tags.EqualsTwo | cloud_formation_viz/cf_template.py:6-8 | `!Equals [x, y]` is true exactly when y equals x |
| Tags.EqualsPair | cloud_formation_viz/cf_template.py:6-8 | `!Equals [a, b]` is `a == b`, and swapping the two gives the same result |
| Tags.IfTag | cloud_formation_viz/cf_template.py:11-13 | defined iff there are exactly three elements; a truthy condition gives `then`, a falsy one gives `otherwise` |
| Tags.IfOfEquals | cloud_formation_viz/cf_template.py:6-13 | `!If [!Equals [a, b], x, y]` is x iff a == b, and y otherwise |
| Tags.RefTag | cloud_formation_viz/cf_template.py:28-30 | `!Ref s` is a mapping whose only key is `Ref`, holding the string s |
| Tags.RefTagRefs | cloud_formation_viz/cf_template.py:28-30 | walking `!Ref s` yields exactly [(s, context)] |
| Tags.GetAttTag | cloud_formation_viz/cf_template.py:16-18 | `!GetAtt s` is a mapping whose only key is `Fn::GetAtt`, holding the one-element list [s] with the whole scalar kept |
| Tags.GetAttTagRefs | cloud_formation_viz/cf_template.py:16-18 | walking `!GetAtt s` yields exactly [(s, context)] |
| Tags.JoinTag | cloud_formation_viz/cf_template.py:21-25 | defined iff the node has exactly two parts, a scalar separator and then a sequence; the result is a mapping whose only key is `Fn::Join`, holding the list [separator, items] |
| Tags.JoinTagRefs | cloud_formation_viz/cf_template.py:21-25 | walking a `!Join` result yields exactly the edges of its items; the separator yields none |
| Tags.GetAttDottedMismatch | cloud_formation_viz/cf_template.py:16-18 | `!GetAtt Bucket.Arn` yields an edge from `Bucket.Arn`, while the JSON form of the same reference yields one from `Bucket` |
| Tags.GetAttTagSplit | cloud_formation_viz/cf_template.py:16-18 | corrected constructor: a scalar without a dot stays whole; otherwise it becomes `[resource, attribute]`, split at the first dot, where resource holds no dot and the two joined by a dot give back the scalar |
| Tags.GetAttSplitMatchesJson | cloud_formation_viz/cf_template.py:16-18 | when the short form is split at the first dot, it equals the JSON long form, and walking it yields the edge from the resource |

## Left out

- Reading the template from a file or stdin with `json.load` (cloud_formation_viz/cfviz.py:10-14) is left out. So is `load`'s JSON-then-YAML fallback with `f.seek` (cloud_formation_viz/cf_template.py:41-47). Both are I/O and foreign parsers. `BuildGraph` takes the loaded tree as its input.
- `render` and `debug` are left out. They only print DOT text to stdout and to stderr.
- `init_yaml` is left out. It registers the constructors in PyYAML's global `SafeLoader` table, which is a foreign library.
- `construct_scalar`, `construct_sequence` and `node.value` belong to PyYAML. Their results are the constructors' inputs. PyYAML constructs child mappings and sequences of a tag lazily (`deep=False`), so an `!If` or `!Equals` can meet a mapping or list that is not filled in yet; for example, `!Equals [[1], [2]]` can compare two still-empty lists and give true. The model takes every value as fully constructed.
- Numbers are `int`. Floating-point values are not modelled.
- Mapping keys are strings. Non-string YAML keys are not modelled.
- A mapping is a sequence of entries and may repeat a key, which a dict cannot. `Lookup` returns the first entry with the key (`LookupFirst`). `Equal` and `LookupDistinct` agree with dict semantics when the keys are distinct (`DistinctKeys`), as the loaders guarantee.
- `date` and `datetime` are one kind, `Stamp`. The model does not distinguish them.
- The `assert`s at cloud_formation_viz/cfviz.py:64 and :67 are always modelled as raising. Running Python with `-O` would remove them; that case is not modelled.
- `find_refs` is a generator in the source. Edges it yields before an exception are discarded, because the exception ends the run. So the model returns either all edges or the error.
- A subgraph is appended by reference in the source. It is never changed afterwards, so the model appends its value.
- Pseudo-parameter nodes come from iterating over a Python set, so their order is arbitrary. `HandlePseudoParams` chooses them in any order. Its contract fixes only the set of nodes and that each appears once.
- Edge filtering, identifier normalisation and port-number labels do not appear in this code, so they are not modelled.
- setup.py is packaging metadata only, so it is not modelled.
- Graphs.BuildGraph: when `handle_psuedo_params` raises, the contract says only that the error is a `FromNotString`, not which edge caused it. `Graphs.HandlePseudoParams` states which edge it is.
- Graphs.FinishGraph: the same weakening as BuildGraph applies to the pseudo-parameter error.

## Findings

| source | as written | input that shows it | evidently intended | confidence | as-written member | corrected member |
|---|---|---|---|---|---|---|
| cloud_formation_viz/cf_template.py:16-18 | `!GetAtt Bucket.Arn` becomes `{"Fn::GetAtt": ["Bucket.Arn"]}`, so the reference walk draws an edge from `Bucket.Arn`, which is not the name of any node | resource `Policy` with `Target: !GetAtt Bucket.Arn`, compared with the JSON template `{"Fn::GetAtt": ["Bucket", "Arn"]}` | split the short form at the first dot into `[Bucket, Arn]`, as CloudFormation defines it, so that the YAML and JSON templates give the same edge (Bucket, Policy) | medium; not executed | Tags.GetAttDottedMismatch | Tags.GetAttSplitMatchesJson |
