/**
  The generic document tree that the text codec produces and consumes: scalars,
  mappings and lists. Mappings and lists are mutable heap objects, so a tree can
  share one mapping or one list between several holders, exactly as the Python
  dicts and lists behind a facade are shared.
 */
module Document {

  /** One raw value of the tree. `RNull` is Python's `None`. */
  datatype Raw =
    | RNull
    | RInt(i: int)
    | RStr(s: string)
    | RMap(frag: Frag)
    | RList(list: RawList)

  /** A raw mapping (a Python `dict` with string keys): the fragment behind one facade. */
  class Frag {
    var m: map<string, Raw>

    constructor (m: map<string, Raw>)
      ensures this.m == m
    {
      this.m := m;
    }
  }

  /** A raw list (a Python `list`). */
  class RawList {
    var xs: seq<Raw>

    constructor (xs: seq<Raw>)
      ensures this.xs == xs
    {
      this.xs := xs;
    }
  }

  /** The heap object a raw value refers to, if any. */
  function Refs(r: Raw): set<object>
  {
    match r
    case RMap(f) => {f}
    case RList(l) => {l}
    case _ => {}
  }

  /** The fragments that the elements of a raw list refer to. */
  function FragsOf(xs: seq<Raw>): set<Frag>
  {
    set i | 0 <= i < |xs| && xs[i].RMap? :: xs[i].frag
  }

  /** Python truthiness: `None`, `0`, `''`, `{}` and `[]` are false, everything else true. */
  predicate Truthy(r: Raw)
    reads Refs(r)
  {
    match r
    case RNull => false
    case RInt(i) => i != 0
    case RStr(s) => s != ""
    case RMap(f) => f.m != map[]
    case RList(l) => l.xs != []
  }

  /** A value that `cls(_data=value)` can take: a mapping, or `None`. */
  predicate Wrappable(r: Raw)
  {
    r.RNull? || r.RMap?
  }

  /** `dict.get(key)`: the value under `key`, or `None` when the key is absent. */
  function Lookup(m: map<string, Raw>, key: string): (r: Raw)
    ensures key in m ==> r == m[key]
    ensures key !in m ==> r.RNull?
  {
    if key in m then m[key] else RNull
  }

  /** `list.insert(pos, x)` for an index inside the list or just past its end. */
  function InsertAt<T>(xs: seq<T>, pos: nat, x: T): (r: seq<T>)
    requires pos <= |xs|
    ensures |r| == |xs| + 1
    ensures r[pos] == x
    ensures forall i :: 0 <= i < pos ==> r[i] == xs[i]
    ensures forall i :: pos < i < |r| ==> r[i] == xs[i - 1]
  {
    xs[..pos] + [x] + xs[pos..]
  }

  /** `del list[i]` for an index inside the list: later elements move down by one. */
  function RemoveAt<T>(xs: seq<T>, i: nat): (r: seq<T>)
    requires i < |xs|
    ensures |r| == |xs| - 1
    ensures forall j :: 0 <= j < i ==> r[j] == xs[j]
    ensures forall j :: i <= j < |r| ==> r[j] == xs[j + 1]
  {
    xs[..i] + xs[i + 1..]
  }

  /** Deleting what was just inserted restores the list. */
  lemma RemoveInsert<T>(xs: seq<T>, pos: nat, x: T)
    requires pos <= |xs|
    ensures RemoveAt(InsertAt(xs, pos, x), pos) == xs
  {
  }

  /** Re-inserting a deleted element at its old index restores the list. */
  lemma InsertRemove<T>(xs: seq<T>, i: nat)
    requires i < |xs|
    ensures InsertAt(RemoveAt(xs, i), i, xs[i]) == xs
  {
  }

  /** Appending is inserting at the end. */
  lemma AppendIsInsertAtEnd<T>(xs: seq<T>, x: T)
    ensures InsertAt(xs, |xs|, x) == xs + [x]
  {
  }
}
