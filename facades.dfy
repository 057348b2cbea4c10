/**
  The facade objects of a generated class and the live list view of a
  collection field. A facade holds one fragment by reference; every field read
  converts the fragment's raw value through the field's descriptor, and every
  field write stores the descriptor's dump of the new value.
 */
module Facades {
  import opened Document
  import opened Descriptors

  datatype Result<T, E> = Success(value: T) | Failure(error: E)

  /** The `AttributeError` that field access raises for a name the class does not know. */
  datatype AttrError = UnknownAttribute(name: string)

  /** A value on the facade side of a descriptor. */
  datatype Value =
    | Plain(raw: Raw)           // the value of a literal field (or of a plain name)
    | Obj(obj: Facade)          // one facade object, for a nested field
    | Objs(items: seq<Facade>)  // a Python list of facade objects, for a collection field
    | Proxy(proxy: ListProxy)   // the live view a collection field reads as

  /** The fragments of a list of facades, in order: what `Collection._dump` builds a list of. */
  function FacadeFrags(items: seq<Facade>): (r: seq<Raw>)
    reads set f | f in items
    ensures |r| == |items|
    ensures forall i :: 0 <= i < |items| ==> r[i] == RMap(items[i].data)
  {
    if items == [] then [] else [RMap(items[0].data)] + FacadeFrags(items[1..])
  }

  /** What `descriptor._dump(value)` can take without failing. */
  predicate Dumpable(d: Descriptor, v: Value)
    reads if v.Proxy? then Refs(v.proxy.backing) else {}
  {
    match d
    case Literal(_) => v.Plain?
    case Nested(_) => v.Obj?
    case Collection(_) =>
      || v.Objs?
      || (&& v.Proxy? && WellFormed(v.proxy.elem) && v.proxy.backing.RList?
          && forall i :: 0 <= i < |v.proxy.backing.list.xs| ==> Wrappable(v.proxy.backing.list.xs[i]))
  }

  /**
    Iterating a list view and dumping each facade it yields: every element whose
    fragment was truthy comes back as the same fragment; every other element
    (`None` or an empty mapping) comes back as a fresh empty mapping of its own,
    because `cls(_data=...)` does not wrap a falsy fragment and builds a new dict
    each time.
   */
  twostate predicate Rewrapped(xs: seq<Raw>, new ys: seq<Raw>)
    reads FragsOf(ys)
  {
    && |ys| == |xs|
    && (forall i :: 0 <= i < |xs| ==>
          if old(Truthy(xs[i])) then ys[i] == xs[i]
          else ys[i].RMap? && fresh(ys[i].frag) && ys[i].frag.m == map[])
    && (forall i, j :: 0 <= i < j < |xs| && !old(Truthy(xs[i])) && !old(Truthy(xs[j])) ==>
          ys[i].frag != ys[j].frag)
  }

  /** `r` is the raw value `d._dump(v)` returns, the dump taken in the old state. */
  twostate predicate DumpedAs(d: Descriptor, v: Value, new r: Raw)
    reads Refs(r), if r.RList? then FragsOf(r.list.xs) else {}
  {
    match d
    case Literal(_) => v.Plain? && r == v.raw
    case Nested(_) => v.Obj? && r == RMap(old(v.obj.data))
    case Collection(_) =>
      && r.RList? && fresh(r.list)
      && (v.Objs? ==> r.list.xs == old(FacadeFrags(v.items)))
      && (v.Proxy? ==> v.proxy.backing.RList? && Rewrapped(old(v.proxy.backing.list.xs), r.list.xs))
  }

  /**
    `f` is a new facade of class `cls` built by `cls(_data=doc)`: it holds `doc`'s
    own fragment when that is truthy, and a fresh empty fragment otherwise.
   */
  twostate predicate Wraps(new f: Facade, cls: Schema, doc: Raw)
    reads f, f.data
  {
    && fresh(f) && f.schema == cls && f.attrs == map[] && f.Valid()
    && (old(Truthy(doc)) ==> doc.RMap? && f.data == doc.frag)
    && (!old(Truthy(doc)) ==> fresh(f.data) && f.data.m == map[])
  }

  /** The heap objects a raw value holds directly: its mapping or list, and a list's element mappings. */
  function Objects(r: Raw): set<object>
    reads Refs(r)
  {
    Refs(r) + (if r.RList? then FragsOf(r.list.xs) else {})
  }

  /** What `Held(v)` reads. */
  function HeldReads(v: Value): set<object>
  {
    match v
    case Plain(raw) => Refs(raw)
    case Obj(f) => {f}
    case Objs(items) => set f | f in items
    case Proxy(p) => Refs(p.backing)
  }

  /** The heap objects a facade-side value holds that a dump of it can reuse. */
  function Held(v: Value): set<object>
    reads HeldReads(v)
  {
    match v
    case Plain(raw) => Objects(raw)
    case Obj(f) => {f.data}
    case Objs(items) => set k | 0 <= k < |items| :: items[k].data
    case Proxy(p) => Objects(p.backing)
  }

  /**
    `kw.keys()`: the keyword names, in the order the sequence lists them. The
    sequence stands for the order in which the keyword dict iterates.
   */
  function Names(kw: seq<(string, Value)>): (r: seq<string>)
    ensures |r| == |kw|
    ensures forall i :: 0 <= i < |kw| ==> r[i] == kw[i].0
  {
    if kw == [] then [] else [kw[0].0] + Names(kw[1..])
  }

  /** Python never passes the same keyword twice. */
  predicate KeywordsDistinct(kw: seq<(string, Value)>)
  {
    forall i, j :: 0 <= i < j < |kw| ==> kw[i].0 != kw[j].0
  }

  /** One instance of a generated class: a facade over one raw fragment. */
  class Facade {
    const schema: Schema
    /** `self._data`: the fragment, held by reference. */
    var data: Frag
    /** Instance attributes stored under the class's plain names. */
    var attrs: map<string, Value>

    ghost predicate Valid()
      reads this
    {
      WellFormed(schema) && attrs.Keys <= schema.stuff.Keys && DataName !in attrs
    }

    /** A facade over `data`, with no instance attributes yet. */
    constructor Wrap(schema: Schema, data: Frag)
      requires WellFormed(schema)
      ensures Valid()
      ensures this.schema == schema && this.data == data && attrs == map[]
    {
      this.schema := schema;
      this.data := data;
      this.attrs := map[];
    }

    /** `_dump(top=False)`: the facade's own fragment, not a copy. */
    function Dump(): Frag
      reads this
    {
      data
    }

    /**
      Attribute read. `_data` and the plain names are found as ordinary attributes
      (an instance attribute before the class's value); a field reads as its
      descriptor's load of the fragment's value, an absent key reading as `None`;
      any other name fails.
     */
    method GetAttr(attr: string) returns (r: Result<Value, AttrError>)
      requires Valid()
      requires attr in schema.things && schema.things[attr].Nested? ==>
                 WellFormed(schema.things[attr].clazz) && Wrappable(Lookup(data.m, attr))
      ensures attr == DataName ==> r == Success(Plain(RMap(data)))
      ensures attr != DataName && attr in attrs ==> r == Success(attrs[attr])
      ensures attr != DataName && attr !in attrs && attr in schema.stuff ==>
                r == Success(Plain(schema.stuff[attr]))
      ensures attr in schema.things && schema.things[attr].Literal? ==>
                r == Success(Plain(LiteralLoad(schema.things[attr].default, Lookup(data.m, attr))))
      ensures attr in schema.things && schema.things[attr].Nested? ==>
                r.Success? && r.value.Obj? && Wraps(r.value.obj, schema.things[attr].clazz, Lookup(data.m, attr))
      ensures attr in schema.things && schema.things[attr].Collection? ==>
                && r.Success? && r.value.Proxy? && fresh(r.value.proxy)
                && r.value.proxy.elem == schema.things[attr].clazz
                && r.value.proxy.backing == Lookup(data.m, attr)
      ensures attr != DataName && attr !in schema.stuff && attr !in schema.things ==>
                r == Failure(UnknownAttribute(attr))
    {
      if attr == DataName {
        r := Success(Plain(RMap(data)));
      } else if attr in attrs {
        r := Success(attrs[attr]);
      } else if attr in schema.stuff {
        r := Success(Plain(schema.stuff[attr]));
      } else if attr in schema.things {
        var raw := Lookup(data.m, attr);
        match schema.things[attr]
        case Literal(default) =>
          r := Success(Plain(LiteralLoad(default, raw)));
        case Nested(clazz) =>
          var f := Load(clazz, raw);
          r := Success(Obj(f));
        case Collection(clazz) =>
          var p := new ListProxy(clazz, raw);
          r := Success(Proxy(p));
      } else {
        r := Failure(UnknownAttribute(attr));
      }
    }

    /**
      Attribute write. A field stores its descriptor's dump of `v` under its own
      key and leaves every other key alone; `_data` replaces the fragment; a plain
      name sets an instance attribute; any other name fails and changes nothing.
     */
    method SetAttr(attr: string, v: Value) returns (r: Result<(), AttrError>)
      requires Valid()
      requires attr in schema.things ==> Dumpable(schema.things[attr], v)
      requires attr == DataName ==> v.Plain? && v.raw.RMap?
      modifies this, data
      ensures Valid()
      ensures attr in schema.things ==>
                && r.Success? && data == old(data) && attrs == old(attrs)
                && attr in data.m && data.m == old(data.m)[attr := data.m[attr]]
                && DumpedAs(schema.things[attr], v, data.m[attr])
      ensures attr == DataName ==>
                r.Success? && data == v.raw.frag && attrs == old(attrs) && unchanged(old(data))
      ensures attr != DataName && attr in schema.stuff ==>
                r.Success? && data == old(data) && unchanged(data) && attrs == old(attrs)[attr := v]
      ensures attr != DataName && attr !in schema.stuff && attr !in schema.things ==>
                r == Failure(UnknownAttribute(attr)) && unchanged(this) && unchanged(old(data))
    {
      if attr in schema.things {
        var raw := DumpValue(schema.things[attr], v);
        data.m := data.m[attr := raw];
        r := Success(());
      } else if attr == DataName {
        data := v.raw.frag;
        r := Success(());
      } else if attr in schema.stuff {
        attrs := attrs[attr := v];
        r := Success(());
      } else {
        r := Failure(UnknownAttribute(attr));
      }
    }
    /**
      `self.attr += items` on a collection field: the read gives a view over the
      owner's list, `+=` extends that list in place, and Python then assigns the
      view back to the field, which dumps it into a fresh list.
     */
    method PlusAssign(attr: string, items: seq<Facade>) returns (r: Result<(), AttrError>)
      requires Valid()
      requires attr in schema.things && schema.things[attr].Collection?
      requires WellFormed(schema.things[attr].clazz)
      requires Lookup(data.m, attr).RList?
      requires forall i :: 0 <= i < |Lookup(data.m, attr).list.xs| ==> Wrappable(Lookup(data.m, attr).list.xs[i])
      modifies this, data, Lookup(data.m, attr).list
      ensures Valid() && r.Success? && data == old(data) && attrs == old(attrs)
      ensures old(data.m[attr].list).xs == old(data.m[attr].list.xs) + old(FacadeFrags(items))
      ensures attr in data.m && data.m == old(data.m)[attr := data.m[attr]]
      ensures data.m[attr].RList? && fresh(data.m[attr].list)
      ensures Rewrapped(old(data.m[attr].list).xs, data.m[attr].list.xs)
    {
      var got := GetAttr(attr);
      var p := got.value.proxy;
      p.Extend(items);
      r := SetAttr(attr, Proxy(p));
    }
  }

  /** The list view a collection field reads as; it keeps no copy of anything. */
  class ListProxy {
    /** The class of the elements (the field's `Nested` part). */
    const elem: Schema
    /** The raw value the view was made over: the owner's list, shared. */
    const backing: Raw

    constructor (elem: Schema, backing: Raw)
      ensures this.elem == elem && this.backing == backing
    {
      this.elem := elem;
      this.backing := backing;
    }

    /** `len(proxy)`: the length of the backing list. */
    function Len(): nat
      requires backing.RList?
      reads backing.list
    {
      |backing.list.xs|
    }

    /** `proxy[i]`: a new facade over the i-th raw element. */
    method Get(i: nat) returns (f: Facade)
      requires WellFormed(elem) && backing.RList? && i < |backing.list.xs|
      requires Wrappable(backing.list.xs[i])
      ensures Wraps(f, elem, backing.list.xs[i])
      decreases 0, 3
    {
      f := Load(elem, backing.list.xs[i]);
    }

    /** `proxy[i] = x`: the i-th raw element becomes `x`'s fragment; nothing else changes. */
    method Set(i: nat, x: Facade)
      requires backing.RList? && i < |backing.list.xs|
      modifies backing.list
      ensures backing.list.xs == old(backing.list.xs)[i := RMap(x.data)]
    {
      backing.list.xs := backing.list.xs[i := RMap(x.Dump())];
    }

    /** `del proxy[i]`: the i-th raw element goes, later ones move down. */
    method Delete(i: nat)
      requires backing.RList? && i < |backing.list.xs|
      modifies backing.list
      ensures backing.list.xs == RemoveAt(old(backing.list.xs), i)
    {
      backing.list.xs := RemoveAt(backing.list.xs, i);
    }

    /** `proxy.insert(pos, x)`: `x`'s fragment goes in at `pos`, later elements move up. */
    method Insert(pos: nat, x: Facade)
      requires backing.RList? && pos <= |backing.list.xs|
      modifies backing.list
      ensures backing.list.xs == InsertAt(old(backing.list.xs), pos, RMap(x.data))
    {
      backing.list.xs := InsertAt(backing.list.xs, pos, RMap(x.Dump()));
    }

    /** `proxy.append(x)`, inherited: `insert(len(proxy), x)`. */
    method Append(x: Facade)
      requires backing.RList?
      modifies backing.list
      ensures backing.list.xs == old(backing.list.xs) + [RMap(x.data)]
    {
      AppendIsInsertAtEnd(backing.list.xs, RMap(x.data));
      Insert(Len(), x);
    }

    /** `proxy.extend(items)`, inherited: append each item in order. */
    method Extend(items: seq<Facade>)
      requires backing.RList?
      modifies backing.list
      ensures backing.list.xs == old(backing.list.xs) + old(FacadeFrags(items))
    {
      var j := 0;
      while j < |items|
        invariant 0 <= j <= |items|
        invariant backing.list.xs == old(backing.list.xs) + FacadeFrags(items[..j])
      {
        assert items[..j + 1] == items[..j] + [items[j]];
        FacadeFragsAppend(items[..j], items[j]);
        Append(items[j]);
        j := j + 1;
      }
      assert items[..j] == items;
    }
  }

  lemma FacadeFragsAppend(items: seq<Facade>, x: Facade)
    ensures FacadeFrags(items + [x]) == FacadeFrags(items) + [RMap(x.data)]
  {
  }

  /** `descriptor._dump(v)`. */
  method DumpValue(d: Descriptor, v: Value) returns (r: Raw)
    requires Dumpable(d, v)
    ensures DumpedAs(d, v, r)
    ensures forall o :: o in Objects(r) && !fresh(o) ==> o in Held(v)
    decreases 0, 4
  {
    match d
    case Literal(_) =>
      r := LiteralDump(v.raw);
    case Nested(_) =>
      r := RMap(v.obj.Dump());
    case Collection(_) =>
      if v.Objs? {
        var l := new RawList(FacadeFrags(v.items));
        r := RList(l);
      } else {
        var xs := v.proxy.backing.list.xs;
        var ys: seq<Raw> := [];
        var i := 0;
        while i < |xs|
          invariant 0 <= i <= |xs|
          invariant Rewrapped(xs[..i], ys)
        {
          var f := v.proxy.Get(i);
          ys := ys + [RMap(f.Dump())];
          i := i + 1;
        }
        assert xs[..i] == xs;
        var l := new RawList(ys);
        r := RList(l);
      }
  }

  /** `cls._load(doc, top=False)`: `cls(_data=doc)`. */
  method Load(cls: Schema, doc: Raw) returns (f: Facade)
    requires WellFormed(cls) && Wrappable(doc)
    ensures Wraps(f, cls, doc)
    decreases 0, 2
  {
    var r := Construct(cls, doc, []);
    f := r.value;
  }

  /**
    `cls(_data=data, **kw)`. A truthy fragment is wrapped as it is and the
    keywords are ignored. Otherwise every keyword must name a field: if one does
    not, construction fails naming the class and the unknown names; if all do,
    the new fragment holds exactly the given names, each under its field's dump.
   */
  method Construct(cls: Schema, data: Raw, kw: seq<(string, Value)>) returns (r: Result<Facade, ConstructError>)
    requires WellFormed(cls) && Wrappable(data) && KeywordsDistinct(kw)
    requires forall j :: 0 <= j < |kw| ==> kw[j].0 != DataName
    requires !Truthy(data) && Unknowns(Names(kw), cls.things) == [] ==>
               forall j :: 0 <= j < |kw| && kw[j].0 in cls.things ==> Dumpable(cls.things[kw[j].0], kw[j].1)
    ensures Truthy(data) ==> r.Success? && Wraps(r.value, cls, data)
    ensures !Truthy(data) && Unknowns(Names(kw), cls.things) != [] ==>
              r == Failure(UnknownProperties(cls.name, Unknowns(Names(kw), cls.things)))
    ensures !Truthy(data) && Unknowns(Names(kw), cls.things) == [] ==>
              && r.Success? && fresh(r.value) && fresh(r.value.data) && r.value.Valid()
              && r.value.schema == cls && r.value.attrs == map[]
              && r.value.data.m.Keys == (set j | 0 <= j < |kw| :: kw[j].0)
              && (forall j :: 0 <= j < |kw| ==>
                    kw[j].0 in cls.things && DumpedAs(cls.things[kw[j].0], kw[j].1, r.value.data.m[kw[j].0]))
    decreases |kw|, 1
  {
    if Truthy(data) {
      var f := new Facade.Wrap(cls, data.frag);
      return Success(f);
    }
    var unknowns := Unknowns(Names(kw), cls.things);
    if unknowns != [] {
      return Failure(UnknownProperties(cls.name, unknowns));
    }
    NoUnknowns(Names(kw), cls.things);
    var m := DumpKeywords(cls, kw);
    var frag := new Frag(m);
    var f := new Facade.Wrap(cls, frag);
    return Success(f);
  }

  /** `{k: things[k]._dump(v) for (k, v) in kw.items()}` over keywords that all name fields. */
  method DumpKeywords(cls: Schema, kw: seq<(string, Value)>) returns (m: map<string, Raw>)
    requires KeywordsDistinct(kw)
    requires forall j :: 0 <= j < |kw| ==> kw[j].0 in cls.things && Dumpable(cls.things[kw[j].0], kw[j].1)
    ensures m.Keys == (set j | 0 <= j < |kw| :: kw[j].0)
    ensures forall j :: 0 <= j < |kw| ==> DumpedAs(cls.things[kw[j].0], kw[j].1, m[kw[j].0])
    decreases |kw|, 0
  {
    m := map[];
    var j := 0;
    while j < |kw|
      invariant 0 <= j <= |kw|
      invariant m.Keys == (set i | 0 <= i < j :: kw[i].0)
      invariant forall i :: 0 <= i < j ==> DumpedAs(cls.things[kw[i].0], kw[i].1, m[kw[i].0])
    {
      var raw := DumpValue(cls.things[kw[j].0], kw[j].1);
      m := m[kw[j].0 := raw];
      j := j + 1;
    }
  }
}
