/**
  What callers of the facade can rely on, derived from the contracts of the
  facade operations alone: edits through a nested facade or a list view land in
  the fragment the owner holds, and the examples of the library's own tests.
 */
module Scenarios {
  import opened Document
  import opened Descriptors
  import opened Facades

  /**
    `parent.field.sub = v` for a nested field and a literal sub-field. When the
    sub-fragment is truthy the read wraps it by reference and the write shows in
    the parent's document; when it is `None` or empty the read wraps a fresh
    mapping, so neither the parent's document nor the empty sub-mapping changes.
   */
  method NestedFieldWrite(parent: Facade, field: string, sub: string, v: Raw)
    requires parent.Valid()
    requires field in parent.schema.things && parent.schema.things[field].Nested?
    requires WellFormed(parent.schema.things[field].clazz)
    requires Wrappable(Lookup(parent.data.m, field))
    requires sub in parent.schema.things[field].clazz.things
    requires parent.schema.things[field].clazz.things[sub].Literal?
    modifies Refs(Lookup(parent.data.m, field))
    ensures parent.data == old(parent.data)
    ensures old(Truthy(Lookup(parent.data.m, field))) ==>
              var f := old(parent.data.m[field].frag);
              && f.m == old(f.m)[sub := v]
              && (f != parent.data ==> parent.data.m == old(parent.data.m))
    ensures !old(Truthy(Lookup(parent.data.m, field))) ==>
              unchanged(parent.data) && unchanged(Refs(old(Lookup(parent.data.m, field))))
  {
    var got := parent.GetAttr(field);
    var child := got.value.obj;
    var written := child.SetAttr(sub, Plain(v));
  }

  /**
    `owner.field[i].sub = v` for a collection field: the same sharing as for a
    nested field, through the element the list view yields.
   */
  method CollectionItemWrite(owner: Facade, field: string, i: nat, sub: string, v: Raw)
    requires owner.Valid()
    requires field in owner.schema.things && owner.schema.things[field].Collection?
    requires WellFormed(owner.schema.things[field].clazz)
    requires Lookup(owner.data.m, field).RList?
    requires i < |Lookup(owner.data.m, field).list.xs|
    requires Wrappable(Lookup(owner.data.m, field).list.xs[i])
    requires sub in owner.schema.things[field].clazz.things
    requires owner.schema.things[field].clazz.things[sub].Literal?
    modifies Refs(Lookup(owner.data.m, field).list.xs[i])
    ensures owner.data == old(owner.data)
    ensures old(Truthy(Lookup(owner.data.m, field).list.xs[i])) ==>
              var f := old(owner.data.m[field].list.xs[i].frag);
              && f.m == old(f.m)[sub := v]
              && (f != owner.data ==> owner.data.m == old(owner.data.m))
    ensures !old(Truthy(Lookup(owner.data.m, field).list.xs[i])) ==>
              unchanged(owner.data) && unchanged(Refs(old(Lookup(owner.data.m, field).list.xs[i])))
  {
    var got := owner.GetAttr(field);
    var p := got.value.proxy;
    var child := p.Get(i);
    var written := child.SetAttr(sub, Plain(v));
  }

  /** `owner.field.append(x)`: the owner's list itself grows by `x`'s fragment. */
  method AppendThroughField(owner: Facade, field: string, x: Facade)
    requires owner.Valid()
    requires field in owner.schema.things && owner.schema.things[field].Collection?
    requires Lookup(owner.data.m, field).RList?
    modifies Lookup(owner.data.m, field).list
    ensures owner.data.m == old(owner.data.m)
    ensures owner.data.m[field].list.xs == old(owner.data.m[field].list.xs) + [RMap(x.data)]
  {
    var got := owner.GetAttr(field);
    got.value.proxy.Append(x);
  }

  /** `owner.field.insert(pos, x)`: the owner's list gets `x`'s fragment at `pos`. */
  method InsertThroughField(owner: Facade, field: string, pos: nat, x: Facade)
    requires owner.Valid()
    requires field in owner.schema.things && owner.schema.things[field].Collection?
    requires Lookup(owner.data.m, field).RList?
    requires pos <= |Lookup(owner.data.m, field).list.xs|
    modifies Lookup(owner.data.m, field).list
    ensures owner.data.m == old(owner.data.m)
    ensures owner.data.m[field].list.xs == InsertAt(old(owner.data.m[field].list.xs), pos, RMap(x.data))
  {
    var got := owner.GetAttr(field);
    got.value.proxy.Insert(pos, x);
  }

  /** `owner.field[i] = x`: only index `i` of the owner's list changes. */
  method SetItemThroughField(owner: Facade, field: string, i: nat, x: Facade)
    requires owner.Valid()
    requires field in owner.schema.things && owner.schema.things[field].Collection?
    requires Lookup(owner.data.m, field).RList?
    requires i < |Lookup(owner.data.m, field).list.xs|
    modifies Lookup(owner.data.m, field).list
    ensures owner.data.m == old(owner.data.m)
    ensures owner.data.m[field].list.xs == old(owner.data.m[field].list.xs)[i := RMap(x.data)]
  {
    var got := owner.GetAttr(field);
    got.value.proxy.Set(i, x);
  }

  /** `del owner.field[i]`: index `i` leaves the owner's list, later ones move down. */
  method DeleteThroughField(owner: Facade, field: string, i: nat)
    requires owner.Valid()
    requires field in owner.schema.things && owner.schema.things[field].Collection?
    requires Lookup(owner.data.m, field).RList?
    requires i < |Lookup(owner.data.m, field).list.xs|
    modifies Lookup(owner.data.m, field).list
    ensures owner.data.m == old(owner.data.m)
    ensures owner.data.m[field].list.xs == RemoveAt(old(owner.data.m[field].list.xs), i)
  {
    var got := owner.GetAttr(field);
    got.value.proxy.Delete(i);
  }

  /** Two reads of one collection field give two views, and each sees the other's edits. */
  method ViewsShareList(owner: Facade, field: string, x: Facade) returns (first: ListProxy, second: ListProxy)
    requires owner.Valid()
    requires field in owner.schema.things && owner.schema.things[field].Collection?
    requires Lookup(owner.data.m, field).RList?
    modifies Lookup(owner.data.m, field).list
    ensures first != second && first.backing == second.backing == owner.data.m[field]
    ensures second.Len() == old(|owner.data.m[field].list.xs|) + 1
  {
    var one := owner.GetAttr(field);
    var two := owner.GetAttr(field);
    first, second := one.value.proxy, two.value.proxy;
    first.Append(x);
  }

  /**
    `x.attr = v` then `x.attr` on a literal field reads back `v`, or the default
    when `v` is `None`; the document gains `attr := v` and nothing else, and the
    instance attributes are as they were.
   */
  method LiteralWriteThenRead(x: Facade, attr: string, v: Raw) returns (r: Result<Value, AttrError>)
    requires x.Valid() && attr in x.schema.things && x.schema.things[attr].Literal?
    modifies x, x.data
    ensures x.data == old(x.data)
    ensures r == Success(Plain(if v.RNull? then x.schema.things[attr].default else v))
    ensures x.data.m == old(x.data.m)[attr := v] && x.attrs == old(x.attrs)
  {
    var written := x.SetAttr(attr, Plain(v));
    r := x.GetAttr(attr);
  }

  /**
    `x.attr = y` then `x.attr` on a nested field reads back a new facade over
    `y`'s own fragment when that is truthy: the same document, not a copy.
   */
  method NestedWriteThenRead(x: Facade, attr: string, y: Facade) returns (r: Result<Value, AttrError>)
    requires x.Valid() && attr in x.schema.things && x.schema.things[attr].Nested?
    requires WellFormed(x.schema.things[attr].clazz)
    modifies x, x.data
    ensures x.data == old(x.data)
    ensures r.Success? && r.value.Obj? && r.value.obj != y && r.value.obj.schema == x.schema.things[attr].clazz
    ensures old(y.data.m) != map[] ==> r.value.obj.data == old(y.data)
  {
    var written := x.SetAttr(attr, Obj(y));
    r := x.GetAttr(attr);
  }

  /**
    Loading a facade's own dump (`cls._load(x._dump(top=False), top=False)`)
    wraps the same fragment again when it is not empty.
   */
  method ReloadDump(x: Facade) returns (y: Facade)
    requires x.Valid()
    ensures y != x && y.schema == x.schema
    ensures x.data.m != map[] ==> y.data == x.data
    ensures x.data.m == map[] ==> fresh(y.data) && y.data.m == map[]
  {
    y := Load(x.schema, RMap(x.Dump()));
  }

  /** The classes `Thing` and `Lots` of the library's tests. */
  function ThingClass(): Schema
  {
    Schema("Thing", map["value" := Literal(RNull)], map[])
  }

  function LotsClass(): Schema
  {
    Schema("Lots", map["things" := Collection(ThingClass())], map[])
  }

  /**
    `Lots(things=[Thing(value=2), Thing(value=3)])` holds
    `{"things": [{"value": 2}, {"value": 3}]}`, and after `del lots.things[0]`
    only `{"value": 3}` is left in its list.
   */
  method ManyExample()
  {
    var two := Construct(ThingClass(), RNull, [("value", Plain(RInt(2)))]);
    var three := Construct(ThingClass(), RNull, [("value", Plain(RInt(3)))]);
    assert two.value.data.m == map["value" := RInt(2)];
    assert three.value.data.m == map["value" := RInt(3)];
    var lots := Construct(LotsClass(), RNull, [("things", Objs([two.value, three.value]))]);
    var owner := lots.value;
    assert owner.data.m.Keys == {"things"};
    var things := owner.data.m["things"];
    assert things.list.xs == [RMap(two.value.data), RMap(three.value.data)];
    DeleteThroughField(owner, "things", 0);
    assert owner.data.m["things"].list.xs == [RMap(three.value.data)];
    assert three.value.data.m == map["value" := RInt(3)];
  }

  /**
    `Thing(not_there=5)` fails naming the class and the unknown name; reading or
    writing `not_there` on a `Thing` fails both ways and leaves its document as it was.
    The unknown names are reported before any value is dumped, so
    `Lots(things=None, nope=1)` fails on `nope` too.
   */
  method UnknownNamesExample()
  {
    var bad := Construct(ThingClass(), RNull, [("not_there", Plain(RInt(5)))]);
    assert Names([("not_there", Plain(RInt(5)))]) == ["not_there"];
    assert Unknowns(["not_there"], ThingClass().things) == ["not_there"];
    assert bad == Failure(UnknownProperties("Thing", ["not_there"]));
    var early := Construct(LotsClass(), RNull, [("things", Plain(RNull)), ("nope", Plain(RInt(1)))]);
    assert Names([("things", Plain(RNull)), ("nope", Plain(RInt(1)))]) == ["things", "nope"];
    assert Unknowns(["things", "nope"], LotsClass().things) == ["nope"];
    assert early == Failure(UnknownProperties("Lots", ["nope"]));
    var good := Construct(ThingClass(), RNull, [("value", Plain(RInt(5)))]);
    var t := good.value;
    var read := t.GetAttr("not_there");
    assert read == Failure(UnknownAttribute("not_there"));
    var written := t.SetAttr("not_there", Plain(RInt(123)));
    assert written == Failure(UnknownAttribute("not_there"));
    assert t.data.m == map["value" := RInt(5)];
  }

  /**
    A class with a literal `a = Literal(default=5)` and a plain name `b = None`:
    `a` reads as its default while absent, and `b` can be assigned and read back.
   */
  method DefaultsAndPlainNamesExample()
  {
    var test := Schema("Test", map["a" := Literal(RInt(5))], map["b" := RNull]);
    var made := Construct(test, RNull, []);
    var x := made.value;
    var a := x.GetAttr("a");
    assert a == Success(Plain(RInt(5)));
    var b := x.GetAttr("b");
    assert b == Success(Plain(RNull));
    var stored := x.SetAttr("b", Plain(RInt(5)));
    b := x.GetAttr("b");
    assert b == Success(Plain(RInt(5)));
    assert x.data.m == map[];
  }
}
