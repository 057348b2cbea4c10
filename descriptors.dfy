/**
  The declarative vocabulary of a facade class: the three field descriptors and
  the schema that building a class extracts from its body.
 */
module Descriptors {
  import opened Document

  /**
    A field descriptor. `Literal` passes raw values through and carries its
    default; `Nested` and `Collection` name the facade class of the sub-object
    (or of every element of the list).
   */
  datatype Descriptor =
    | Literal(default: Raw)
    | Nested(clazz: Schema)
    | Collection(clazz: Schema)

  /**
    What the generated class knows: its name, `things` (the field name to
    descriptor table) and `stuff` (every other name of the class body with its
    value, which is all the generated class itself carries).
   */
  datatype Schema = Schema(name: string, things: map<string, Descriptor>, stuff: map<string, Raw>)

  /** One entry of a class body: a descriptor, or any other value. */
  datatype Entry = Property(d: Descriptor) | Member(v: Raw)

  /** The name under which an instance keeps its fragment. */
  const DataName: string := "_data"

  /**
    A schema a facade can work with: the field table and the plain names do not
    overlap, and no field is called `_data` (Python would recurse without end
    when such an instance stores its fragment).
   */
  predicate WellFormed(s: Schema)
  {
    DataName !in s.things && s.things.Keys !! s.stuff.Keys
  }

  /**
    `Literal._load`: the default exactly when the raw value is `None`, the raw
    value itself otherwise (also when it is falsy, such as `0` or `''`).
   */
  function LiteralLoad(default: Raw, raw: Raw): (r: Raw)
    ensures raw.RNull? ==> r == default
    ensures !raw.RNull? ==> r == raw
  {
    if raw.RNull? then default else raw
  }

  /** `Literal._dump`: the identity, `None` included. */
  function LiteralDump(value: Raw): Raw
  {
    value
  }

  /** Loading what a literal dumped gives it back unless it is `None`, which reads as the default. */
  lemma LiteralRoundTrip(default: Raw, value: Raw)
    ensures LiteralLoad(default, LiteralDump(value)) == if value.RNull? then default else value
    ensures LiteralDump(LiteralLoad(default, value)) == if value.RNull? then default else value
  {
  }

  /**
    Building a class from its body: `things` holds exactly the descriptor entries,
    `stuff` exactly the others; together they cover the body and never overlap.
   */
  function Split(name: string, body: map<string, Entry>): (s: Schema)
    ensures s.name == name
    ensures s.things.Keys !! s.stuff.Keys
    ensures s.things.Keys + s.stuff.Keys == body.Keys
    ensures forall n :: n in s.things ==> body[n] == Property(s.things[n])
    ensures forall n :: n in s.stuff ==> body[n] == Member(s.stuff[n])
  {
    var things := map n | n in body && body[n].Property? :: body[n].d;
    Schema(name, things, map n | n in body && n !in things :: body[n].v)
  }

  /** A body without a `_data` descriptor splits into a schema a facade can work with. */
  lemma SplitWellFormed(name: string, body: map<string, Entry>)
    requires DataName !in body || body[DataName].Member?
    ensures WellFormed(Split(name, body))
  {
  }

  /**
    The keyword names that are not fields, in the order of `names` (the order in
    which the keyword dict iterates): a name is in the result exactly when it is
    given and is not a field.
   */
  function Unknowns(names: seq<string>, things: map<string, Descriptor>): (u: seq<string>)
    ensures |u| <= |names|
    ensures forall n :: n in u <==> n in names && n !in things
  {
    if names == [] then []
    else (if names[0] in things then [] else [names[0]]) + Unknowns(names[1..], things)
  }

  /** No name is unknown exactly when every given name is a field. */
  lemma {:induction false} NoUnknowns(names: seq<string>, things: map<string, Descriptor>)
    ensures Unknowns(names, things) == [] <==> forall i :: 0 <= i < |names| ==> names[i] in things
  {
    if Unknowns(names, things) != [] {
      var n := Unknowns(names, things)[0];
      assert n in names && n !in things;
    }
  }

  /** The filter keeps the order of its input: filtering two runs of names one after the other is filtering both. */
  lemma {:induction false} UnknownsConcat(a: seq<string>, b: seq<string>, things: map<string, Descriptor>)
    ensures Unknowns(a + b, things) == Unknowns(a, things) + Unknowns(b, things)
  {
    if a != [] {
      assert (a + b)[1..] == a[1..] + b;
      UnknownsConcat(a[1..], b, things);
    } else {
      assert a + b == b;
    }
  }

  /** The failure `__init__` raises: the class and every unknown keyword name. */
  datatype ConstructError = UnknownProperties(className: string, names: seq<string>)
}
