# yamb: a schema-declared object facade over a document tree, in Dafny

yamb lets a Python class declare fields as `Literal`, `Nested(clazz)` or
`Collection(clazz)` descriptors. The class's metaclass splits the body into a
descriptor table (`things`) and plain names (`stuff`). Each instance holds one
raw fragment (a dict of the parsed document) by reference. Reading a field
loads through its descriptor, writing a field dumps through it, and a
collection field reads as a live `ListProxy` over the raw list inside the
fragment.

This project models that core (`yamb/__init__.py`) with the heap made
explicit, so that the sharing the library relies on can be stated and proved:

- `Document` (document.dfy): the raw tree. `Raw` holds scalars, `RMap` of a
  `Frag` class (a dict) and `RList` of a `RawList` class (a list). Both are
  heap objects, so they can be shared. The module also gives Python
  truthiness, `dict.get`, and the list edits `insert` and `del`.
- `Descriptors` (descriptors.dfy): the `Descriptor` and `Schema` values,
  `Literal` loading and dumping, the split of a class body into `things` and
  `stuff`, and the filter that finds unknown keyword names.
- `Facades` (facades.dfy): the `Facade` class (`_data`, plain instance
  attributes, `__getattr__`, `__setattr__`, `+=` on a collection field), the
  `ListProxy` class, `_load`/`_dump` with `top=False`, construction, and the
  descriptors' dumps. The dumps allocate fresh lists and fresh facades.
- `Scenarios` (scenarios.dfy): what callers get from those contracts alone.
  A nested or list-element edit shows in the owner's document when the
  sub-fragment is truthy, and is lost when it is empty. Proxy edits change the
  owner's own list. Two views of one field see each other's edits. Writing a
  field and reading it back gives the written value. The file ends with the
  examples of the library's tests, as assertions the verifier proves.

Some model functions have no contract of their own, because their meaning is
stated by the members that use them: `LiteralDump` (yamb/__init__.py:49-50),
`Facade.Dump` (`_dump(top=False)`, yamb/__init__.py:136-137), `ListProxy.Len`
(yamb/__init__.py:88-89) and `Truthy` (the test `if _data:` at
yamb/__init__.py:115).

Three behaviours of the code are easy to miss, and the model follows the code in each:

- A given `_data` fragment is wrapped by reference only when it is truthy. An
  empty mapping or `None` gives a fresh `{}` instead, so a facade read over an
  empty sub-mapping is detached from its parent.
- `owner.field += items` extends the owner's list in place. Python then
  assigns the returned view back to the field, and that assignment dumps the
  view into a fresh list. Elements that were `None` or empty mappings come
  back as new empty mappings. So the result is not just a run of inserts at
  the end.
- Reading an absent collection field gives a view over `None`. That view
  fails at its first use, so it is not an empty list.

## Model

| member | source | states |
|---|---|---|
| `Document.Lookup` | yamb/__init__.py:141 | `dict.get`: the stored value when the key is present, `None` when it is absent |
| `Document.InsertAt` | yamb/__init__.py:91-92 | `list.insert(pos, x)`: one longer, `x` at `pos`, earlier elements kept, later ones shifted up by one |
| `Document.RemoveAt` | yamb/__init__.py:85-86 | `del list[i]`: one shorter, earlier elements kept, later ones shifted down by one |
| `Document.RemoveInsert` | yamb/__init__.py:85-92 | deleting at `pos` right after inserting at `pos` restores the list |
| `Document.InsertRemove` | yamb/__init__.py:85-92 | re-inserting a deleted element at its index restores the list |
| `Document.AppendIsInsertAtEnd` | yamb/__init__.py:91-92 | the inherited `append` (an insert at `len`) adds the element at the end |
| `Descriptors.LiteralLoad` | yamb/__init__.py:43-47 | gives the default exactly when the raw value is `None`, and the raw value unchanged otherwise, falsy values included |
| `Descriptors.LiteralRoundTrip` | yamb/__init__.py:43-50 | a literal's load of its dump, and its dump of its load, give the value back, except that `None` reads as the default |
| `Descriptors.Split` | yamb/__init__.py:110-111 | `things` holds exactly the descriptor entries of the class body and `stuff` all the others; the two are disjoint and cover the body |
| `Descriptors.SplitWellFormed` | yamb/__init__.py:110-111 | a body with no `_data` descriptor gives a schema the facade operations accept |
| `Descriptors.Unknowns` | yamb/__init__.py:119 | a name is in the result exactly when it is given and is not a field; the result is no longer than the input |
| `Descriptors.NoUnknowns` | yamb/__init__.py:119-120 | there is no unknown name exactly when every given name is a field |
| `Descriptors.UnknownsConcat` | yamb/__init__.py:119 | filtering a concatenation is concatenating the filtered parts, so the unknown names keep the order of the input sequence (the order `kw.keys()` iterates) |
| `Facades.Names` | yamb/__init__.py:119 | `kw.keys()`: one name per keyword, name `i` being keyword `i`'s, in the order of the keyword sequence |
| `Facades.FacadeFrags` | yamb/__init__.py:96-97 | `Collection._dump` of a list of facades, same length and order, element `i` being facade `i`'s own fragment |
| `Facades.Facade.Wrap` | yamb/__init__.py:115-116 | the new instance holds the given fragment itself and has no instance attributes |
| `Facades.Facade.GetAttr` | yamb/__init__.py:139-142 | `_data` and plain names read as ordinary attributes (the instance's value before the class's); a literal field reads as `LiteralLoad(default, fragment.get(name))`; a nested field reads as a new facade wrapping the stored sub-fragment; a collection field reads as a new view over the stored raw value; any other name fails with `AttributeError` |
| `Facades.Facade.SetAttr` | yamb/__init__.py:144-150 | a field write stores the descriptor's dump under that key and leaves every other key alone; `_data` replaces the fragment; a plain name sets an instance attribute; any other name fails and changes nothing |
| `Facades.Facade.PlusAssign` | yamb/__init__.py:75-97 | `owner.field += items` appends the items' fragments to the owner's list in place, then stores a fresh list that holds the same fragments, with `None` and empty elements replaced by fresh empty mappings, a separate one for each; other keys are unchanged |
| `Facades.ListProxy.Get` | yamb/__init__.py:79-80 | `proxy[i]` is a new facade over element `i`: the same fragment when it is truthy, a fresh empty one otherwise |
| `Facades.ListProxy.Set` | yamb/__init__.py:82-83 | `proxy[i] = x` replaces only element `i` of the backing list, with `x`'s fragment |
| `Facades.ListProxy.Delete` | yamb/__init__.py:85-86 | `del proxy[i]` removes element `i` of the backing list and shifts later elements down |
| `Facades.ListProxy.Insert` | yamb/__init__.py:91-92 | `proxy.insert(pos, x)` puts `x`'s fragment at `pos` in the backing list and shifts later elements up |
| `Facades.ListProxy.Append` | yamb/__init__.py:91-92 | the inherited `append(x)` adds `x`'s fragment at the end of the backing list |
| `Facades.ListProxy.Extend` | yamb/__init__.py:91-92 | the inherited `extend(items)` adds the items' fragments, in order, at the end of the backing list |
| `Facades.DumpValue` | yamb/__init__.py:49-97 | literal dump is the identity; nested dump is the facade's own fragment; collection dump is a fresh list of the elements' fragments, or for a view, a re-wrap of each element, where each `None` or empty element becomes a fresh empty mapping of its own; any object in the dump that existed before the call is one the value already held |
| `Facades.Load` | yamb/__init__.py:126-130 | `_load(doc, top=False)` is `cls(_data=doc)`: a new facade holding `doc`'s fragment when it is truthy, and a fresh empty one otherwise |
| `Facades.Construct` | yamb/__init__.py:114-123 | a truthy `_data` is wrapped as it is and the keywords are ignored; otherwise any keyword that is not a field makes construction fail before anything is dumped, whatever the other values are, naming the class and the unknown names in the order of the keyword sequence; otherwise the fresh fragment's keys are exactly the given names, each holding its field's dump |
| `Facades.DumpKeywords` | yamb/__init__.py:123 | the dict comprehension: keys are exactly the keyword names, each mapped to its field's dump of the value |
| `Scenarios.NestedFieldWrite` | test.py:74-79 | `parent.field.sub = v` updates the parent's own sub-fragment when it is truthy; when it is `None` or empty, neither the parent's document nor that empty sub-mapping changes |
| `Scenarios.CollectionItemWrite` | test.py:146-161 | `owner.field[i].sub = v` updates element `i`'s fragment inside the owner's list when it is truthy; otherwise neither the owner's fragment nor element `i`'s empty mapping changes |
| `Scenarios.AppendThroughField` | test.py:119-126 | `owner.field.append(x)` grows the list the owner's fragment already holds by `x`'s fragment; the owner's keys are unchanged |
| `Scenarios.InsertThroughField` | yamb/__init__.py:91-92 | `owner.field.insert(pos, x)` is an insert into the owner's own list |
| `Scenarios.SetItemThroughField` | test.py:138-143 | `owner.field[i] = x` changes only index `i` of the owner's own list |
| `Scenarios.DeleteThroughField` | test.py:129-135 | `del owner.field[i]` removes index `i` from the owner's own list |
| `Scenarios.ViewsShareList` | yamb/__init__.py:75-94 | two reads of one collection field give two distinct views over the same list, and an append through one shows in the other's length |
| `Scenarios.LiteralWriteThenRead` | test.py:43-49 | writing a literal field and reading it back gives the written value, or the default for `None`; the document becomes the old one with `attr := v` and the instance attributes are unchanged |
| `Scenarios.NestedWriteThenRead` | test.py:67-71 | writing a nested field and reading it back gives a new facade over the written facade's own fragment when that is not empty |
| `Scenarios.ReloadDump` | yamb/__init__.py:126-137 | `_load(x._dump(top=False), top=False)` wraps `x`'s own fragment again when it is not empty, and a fresh empty one when it is |

## Left out

- The `top=True` branches of `_load` and `_dump` (yamb/__init__.py:127-129, 133-135) parse and serialise YAML text through an external library. Only the `top=False` paths are modelled.
- The `YambProperty` abstract base class and its `ABCMeta` enforcement (yamb/__init__.py:15-28), the metaclass mechanics, base classes, attribute lookup order beyond what is stated above, and the `YAMBObject` convenience base (yamb/__init__.py:155-159). An explicit `Schema` value stands in for the generated class. Descriptors inherited from yamb base classes are out, since `things` only sees the class's own body.
- Values of plain class-body names are modelled as raw values. Methods and other Python objects defined in a class body are not modelled.
- Negative indices, slices and out-of-range clamping of Python lists. The list operations require `0 <= i < len` (and `0 <= pos <= len` for insert).
- The inherited `MutableSequence` methods other than `append`, `extend` and `+=` (`pop`, `remove`, `reverse`, `index`, `count`, `in`) are not modelled. Iteration is modelled only where a collection dump iterates a view.
- Malformed documents are preconditions, not modelled failures: a non-list under a collection field, a value other than a mapping or `None` as a nested fragment or list element, and a `_data` that is not a mapping or `None`. This leaves out falsy scalars such as `0` or `''` as `_data`, which Python would replace by a fresh `{}`.
- A schema whose body declares a `_data` descriptor is excluded by `WellFormed`, because Python would recurse without end when storing the fragment.
- Scalars are cut down to `None`, integers and strings. YAML booleans and floats are not modelled; the core passes scalars through unread except for the truthiness test.
- Keyword order: the model takes the keyword arguments as a sequence, standing for the order in which Python's keyword dict iterates. The source runs under Python 2 (its `__metaclass__` attributes and the list-returning `filter` behind `if unknowns:`), where `kw.keys()` follows hash order, so the unknown names it reports are not in call order. Keywords named `_data` are excluded, since Python binds that name to the `_data` parameter.
- Exception text. The construction failure carries the class name and the unknown names (Python formats them into the message of an `AttributeError`). `__getattr__` and `__setattr__` raise a bare `AttributeError`; the model's `UnknownAttribute` also carries the name.
- Facades.Facade.SetAttr: a value of the wrong kind for a field is excluded by `Dumpable`, not modelled. For a literal field (a facade, say) Python would store the non-raw value in the fragment, which the model does not capture. For a nested or collection field Python raises before storing anything (`None._dump` at yamb/__init__.py:64 raises `AttributeError`; for a collection field, a non-iterable raises `TypeError` at yamb/__init__.py:97, and an iterable of non-facades raises `AttributeError` at yamb/__init__.py:64), and those failures are not modelled.
- Facades.Construct: the same `Dumpable` exclusion applies to the keyword values once every name is known, so the model does not capture the `AttributeError` or `TypeError` that dumping a wrong-kind value raises, or a literal field storing a non-raw value. Unknown names are still reported whatever the values are.
- Facades.DumpKeywords: requires every value to be `Dumpable` for its field, for the same reason.
- Facades.DumpValue: requires `Dumpable`, for the reasons given for `Facades.Facade.SetAttr`.
- Facades.Facade.SetAttr: a direct `_data` write (`x._data = ...`) is modelled only for a mapping. Python also stores `None` or any other value there (yamb/__init__.py:147-148), which leaves the facade without a usable fragment.
- Facades.DumpKeywords and Facades.Construct do not promise that the dumps of two different keywords share no newly built object. Each `_dump` call builds its own lists and mappings (yamb/__init__.py:97, 123), and `Facades.DumpValue` states that a dump reuses only objects its value already held. The cross-keyword form of that fact was left out because its loop proof exceeds the verifier's resource budget.
- setup.py (packaging) and the test harness itself; the tests' examples appear only as the assertion-only methods in `Scenarios`.
