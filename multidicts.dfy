/** Multi-dicts as the resolver sees them: lookup of all the values stored
    under a key, the replacement `getlist` accessor that src/util.py installs,
    and the in-place patch that installs it. */
module MultiDicts {
  import opened Values

  /** The values stored under `key`, in insertion order. */
  function ValuesOf(items: Items, key: string): (vs: seq<Value>)
    ensures |vs| <= |items|
    ensures forall v :: v in vs ==> (key, v) in items
  {
    if items == [] then []
    else (if items[0].0 == key then [items[0].1] else []) + ValuesOf(items[1..], key)
  }

  /** A key that occurs nowhere has no values, and a key that occurs has some. */
  lemma {:induction false} ValuesOfEmptyIffAbsent(items: Items, key: string)
    ensures ValuesOf(items, key) == [] <==> key !in KeysOf(items)
  {
    if items != [] {
      ValuesOfEmptyIffAbsent(items[1..], key);
      assert KeysOf(items) == {items[0].0} + KeysOf(items[1..]) by {
        forall k | k in KeysOf(items) ensures k in {items[0].0} + KeysOf(items[1..]) {
          var i :| 0 <= i < |items| && items[i].0 == k;
          if i > 0 { assert items[1..][i - 1].0 == k; }
        }
        forall k | k in KeysOf(items[1..]) ensures k in KeysOf(items) {
          var i :| 0 <= i < |items[1..]| && items[1..][i].0 == k;
          assert items[i + 1].0 == k;
        }
      }
    }
  }

  /** Every pair stored under `key` contributes its value. */
  lemma {:induction false} ValuesOfComplete(items: Items, key: string, v: Value)
    ensures v in ValuesOf(items, key) <==> (key, v) in items
  {
    if items != [] {
      ValuesOfComplete(items[1..], key, v);
      assert items == [items[0]] + items[1..];
    }
  }

  /** Lookup keeps insertion order: the values of a concatenation are the
      values of its first part followed by those of its second part. */
  lemma {:induction false} ValuesOfAppend(a: Items, b: Items, key: string)
    ensures ValuesOf(a + b, key) == ValuesOf(a, key) + ValuesOf(b, key)
  {
    if a != [] {
      ValuesOfAppend(a[1..], b, key);
      assert (a + b)[0] == a[0] && (a + b)[1..] == a[1..] + b;
    } else {
      assert a + b == b;
    }
  }

  /** The multi-dict `getall(key, default)`: the values under `key`, or
      `default` when the key is absent. */
  function GetAll(items: Items, key: string, default: seq<Value>): seq<Value>
  {
    if key in KeysOf(items) then ValuesOf(items, key) else default
  }

  /** The replacement accessor `getlist(self, key)`, which is
      `self.getall(key, [])`. It never fails: an absent key gives the empty
      list, a present key gives every value stored under it, in order. */
  function Getlist(items: Items, key: string): (vs: seq<Value>)
    ensures vs == [] <==> key !in KeysOf(items)
    ensures forall v :: v in vs <==> (key, v) in items
    ensures vs == ValuesOf(items, key)
  {
    ValuesOfEmptyIffAbsent(items, key);
    forall v ensures v in ValuesOf(items, key) <==> (key, v) in items {
      ValuesOfComplete(items, key, v);
    }
    GetAll(items, key, [])
  }

  /** Adding one more pair under `key` appends its value to what `getlist`
      answers for `key` and changes nothing for any other key. */
  lemma GetlistAfterAdd(items: Items, key: string, v: Value, other: string)
    requires other != key
    ensures Getlist(items + [(key, v)], key) == Getlist(items, key) + [v]
    ensures Getlist(items + [(key, v)], other) == Getlist(items, other)
  {
    ValuesOfAppend(items, [(key, v)], key);
    ValuesOfAppend(items, [(key, v)], other);
  }

  /** The two multi-dict classes of the web framework. */
  datatype Kind = FormMultiDictKind | MultiDictKind

  /** The state of an object's `getlist` attribute: absent, the library's
      own (deprecated) method, or the replacement `Getlist` bound to it. */
  datatype GetlistAttr = NoGetlist | LibraryGetlist | PatchedGetlist

  /** The `getlist` attribute that a newly built instance of each class
      carries in the installed framework version. */
  datatype Library = Library(formMultiDictGetlist: GetlistAttr, multiDictGetlist: GetlistAttr)

  /** A FormMultiDict or MultiDict instance. Its pairs never change here;
      its `getlist` attribute is overwritten in place by the patch. */
  class MultiDict {
    const kind: Kind
    const items: Items
    var getlist: GetlistAttr

    constructor (kind: Kind, items: Items, getlist: GetlistAttr)
      ensures this.kind == kind && this.items == items && this.getlist == getlist
    {
      this.kind := kind;
      this.items := items;
      this.getlist := getlist;
    }
  }

  /** Whatever the resolver hands back: a multi-dict object, or any other
      value (for instance a JSON document that is not a string). */
  datatype FormData = Multi(md: MultiDict) | Plain(value: Value)

  /** The objects whose state the patch may change. */
  function Footprint(formdata: FormData): set<object>
  {
    if formdata.Multi? then {formdata.md} else {}
  }

  /** The `getlist` attribute a multi-dict instance has after the patch:
      installed exactly when the attribute was there to begin with. */
  function PatchedAttr(attr: GetlistAttr): (a: GetlistAttr)
    ensures a == PatchedGetlist <==> attr != NoGetlist
    ensures a == NoGetlist <==> attr == NoGetlist
  {
    if attr == NoGetlist then NoGetlist else PatchedGetlist
  }

  /** patch_FormMultiDict: on a FormMultiDict or MultiDict instance that has
      a `getlist` attribute, overwrite it with the replacement; leave every
      other value alone; hand back the very same object. */
  method PatchFormMultiDict(formdata: FormData) returns (r: FormData)
    modifies Footprint(formdata)
    ensures r == formdata
    ensures formdata.Multi? ==> formdata.md.getlist == PatchedAttr(old(formdata.md.getlist))
  {
    if formdata.Multi? && formdata.md.kind == FormMultiDictKind && formdata.md.getlist != NoGetlist {
      formdata.md.getlist := PatchedGetlist;
    }
    if formdata.Multi? && formdata.md.kind == MultiDictKind && formdata.md.getlist != NoGetlist {
      formdata.md.getlist := PatchedGetlist;
    }
    r := formdata;
  }

  /** An element of a list that MultiDict(...) accepts as one key/value pair. */
  predicate IsPair(x: Value)
  {
    x.List? && |x.elems| == 2 && x.elems[0].Str?
  }

  /** The pairs of a list of two-element lists, or None when some element is
      not such a pair. */
  function PairsOf(xs: seq<Value>): (r: Option<Items>)
    ensures r.Some? <==> forall i :: 0 <= i < |xs| ==> IsPair(xs[i])
    ensures r.Some? ==> |r.value| == |xs|
    ensures r.Some? ==> forall i :: 0 <= i < |xs| ==> xs[i] == List([Str(r.value[i].0), r.value[i].1])
  {
    if xs == [] then Some([])
    else if !IsPair(xs[0]) then None
    else match PairsOf(xs[1..])
      case None => None
      case Some(rest) => Some([(xs[0].elems[0].s, xs[0].elems[1])] + rest)
  }

  /** The pairs of `MultiDict(v)`: a mapping gives its entries in order, a
      list of key/value pairs gives those pairs, and anything else is
      rejected with a TypeError. */
  function MultiDictItems(v: Value): (r: Result<Items, Error>)
    ensures v.Dict? ==> r == Ok(v.entries)
    ensures r.Err? ==> r.error == NotAMapping
    ensures r.Ok? && v.List? ==> PairsOf(v.elems) == Some(r.value)
    ensures r.Err? <==> !v.Dict? && !(v.List? && PairsOf(v.elems).Some?)
  {
    match v
    case Dict(entries) => Ok(entries)
    case List(elems) =>
      (match PairsOf(elems)
       case Some(pairs) => Ok(pairs)
       case None => Err(NotAMapping))
    case _ => Err(NotAMapping)
  }
}
