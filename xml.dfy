/**
 * The part of ElementTree the core uses, over an abstract element tree: the
 * attribute lookup `get`, the document-order walk `iter('field')`, the path
 * queries `find`/`findall` with `field[@name='...']`, and the
 * `field_val[val.get('name')] = val.get('show')` fold both analyzers run
 * over an element's fields.
 */
module Xml {
  import opened Wrappers
  import opened PyValues

  /** An XML element: tag, attributes, text and children in document order. */
  datatype Element = Element(tag: string, attrs: map<string, string>, text: Option<string>, children: seq<Element>)
  {
    /** `e.get(key)`: an attribute, or None. */
    function Get(key: string): (r: Option<string>)
      ensures r.Some? <==> key in attrs
      ensures r.Some? ==> r.value == attrs[key]
    {
      if key in attrs then Some(attrs[key]) else None
    }
  }

  /**
   * `e.iter(tag)`: the element itself and all its descendants whose tag is
   * `tag`, in document (pre-)order.
   */
  function Iter(e: Element, tag: string): seq<Element>
    decreases e, 1
  {
    (if e.tag == tag then [e] else []) + IterSeq(e.children, tag)
  }

  /** The `Iter` walks of a sequence of siblings, concatenated. */
  function IterSeq(cs: seq<Element>, tag: string): seq<Element>
    decreases cs, 0
  {
    if cs == [] then [] else Iter(cs[0], tag) + IterSeq(cs[1..], tag)
  }

  /** `ET.XML(text)` / `ET.fromstring(text)`: the parsed element, or None when the text is not well-formed. */
  type XmlParser = string -> Option<Element>

  /** The elements of `es` whose `name` attribute is `name`, in order. */
  function WithName(es: seq<Element>, name: string): (r: seq<Element>)
  {
    if es == [] then []
    else
      var rest := WithName(es[1..], name);
      if es[0].Get("name") == Some(name) then [es[0]] + rest else rest
  }

  /** `WithName` keeps exactly the elements carrying the name. */
  lemma {:induction false} WithNameMembers(es: seq<Element>, name: string, x: Element)
    ensures x in WithName(es, name) <==> x in es && x.Get("name") == Some(name)
  {
    if es != [] {
      WithNameMembers(es[1..], name, x);
      assert es == [es[0]] + es[1..];
    }
  }

  /** The direct children of `e` tagged `tag`. */
  function ChildrenTagged(cs: seq<Element>, tag: string): (r: seq<Element>)
  {
    if cs == [] then []
    else
      var rest := ChildrenTagged(cs[1..], tag);
      if cs[0].tag == tag then [cs[0]] + rest else rest
  }

  /** `ChildrenTagged` keeps exactly the children carrying the tag. */
  lemma {:induction false} ChildrenTaggedMembers(cs: seq<Element>, tag: string, x: Element)
    ensures x in ChildrenTagged(cs, tag) <==> x in cs && x.tag == tag
  {
    if cs != [] {
      ChildrenTaggedMembers(cs[1..], tag, x);
      assert cs == [cs[0]] + cs[1..];
    }
  }

  function First(es: seq<Element>): (r: Option<Element>)
    ensures r.Some? <==> es != []
    ensures r.Some? ==> r.value == es[0]
  {
    if es == [] then None else Some(es[0])
  }

  /** `e.findall(".//field[@name='n']")`: every descendant field named `n`, in document order. */
  function FindAllDescendants(e: Element, name: string): seq<Element> {
    WithName(IterSeq(e.children, "field"), name)
  }

  /** `e.find(".//field[@name='n']")`: the first descendant field named `n`. */
  function FindDescendant(e: Element, name: string): Option<Element> {
    First(FindAllDescendants(e, name))
  }

  /** `e.find("field[@name='n']")`: the first direct child field named `n`. */
  function FindChild(e: Element, name: string): Option<Element> {
    First(WithName(ChildrenTagged(e.children, "field"), name))
  }

  // ---------------------------------------------------------------------
  // The field_val fold
  // ---------------------------------------------------------------------

  /**
   * A `field_val` dictionary: keyed by a field's `name` attribute (None for a
   * field without one), holding its `show` attribute or a default value.
   */
  type FieldVals = map<Option<string>, PyVal>

  /** `val.get('show')` as a Python value. */
  function ShowOf(e: Element): PyVal {
    match e.Get("show")
    case Some(s) => PyStr(s)
    case None => PyNone
  }

  /** `field_val` after `field_val[val.get('name')] = val.get('show')` for each of `es` in turn. */
  function Overlay(fv: FieldVals, es: seq<Element>): FieldVals {
    if es == [] then fv
    else Overlay(fv, es[..|es| - 1])[es[|es| - 1].Get("name") := ShowOf(es[|es| - 1])]
  }

  /** The position of the last of `es` whose name is `key`, if any. */
  function LastNamed(es: seq<Element>, key: Option<string>): (r: Option<nat>)
    ensures r.Some? ==> r.value < |es| && es[r.value].Get("name") == key
    ensures r.Some? ==> forall j :: r.value < j < |es| ==> es[j].Get("name") != key
    ensures r.None? ==> forall j :: 0 <= j < |es| ==> es[j].Get("name") != key
  {
    if es == [] then None
    else if es[|es| - 1].Get("name") == key then Some(|es| - 1)
    else LastNamed(es[..|es| - 1], key)
  }

  /**
   * Last write wins: after the fold, a key holds the `show` of the last field
   * with that name, and a key no field names keeps its default (or stays
   * absent).
   */
  lemma {:induction false} OverlayLookup(fv: FieldVals, es: seq<Element>, key: Option<string>)
    ensures key in Overlay(fv, es) <==> key in fv || LastNamed(es, key).Some?
    ensures LastNamed(es, key).Some? ==> Overlay(fv, es)[key] == ShowOf(es[LastNamed(es, key).value])
    ensures LastNamed(es, key).None? && key in fv ==> Overlay(fv, es)[key] == fv[key]
  {
    if es != [] {
      OverlayLookup(fv, es[..|es| - 1], key);
    }
  }

  /** The fold only ever adds keys. */
  lemma {:induction false} OverlayKeys(fv: FieldVals, es: seq<Element>)
    ensures fv.Keys <= Overlay(fv, es).Keys
  {
    if es != [] {
      OverlayKeys(fv, es[..|es| - 1]);
    }
  }

  lemma OverlayStep(fv: FieldVals, es: seq<Element>, i: nat)
    requires i < |es|
    ensures Overlay(fv, es[..i + 1]) == Overlay(fv, es[..i])[es[i].Get("name") := ShowOf(es[i])]
  {
    assert es[..i + 1][..i] == es[..i];
  }

  /**
   * `field_val[name]`. Every name the analyzers read has a default entry, so
   * the lookup never misses there; a missing name reads as None.
   */
  function Val(fv: FieldVals, name: string): PyVal {
    if Some(name) in fv then fv[Some(name)] else PyNone
  }

  /** What `field_val[name]` holds after the fold: the `show` of the last field so named, else the default. */
  function Shown(es: seq<Element>, name: string, defaults: FieldVals): PyVal {
    match LastNamed(es, Some(name))
    case Some(k) => ShowOf(es[k])
    case None => Val(defaults, name)
  }

  /** The fold over an element's descendant fields, read back one name at a time. */
  lemma FieldValue(defaults: FieldVals, field: Element, name: string)
    ensures Val(Overlay(defaults, Iter(field, "field")), name) == Shown(Iter(field, "field"), name, defaults)
  {
    OverlayLookup(defaults, Iter(field, "field"), Some(name));
  }

  /**
   * `for val in field.iter('field'): field_val[val.get('name')] = val.get('show')`
   * starting from the element's table of defaults.
   */
  method CollectFieldVals(field: Element, defaults: FieldVals) returns (fieldVal: FieldVals)
    ensures fieldVal == Overlay(defaults, Iter(field, "field"))
  {
    var vals := Iter(field, "field");
    fieldVal := defaults;
    var i := 0;
    while i < |vals|
      invariant 0 <= i <= |vals|
      invariant fieldVal == Overlay(defaults, vals[..i])
    {
      OverlayStep(defaults, vals, i);
      fieldVal := fieldVal[vals[i].Get("name") := ShowOf(vals[i])];
      i := i + 1;
    }
    assert vals[..i] == vals;
  }
}
