/**
 * The part of the DOM the classifier and the sanitizer look at: a node is either an
 * element (a tag name and its attributes in document order) or some other kind of node
 * (text, comment, ...). Attribute access follows DOMElement: `getAttribute` yields `""` for
 * a missing attribute, `setAttribute` replaces a value in place or appends a new attribute
 * at the end, `removeAttribute` drops it.
 */
module Dom {

  datatype Attr = Attr(name: string, value: string)

  /** The attributes of one element, in the order they are serialised. */
  type Attributes = seq<Attr>

  datatype Node =
    | Element(tagName: string, attributes: Attributes)
    | NonElement

  /** A DOM element never carries two attributes with the same name. */
  predicate DistinctNames(attrs: Attributes)
  {
    attrs == [] || (!HasAttribute(attrs[1..], attrs[0].name) && DistinctNames(attrs[1..]))
  }

  /** `DOMElement::hasAttribute`. */
  predicate HasAttribute(attrs: Attributes, name: string)
  {
    attrs != [] && (attrs[0].name == name || HasAttribute(attrs[1..], name))
  }

  /** `DOMElement::getAttribute`: the value of the first attribute so named, or `""` when there is none. */
  function GetAttribute(attrs: Attributes, name: string): (r: string)
    ensures !HasAttribute(attrs, name) ==> r == ""
    ensures HasAttribute(attrs, name) ==> Attr(name, r) in attrs
  {
    if attrs == [] then ""
    else if attrs[0].name == name then attrs[0].value
    else GetAttribute(attrs[1..], name)
  }

  /** `DOMElement::setAttribute`: replaces the value in place, or appends a new attribute at the end. */
  function SetAttribute(attrs: Attributes, name: string, value: string): (r: Attributes)
    ensures HasAttribute(r, name) && GetAttribute(r, name) == value
    ensures forall n {:trigger HasAttribute(r, n)} :: n != name ==> (HasAttribute(r, n) <==> HasAttribute(attrs, n))
    ensures forall n {:trigger GetAttribute(r, n)} :: n != name ==> GetAttribute(r, n) == GetAttribute(attrs, n)
    ensures !HasAttribute(attrs, name) ==> r == attrs + [Attr(name, value)]
    ensures DistinctNames(attrs) ==> DistinctNames(r)
  {
    if attrs == [] then [Attr(name, value)]
    else if attrs[0].name == name then [Attr(name, value)] + attrs[1..]
    else
      var rest := SetAttribute(attrs[1..], name, value);
      assert ([attrs[0]] + rest)[1..] == rest;
      [attrs[0]] + rest
  }

  /** `DOMElement::removeAttribute`: drops every attribute so named and keeps the order of the rest. */
  function RemoveAttribute(attrs: Attributes, name: string): (r: Attributes)
    ensures !HasAttribute(r, name)
    ensures forall n {:trigger HasAttribute(r, n)} :: n != name ==> (HasAttribute(r, n) <==> HasAttribute(attrs, n))
    ensures forall n {:trigger GetAttribute(r, n)} :: n != name ==> GetAttribute(r, n) == GetAttribute(attrs, n)
    ensures !HasAttribute(attrs, name) ==> r == attrs
    ensures DistinctNames(attrs) ==> DistinctNames(r)
  {
    if attrs == [] then []
    else
      var rest := RemoveAttribute(attrs[1..], name);
      if attrs[0].name == name then rest
      else
        assert ([attrs[0]] + rest)[1..] == rest;
        [attrs[0]] + rest
  }

  // ---------------------------------------------------------------------------------------
  // One step of each operation on a list written as its first attribute and the rest

  lemma HasAttributeCons(a: Attr, rest: Attributes, name: string)
    ensures HasAttribute([a] + rest, name) == (a.name == name || HasAttribute(rest, name))
  {
    assert ([a] + rest)[1..] == rest;
  }

  lemma SetAttributeCons(a: Attr, rest: Attributes, name: string, value: string)
    ensures SetAttribute([a] + rest, name, value) ==
      if a.name == name then [Attr(name, value)] + rest else [a] + SetAttribute(rest, name, value)
  {
    assert ([a] + rest)[1..] == rest;
  }

  lemma RemoveAttributeCons(a: Attr, rest: Attributes, name: string)
    ensures RemoveAttribute([a] + rest, name) ==
      if a.name == name then RemoveAttribute(rest, name) else [a] + RemoveAttribute(rest, name)
  {
    assert ([a] + rest)[1..] == rest;
  }

  // ---------------------------------------------------------------------------------------
  // Operations on a list that ends in a given attribute

  /** Removing a name leaves a last attribute of another name in place, at the end. */
  lemma {:induction false} RemoveAttributeAppend(attrs: Attributes, last: Attr, name: string)
    requires last.name != name
    ensures RemoveAttribute(attrs + [last], name) == RemoveAttribute(attrs, name) + [last]
  {
    if attrs == [] {
      assert attrs + [last] == [last] + [];
      HasAttributeCons(last, [], name);
    } else {
      assert attrs + [last] == [attrs[0]] + (attrs[1..] + [last]);
      assert attrs == [attrs[0]] + attrs[1..];
      RemoveAttributeCons(attrs[0], attrs[1..] + [last], name);
      RemoveAttributeCons(attrs[0], attrs[1..], name);
      RemoveAttributeAppend(attrs[1..], last, name);
    }
  }

  /** Setting a name the list already has, before a last attribute of another name, leaves that one at the end. */
  lemma {:induction false} SetAttributeAppend(attrs: Attributes, last: Attr, name: string, value: string)
    requires HasAttribute(attrs, name) && last.name != name
    ensures SetAttribute(attrs + [last], name, value) == SetAttribute(attrs, name, value) + [last]
  {
    assert attrs + [last] == [attrs[0]] + (attrs[1..] + [last]);
    assert attrs == [attrs[0]] + attrs[1..];
    SetAttributeCons(attrs[0], attrs[1..] + [last], name, value);
    SetAttributeCons(attrs[0], attrs[1..], name, value);
    if attrs[0].name != name {
      SetAttributeAppend(attrs[1..], last, name, value);
    }
  }

  /** Setting the name of the last attribute, when no earlier one has it, only replaces that value. */
  lemma {:induction false} SetAttributeOfLast(attrs: Attributes, name: string, previous: string, value: string)
    requires !HasAttribute(attrs, name)
    ensures SetAttribute(attrs + [Attr(name, previous)], name, value) == attrs + [Attr(name, value)]
  {
    if attrs == [] {
      assert attrs + [Attr(name, previous)] == [Attr(name, previous)] + [];
      SetAttributeCons(Attr(name, previous), [], name, value);
    } else {
      assert attrs + [Attr(name, previous)] == [attrs[0]] + (attrs[1..] + [Attr(name, previous)]);
      SetAttributeCons(attrs[0], attrs[1..] + [Attr(name, previous)], name, value);
      SetAttributeOfLast(attrs[1..], name, previous, value);
      assert attrs == [attrs[0]] + attrs[1..];
    }
  }
}
