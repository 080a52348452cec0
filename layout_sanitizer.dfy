/**
 * `AMP_Layout_Sanitizer::sanitize`: every element carrying `data-amp-layout` has that
 * attribute turned into the AMP `layout` attribute, with two special cases for a full-size
 * element. A `width` and a `height` of `100%` give `layout="fill"` and lose both
 * dimensions. A `width` of `100%` alone gives `layout="fixed-height"` with `width="auto"`.
 * Elements without `data-amp-layout` are left as they are. The document is changed in place;
 * here it is the array of the attribute lists of its elements.
 */
module LayoutSanitizer {
  import opened Dom

  const DATA_AMP_LAYOUT := "data-amp-layout"
  const LAYOUT := "layout"
  const WIDTH := "width"
  const HEIGHT := "height"

  const FULL := "100%"
  const FILL := "fill"
  const FIXED_HEIGHT := "fixed-height"
  const AUTO := "auto"

  /** The attributes the sanitizer may touch; every other attribute is left alone. */
  predicate IsLayoutAttribute(name: string)
  {
    name == DATA_AMP_LAYOUT || name == LAYOUT || name == WIDTH || name == HEIGHT
  }

  predicate IsFull(attrs: Attributes, name: string)
  {
    GetAttribute(attrs, name) == FULL
  }

  /** The layout an element with `data-amp-layout` ends up with. */
  function TargetLayout(attrs: Attributes): string
  {
    if IsFull(attrs, WIDTH) && IsFull(attrs, HEIGHT) then FILL
    else if IsFull(attrs, WIDTH) then FIXED_HEIGHT
    else GetAttribute(attrs, DATA_AMP_LAYOUT)
  }

  /** The rewrite of one element's attributes. */
  function RewriteLayout(attrs: Attributes): (r: Attributes)
    ensures !HasAttribute(attrs, DATA_AMP_LAYOUT) ==> r == attrs
    ensures HasAttribute(attrs, DATA_AMP_LAYOUT) ==>
      && !HasAttribute(r, DATA_AMP_LAYOUT)
      && HasAttribute(r, LAYOUT) && GetAttribute(r, LAYOUT) == TargetLayout(attrs)
  {
    if !HasAttribute(attrs, DATA_AMP_LAYOUT) then attrs
    else
      var moved := RemoveAttribute(SetAttribute(attrs, LAYOUT, GetAttribute(attrs, DATA_AMP_LAYOUT)), DATA_AMP_LAYOUT);
      if IsFull(attrs, WIDTH) && IsFull(attrs, HEIGHT) then
        RemoveAttribute(RemoveAttribute(SetAttribute(moved, LAYOUT, FILL), WIDTH), HEIGHT)
      else if IsFull(attrs, WIDTH) then
        SetAttribute(SetAttribute(moved, LAYOUT, FIXED_HEIGHT), WIDTH, AUTO)
      else moved
  }

  /** The whole document after the pass: each element rewritten on its own. */
  function Sanitized(elements: seq<Attributes>): (r: seq<Attributes>)
    ensures |r| == |elements|
  {
    if elements == [] then [] else [RewriteLayout(elements[0])] + Sanitized(elements[1..])
  }

  /** Element `i` of the sanitized document is element `i` of the original, rewritten. */
  lemma {:induction false} SanitizedElement(elements: seq<Attributes>, i: nat)
    requires i < |elements|
    ensures Sanitized(elements)[i] == RewriteLayout(elements[i])
  {
    if i > 0 {
      SanitizedElement(elements[1..], i - 1);
    }
  }

  /** `sanitize()`: rewrites the elements of the document in place and returns nothing. */
  method Sanitize(elements: array<Attributes>)
    modifies elements
    ensures elements[..] == Sanitized(old(elements[..]))
  {
    ghost var source := elements[..];
    ghost var target := Sanitized(source);
    var i := 0;
    while i < elements.Length
      invariant 0 <= i <= elements.Length
      invariant forall j :: 0 <= j < i ==> elements[j] == target[j]
      invariant forall j :: i <= j < elements.Length ==> elements[j] == source[j]
    {
      SanitizedElement(source, i);
      elements[i] := RewriteLayout(elements[i]);
      i := i + 1;
    }
    assert elements[..] == target;
  }

  // ---------------------------------------------------------------------------------------
  // Properties

  /** No rewritten element carries `data-amp-layout`, so a second pass changes nothing. */
  lemma RewriteIsIdempotent(attrs: Attributes)
    ensures !HasAttribute(RewriteLayout(attrs), DATA_AMP_LAYOUT)
    ensures RewriteLayout(RewriteLayout(attrs)) == RewriteLayout(attrs)
  {
  }

  /** The width and height an element ends up with, in each row of the decision table. */
  lemma RewriteDimensions(attrs: Attributes)
    ensures HasAttribute(attrs, DATA_AMP_LAYOUT) && IsFull(attrs, WIDTH) && IsFull(attrs, HEIGHT) ==>
      !HasAttribute(RewriteLayout(attrs), WIDTH) && !HasAttribute(RewriteLayout(attrs), HEIGHT)
    ensures HasAttribute(attrs, DATA_AMP_LAYOUT) && IsFull(attrs, WIDTH) && !IsFull(attrs, HEIGHT) ==>
      && HasAttribute(RewriteLayout(attrs), WIDTH) && GetAttribute(RewriteLayout(attrs), WIDTH) == AUTO
      && (HasAttribute(RewriteLayout(attrs), HEIGHT) <==> HasAttribute(attrs, HEIGHT))
      && GetAttribute(RewriteLayout(attrs), HEIGHT) == GetAttribute(attrs, HEIGHT)
    ensures !IsFull(attrs, WIDTH) ==>
      && (HasAttribute(RewriteLayout(attrs), WIDTH) <==> HasAttribute(attrs, WIDTH))
      && GetAttribute(RewriteLayout(attrs), WIDTH) == GetAttribute(attrs, WIDTH)
      && (HasAttribute(RewriteLayout(attrs), HEIGHT) <==> HasAttribute(attrs, HEIGHT))
      && GetAttribute(RewriteLayout(attrs), HEIGHT) == GetAttribute(attrs, HEIGHT)
  {
  }

  /** Attributes other than the four layout attributes keep their presence and value. */
  lemma RewriteKeepsOtherAttributes(attrs: Attributes)
    ensures forall n {:trigger HasAttribute(RewriteLayout(attrs), n)} :: !IsLayoutAttribute(n) ==>
      (HasAttribute(RewriteLayout(attrs), n) <==> HasAttribute(attrs, n))
    ensures forall n {:trigger GetAttribute(RewriteLayout(attrs), n)} :: !IsLayoutAttribute(n) ==>
      GetAttribute(RewriteLayout(attrs), n) == GetAttribute(attrs, n)
  {
  }

  /** The rewrite never duplicates an attribute. */
  lemma RewriteKeepsDistinctNames(attrs: Attributes)
    ensures DistinctNames(attrs) ==> DistinctNames(RewriteLayout(attrs))
  {
  }

  /** The attributes other than `layout` after the rewrite, in their original order. */
  function KeptInOrder(attrs: Attributes): Attributes
  {
    var rest := RemoveAttribute(attrs, DATA_AMP_LAYOUT);
    if IsFull(attrs, WIDTH) && IsFull(attrs, HEIGHT) then RemoveAttribute(RemoveAttribute(rest, WIDTH), HEIGHT)
    else if IsFull(attrs, WIDTH) then SetAttribute(rest, WIDTH, AUTO)
    else rest
  }

  /**
   * On an element without `layout`, the new `layout` attribute comes last and the attributes
   * that stay keep their order (`width="auto"` takes the place of `width="100%"`).
   */
  lemma RewriteOrder(attrs: Attributes)
    requires HasAttribute(attrs, DATA_AMP_LAYOUT) && !HasAttribute(attrs, LAYOUT)
    ensures RewriteLayout(attrs) == KeptInOrder(attrs) + [Attr(LAYOUT, TargetLayout(attrs))]
  {
    assert |LAYOUT| != |DATA_AMP_LAYOUT| && |WIDTH| != |LAYOUT| && HEIGHT[0] != LAYOUT[0];
    var value := GetAttribute(attrs, DATA_AMP_LAYOUT);
    var rest := RemoveAttribute(attrs, DATA_AMP_LAYOUT);
    RemoveAttributeAppend(attrs, Attr(LAYOUT, value), DATA_AMP_LAYOUT);
    assert !HasAttribute(rest, LAYOUT);
    if IsFull(attrs, WIDTH) && IsFull(attrs, HEIGHT) {
      SetAttributeOfLast(rest, LAYOUT, value, FILL);
      RemoveAttributeAppend(rest, Attr(LAYOUT, FILL), WIDTH);
      RemoveAttributeAppend(RemoveAttribute(rest, WIDTH), Attr(LAYOUT, FILL), HEIGHT);
    } else if IsFull(attrs, WIDTH) {
      SetAttributeOfLast(rest, LAYOUT, value, FIXED_HEIGHT);
      assert HasAttribute(rest, WIDTH);
      SetAttributeAppend(rest, Attr(LAYOUT, FIXED_HEIGHT), WIDTH, AUTO);
    }
  }

  /** After the pass no element of the document carries `data-amp-layout`. */
  lemma SanitizedHasNoDataLayout(elements: seq<Attributes>)
    ensures forall i :: 0 <= i < |elements| ==> !HasAttribute(Sanitized(elements)[i], DATA_AMP_LAYOUT)
  {
    forall i | 0 <= i < |elements|
      ensures !HasAttribute(Sanitized(elements)[i], DATA_AMP_LAYOUT)
    {
      SanitizedElement(elements, i);
      RewriteIsIdempotent(elements[i]);
    }
  }

  lemma {:induction false} SanitizeIsIdempotent(elements: seq<Attributes>)
    ensures Sanitized(Sanitized(elements)) == Sanitized(elements)
  {
    var once := Sanitized(elements);
    forall i | 0 <= i < |once|
      ensures Sanitized(once)[i] == once[i]
    {
      SanitizedElement(elements, i);
      SanitizedElement(once, i);
      RewriteIsIdempotent(elements[i]);
    }
  }

  /** Each element's rewrite depends on its own attributes only: the pass splits over any cut of the document. */
  lemma SanitizeIsLocal(a: seq<Attributes>, b: seq<Attributes>)
    ensures Sanitized(a + b) == Sanitized(a) + Sanitized(b)
  {
    var whole := Sanitized(a + b);
    forall i | 0 <= i < |whole|
      ensures whole[i] == (Sanitized(a) + Sanitized(b))[i]
    {
      SanitizedElement(a + b, i);
      if i < |a| {
        SanitizedElement(a, i);
      } else {
        assert (a + b)[i] == b[i - |a|];
        SanitizedElement(b, i - |a|);
      }
    }
  }

  // ---------------------------------------------------------------------------------------
  // The rows of the sanitizer's test table, attribute order included

  /** `<p data-amp-layout="fill">` becomes `<p layout="fill">`. */
  lemma NoWidthOrHeight()
    ensures RewriteLayout([Attr(DATA_AMP_LAYOUT, FILL)]) == [Attr(LAYOUT, FILL)]
  {
  }

  /** `<p width="10">` is left alone. */
  lemma NoDataLayoutAttribute()
    ensures RewriteLayout([Attr(WIDTH, "10")]) == [Attr(WIDTH, "10")]
  {
  }

  /** `<p width="10" data-amp-layout="fill">` becomes `<p width="10" layout="fill">`. */
  lemma DataLayoutAttribute()
    ensures RewriteLayout([Attr(WIDTH, "10"), Attr(DATA_AMP_LAYOUT, FILL)]) == [Attr(WIDTH, "10"), Attr(LAYOUT, FILL)]
  {
    var attrs := FIXTURE_WIDTH_10;
    DataLayoutAttributeParts();
    RewriteOrder(attrs);
  }

  const FIXTURE_WIDTH_10: Attributes := [Attr(WIDTH, "10"), Attr(DATA_AMP_LAYOUT, FILL)]

  lemma DataLayoutAttributeParts()
    ensures HasAttribute(FIXTURE_WIDTH_10, DATA_AMP_LAYOUT) && !HasAttribute(FIXTURE_WIDTH_10, LAYOUT)
    ensures KeptInOrder(FIXTURE_WIDTH_10) == [Attr(WIDTH, "10")] && TargetLayout(FIXTURE_WIDTH_10) == FILL
  {
    var attrs := FIXTURE_WIDTH_10;
    var w, d := attrs[0], attrs[1];
    assert attrs == [w] + [d];
    HasAttributeCons(w, [d], DATA_AMP_LAYOUT);
    HasAttributeCons(w, [d], LAYOUT);
    RemoveAttributeCons(w, [d], DATA_AMP_LAYOUT);
  }

  /** `<p width="100%" data-amp-layout="fill">` becomes `<p width="auto" layout="fixed-height">`. */
  lemma DataLayoutWithFullWidth()
    ensures RewriteLayout([Attr(WIDTH, FULL), Attr(DATA_AMP_LAYOUT, FILL)]) == [Attr(WIDTH, AUTO), Attr(LAYOUT, FIXED_HEIGHT)]
  {
    var attrs := FIXTURE_FULL_WIDTH;
    DataLayoutWithFullWidthParts();
    RewriteOrder(attrs);
  }

  const FIXTURE_FULL_WIDTH: Attributes := [Attr(WIDTH, FULL), Attr(DATA_AMP_LAYOUT, FILL)]

  lemma DataLayoutWithFullWidthParts()
    ensures HasAttribute(FIXTURE_FULL_WIDTH, DATA_AMP_LAYOUT) && !HasAttribute(FIXTURE_FULL_WIDTH, LAYOUT)
    ensures KeptInOrder(FIXTURE_FULL_WIDTH) == [Attr(WIDTH, AUTO)] && TargetLayout(FIXTURE_FULL_WIDTH) == FIXED_HEIGHT
  {
    var attrs := FIXTURE_FULL_WIDTH;
    var w, d := attrs[0], attrs[1];
    assert attrs == [w] + [d];
    HasAttributeCons(w, [d], DATA_AMP_LAYOUT);
    HasAttributeCons(w, [d], LAYOUT);
    RemoveAttributeCons(w, [d], DATA_AMP_LAYOUT);
    SetAttributeCons(w, [], WIDTH, AUTO);
  }

  /** `<p width="100%" height="100%" data-amp-layout="fill">` becomes `<p layout="fill">`. */
  lemma DataLayoutWithFullWidthAndHeight()
    ensures RewriteLayout([Attr(WIDTH, FULL), Attr(HEIGHT, FULL), Attr(DATA_AMP_LAYOUT, FILL)]) == [Attr(LAYOUT, FILL)]
  {
    var attrs := FIXTURE_FULL_SIZE;
    DataLayoutWithFullWidthAndHeightParts();
    RewriteOrder(attrs);
  }

  const FIXTURE_FULL_SIZE: Attributes := [Attr(WIDTH, FULL), Attr(HEIGHT, FULL), Attr(DATA_AMP_LAYOUT, FILL)]

  lemma DataLayoutWithFullWidthAndHeightParts()
    ensures HasAttribute(FIXTURE_FULL_SIZE, DATA_AMP_LAYOUT) && !HasAttribute(FIXTURE_FULL_SIZE, LAYOUT)
    ensures KeptInOrder(FIXTURE_FULL_SIZE) == [] && TargetLayout(FIXTURE_FULL_SIZE) == FILL
  {
    var attrs := FIXTURE_FULL_SIZE;
    var w, h, d := attrs[0], attrs[1], attrs[2];
    assert attrs == [w] + ([h] + [d]);
    assert HEIGHT[0] != LAYOUT[0];
    HasAttributeCons(h, [d], DATA_AMP_LAYOUT);
    HasAttributeCons(w, [h] + [d], DATA_AMP_LAYOUT);
    HasAttributeCons(h, [d], LAYOUT);
    HasAttributeCons(w, [h] + [d], LAYOUT);
    RemoveAttributeCons(h, [d], DATA_AMP_LAYOUT);
    RemoveAttributeCons(w, [h] + [d], DATA_AMP_LAYOUT);
    RemoveAttributeCons(w, [h], WIDTH);
    RemoveAttributeCons(h, [], HEIGHT);
  }

  /** `<p width="100%" layout="fill">` and `<p width="100%" height="100%" layout="fill">` are left alone. */
  lemma LayoutAttributeWithFullSize()
    ensures RewriteLayout([Attr(WIDTH, FULL), Attr(LAYOUT, FILL)]) == [Attr(WIDTH, FULL), Attr(LAYOUT, FILL)]
    ensures RewriteLayout([Attr(WIDTH, FULL), Attr(HEIGHT, FULL), Attr(LAYOUT, FILL)])
      == [Attr(WIDTH, FULL), Attr(HEIGHT, FULL), Attr(LAYOUT, FILL)]
  {
  }
}
