/**
 * The AMP node classifier: stateless predicates over one DOM node that say whether it is
 * the AMP runtime script, the viewer-integration script, an extension script (and which),
 * a render-delaying extension, or an AMP custom element.
 *
 * The attribute, tag and extension names come from the AMP toolbox's `Attribute`, `Tag`
 * and `Extension` classes; their values are fixed here.
 */
module Amp {
  import opened Wrappers
  import opened PhpStrings
  import opened Dom

  // Tag::SCRIPT and the Attribute:: names the classifier reads.
  const SCRIPT := "script"
  const SRC := "src"
  const ASYNC := "async"
  const CUSTOM_ELEMENT := "custom-element"
  const CUSTOM_TEMPLATE := "custom-template"
  const HOST_SERVICE := "host-service"

  // Extension::PREFIX and the Extension:: names of the render-delaying extensions.
  const EXTENSION_PREFIX := "amp-"
  const DYNAMIC_CSS_CLASSES := "amp-dynamic-css-classes"
  const EXPERIMENT := "amp-experiment"
  const STORY := "amp-story"

  /** Host and scheme of the AMP cache. */
  const CACHE_HOST := "https://cdn.ampproject.org"

  /** URL of the AMP cache. */
  const CACHE_ROOT_URL := CACHE_HOST + "/"

  /** Custom element names that delay rendering. */
  const RENDER_DELAYING_EXTENSIONS: seq<string> := [DYNAMIC_CSS_CLASSES, EXPERIMENT, STORY]

  /** The attributes that name an extension, most significant first. */
  const EXTENSION_NAME_ATTRIBUTES: seq<string> := [CUSTOM_ELEMENT, CUSTOM_TEMPLATE, HOST_SERVICE]

  predicate IsScriptElement(node: Node)
  {
    node.Element? && node.tagName == SCRIPT
  }

  /** An element carrying `src` and `async` whose tag is `script`. */
  function IsAsyncScript(node: Node): (r: bool)
    ensures r ==> IsScriptElement(node) && HasAttribute(node.attributes, SRC) && HasAttribute(node.attributes, ASYNC)
  {
    node.Element? && node.tagName == SCRIPT && HasAttribute(node.attributes, SRC) && HasAttribute(node.attributes, ASYNC)
  }

  /**
   * A script carrying `src` and `async` is an async script, and giving a script both makes
   * it one, whatever else it carries; taking either away, or any other tag, makes it none.
   */
  lemma AsyncScriptAttributes(node: Node, tag: string, attrs: Attributes, src: string)
    ensures IsScriptElement(node) && HasAttribute(node.attributes, SRC) && HasAttribute(node.attributes, ASYNC) ==>
      IsAsyncScript(node)
    ensures IsAsyncScript(Element(SCRIPT, SetAttribute(SetAttribute(attrs, SRC, src), ASYNC, "")))
    ensures !IsAsyncScript(Element(tag, RemoveAttribute(attrs, SRC)))
    ensures !IsAsyncScript(Element(tag, RemoveAttribute(attrs, ASYNC)))
    ensures tag != SCRIPT ==> !IsAsyncScript(Element(tag, attrs))
    ensures !IsAsyncScript(NonElement)
  {
    assert SRC != ASYNC;
  }

  /** The value of the first of `names` that `attrs` carries, or `""` when it carries none. */
  function FirstPresent(attrs: Attributes, names: seq<string>): string
  {
    if names == [] then ""
    else if HasAttribute(attrs, names[0]) then GetAttribute(attrs, names[0])
    else FirstPresent(attrs, names[1..])
  }

  /**
   * The extension name of a script element: the value of the most significant of
   * `custom-element`, `custom-template` and `host-service` that it carries.
   */
  function GetExtensionName(node: Node): (r: string)
    ensures r == if IsScriptElement(node) then FirstPresent(node.attributes, EXTENSION_NAME_ATTRIBUTES) else ""
    ensures r != "" ==> IsScriptElement(node) && exists k :: k in EXTENSION_NAME_ATTRIBUTES && Attr(k, r) in node.attributes
  {
    if !node.Element? || node.tagName != SCRIPT then ""
    else if HasAttribute(node.attributes, CUSTOM_ELEMENT) then GetAttribute(node.attributes, CUSTOM_ELEMENT)
    else if HasAttribute(node.attributes, CUSTOM_TEMPLATE) then GetAttribute(node.attributes, CUSTOM_TEMPLATE)
    else if HasAttribute(node.attributes, HOST_SERVICE) then
      FirstPresentIsFirst(node.attributes, EXTENSION_NAME_ATTRIBUTES, 2);
      GetAttribute(node.attributes, HOST_SERVICE)
    else
      FirstPresentNone(node.attributes, EXTENSION_NAME_ATTRIBUTES);
      ""
  }

  /** Whether the node is an extension script: its extension name is not `empty()`. */
  function IsExtension(node: Node): (r: bool)
    ensures r ==> IsScriptElement(node)
    ensures r ==> exists k :: k in EXTENSION_NAME_ATTRIBUTES && Attr(k, GetExtensionName(node)) in node.attributes
  {
    !IsEmpty(GetExtensionName(node))
  }

  /** The AMP runtime script: `<script async src="https://cdn.ampproject.org/...v0.js">`. */
  function IsRuntimeScript(node: Node): (r: bool)
    ensures r <==> && IsAsyncScript(node)
                   && !IsExtension(node)
                   && StartsWith(GetAttribute(node.attributes, SRC), CACHE_ROOT_URL)
                   && (EndsWith(GetAttribute(node.attributes, SRC), "/v0.js")
                       || EndsWith(GetAttribute(node.attributes, SRC), "/amp4ads-v0.js"))
  {
    if !IsAsyncScript(node) || IsExtension(node) then false
    else
      var src := GetAttribute(node.attributes, SRC);
      StrPosZeroIsPrefix(src, CACHE_ROOT_URL);
      SubstrLastIsSuffix(src, "/v0.js");
      SubstrLastIsSuffix(src, "/amp4ads-v0.js");
      if StrPos(src, CACHE_ROOT_URL) != Some(0) then false
      else if SubstrLast(src, 6) != "/v0.js" && SubstrLast(src, 14) != "/amp4ads-v0.js" then false
      else true
  }

  /** The AMP viewer script: `<script async src="https://cdn.ampproject.org/v0/amp-viewer-integration-...js">`. */
  function IsViewerScript(node: Node): (r: bool)
    ensures r <==> && IsAsyncScript(node)
                   && !IsExtension(node)
                   && StartsWith(GetAttribute(node.attributes, SRC), CACHE_HOST + "/v0/amp-viewer-integration-")
                   && EndsWith(GetAttribute(node.attributes, SRC), ".js")
  {
    if !IsAsyncScript(node) || IsExtension(node) then false
    else
      var src := GetAttribute(node.attributes, SRC);
      StrPosZeroIsPrefix(src, CACHE_HOST + "/v0/amp-viewer-integration-");
      SubstrLastIsSuffix(src, ".js");
      if StrPos(src, CACHE_HOST + "/v0/amp-viewer-integration-") != Some(0) then false
      else if SubstrLast(src, 3) != ".js" then false
      else true
  }

  /** Whether the node is the script of an extension that delays rendering. */
  function IsRenderDelayingExtension(node: Node): (r: bool)
    ensures r <==> GetExtensionName(node) in RENDER_DELAYING_EXTENSIONS
    ensures r ==> IsExtension(node)
  {
    var extensionName := GetExtensionName(node);
    if IsEmpty(extensionName) then false
    else extensionName in RENDER_DELAYING_EXTENSIONS
  }

  /** Whether the node is an AMP custom element: an element whose tag name starts with `amp-`. */
  function IsCustomElement(node: Node): (r: bool)
    ensures r <==> node.Element? && StartsWith(node.tagName, EXTENSION_PREFIX)
  {
    StrPosZeroIsPrefix(if node.Element? then node.tagName else "", EXTENSION_PREFIX);
    node.Element? && StrPos(node.tagName, EXTENSION_PREFIX) == Some(0)
  }

  /** `FirstPresent` picks the first present name of the list, whatever follows it. */
  lemma {:induction false} FirstPresentIsFirst(attrs: Attributes, names: seq<string>, i: nat)
    requires i < |names| && HasAttribute(attrs, names[i])
    requires forall j :: 0 <= j < i ==> !HasAttribute(attrs, names[j])
    ensures FirstPresent(attrs, names) == GetAttribute(attrs, names[i])
  {
    if i > 0 {
      assert !HasAttribute(attrs, names[0]);
      FirstPresentIsFirst(attrs, names[1..], i - 1);
    }
  }

  /** `FirstPresent` is `""` when none of the names is present. */
  lemma {:induction false} FirstPresentNone(attrs: Attributes, names: seq<string>)
    requires forall k :: k in names ==> !HasAttribute(attrs, k)
    ensures FirstPresent(attrs, names) == ""
  {
    if names != [] {
      assert names[0] in names;
      FirstPresentNone(attrs, names[1..]);
    }
  }

  /**
   * On a script element, `custom-element` beats `custom-template`, which beats `host-service`;
   * without any of the three the name is `""`.
   */
  lemma ExtensionNamePriority(node: Node)
    requires IsScriptElement(node)
    ensures var attrs := node.attributes;
      && (HasAttribute(attrs, CUSTOM_ELEMENT) ==> GetExtensionName(node) == GetAttribute(attrs, CUSTOM_ELEMENT))
      && (!HasAttribute(attrs, CUSTOM_ELEMENT) && HasAttribute(attrs, CUSTOM_TEMPLATE) ==>
            GetExtensionName(node) == GetAttribute(attrs, CUSTOM_TEMPLATE))
      && (!HasAttribute(attrs, CUSTOM_ELEMENT) && !HasAttribute(attrs, CUSTOM_TEMPLATE) && HasAttribute(attrs, HOST_SERVICE) ==>
            GetExtensionName(node) == GetAttribute(attrs, HOST_SERVICE))
      && (!HasAttribute(attrs, CUSTOM_ELEMENT) && !HasAttribute(attrs, CUSTOM_TEMPLATE) && !HasAttribute(attrs, HOST_SERVICE) ==>
            GetExtensionName(node) == "")
  {
    var attrs, names := node.attributes, EXTENSION_NAME_ATTRIBUTES;
    if HasAttribute(attrs, CUSTOM_ELEMENT) {
      FirstPresentIsFirst(attrs, names, 0);
    } else if HasAttribute(attrs, CUSTOM_TEMPLATE) {
      FirstPresentIsFirst(attrs, names, 1);
    } else if HasAttribute(attrs, HOST_SERVICE) {
      FirstPresentIsFirst(attrs, names, 2);
    } else {
      FirstPresentNone(attrs, names);
    }
  }

  /**
   * `isExtension` holds exactly for script elements that carry an extension-name attribute
   * and whose most significant one has a value other than `""` and `"0"`.
   */
  lemma ExtensionCharacterization(node: Node)
    ensures IsExtension(node) <==>
      && IsScriptElement(node)
      && (exists k :: k in EXTENSION_NAME_ATTRIBUTES && HasAttribute(node.attributes, k))
      && !IsEmpty(FirstPresent(node.attributes, EXTENSION_NAME_ATTRIBUTES))
  {
    if IsScriptElement(node) && !exists k :: k in EXTENSION_NAME_ATTRIBUTES && HasAttribute(node.attributes, k) {
      FirstPresentNone(node.attributes, EXTENSION_NAME_ATTRIBUTES);
    }
  }

  /** A script whose extension-name attribute is `"0"` is not an extension: PHP's `empty("0")` holds. */
  lemma ZeroNamedScriptIsNotExtension(src: string)
    ensures !IsExtension(Element(SCRIPT, [Attr(CUSTOM_ELEMENT, "0"), Attr(SRC, src)]))
  {
    var attrs := [Attr(CUSTOM_ELEMENT, "0"), Attr(SRC, src)];
    assert HasAttribute(attrs, CUSTOM_ELEMENT);
    assert GetAttribute(attrs, CUSTOM_ELEMENT) == "0";
  }

  /** Runtime and viewer classification never hold for an extension script. */
  lemma ExtensionIsNeitherRuntimeNorViewer(node: Node)
    requires IsExtension(node)
    ensures !IsRuntimeScript(node) && !IsViewerScript(node)
  {
  }

  /** The script elements used as examples below carry no extension-name attribute. */
  lemma PlainScriptAttributes(src: string)
    ensures var attrs := [Attr(ASYNC, ""), Attr(SRC, src)];
      && HasAttribute(attrs, ASYNC) && HasAttribute(attrs, SRC) && GetAttribute(attrs, SRC) == src
      && !IsExtension(Element(SCRIPT, attrs))
  {
    assert |CUSTOM_ELEMENT| == 14 && |CUSTOM_TEMPLATE| == 15 && |HOST_SERVICE| == 12;
    var attrs := [Attr(ASYNC, ""), Attr(SRC, src)];
    assert attrs[1..] == [Attr(SRC, src)];
    ExtensionNamePriority(Element(SCRIPT, attrs));
  }

  /** The runtime script of the AMP cache, with its canonical URL, is recognised. */
  lemma CanonicalRuntimeScript()
    ensures IsRuntimeScript(Element(SCRIPT, [Attr(ASYNC, ""), Attr(SRC, "https://cdn.ampproject.org/v0.js")]))
  {
    var src := "https://cdn.ampproject.org/v0.js";
    PlainScriptAttributes(src);
    assert src == CACHE_ROOT_URL + "v0.js";
    assert src[|src| - 6..] == "/v0.js";
  }

  /**
   * The runtime and viewer patterns are not exclusive: a viewer-integration URL that also
   * ends in `/v0.js` satisfies both.
   */
  lemma RuntimeAndViewerOverlap()
    ensures var node := Element(SCRIPT, [Attr(ASYNC, ""), Attr(SRC, OVERLAPPING_SRC)]);
            IsRuntimeScript(node) && IsViewerScript(node)
  {
    PlainScriptAttributes(OVERLAPPING_SRC);
    OverlappingSrcShape();
  }

  lemma OverlappingSrcShape()
    ensures StartsWith(OVERLAPPING_SRC, CACHE_ROOT_URL)
    ensures StartsWith(OVERLAPPING_SRC, CACHE_HOST + "/v0/amp-viewer-integration-")
    ensures EndsWith(OVERLAPPING_SRC, "/v0.js") && EndsWith(OVERLAPPING_SRC, ".js")
  {
    var viewerPrefix := CACHE_HOST + "/v0/amp-viewer-integration-";
    assert OVERLAPPING_SRC == (viewerPrefix + "/v0") + ".js";
    assert viewerPrefix == CACHE_ROOT_URL + "v0/amp-viewer-integration-";
    ConcatHasPrefix(viewerPrefix, "/v0.js");
    ConcatHasPrefix(CACHE_ROOT_URL, "v0/amp-viewer-integration-/v0.js");
    ConcatHasSuffix(viewerPrefix, "/v0.js");
    ConcatHasSuffix(viewerPrefix + "/v0", ".js");
  }

  /** `https://cdn.ampproject.org/v0/amp-viewer-integration-/v0.js` */
  const OVERLAPPING_SRC := CACHE_HOST + "/v0/amp-viewer-integration-" + "/v0.js"

  lemma ConcatHasPrefix(a: string, b: string)
    ensures StartsWith(a + b, a)
  {
  }

  lemma ConcatHasSuffix(a: string, b: string)
    ensures EndsWith(a + b, b)
  {
    assert (a + b)[|a|..] == b;
  }

  /** Every render-delaying name is non-empty, so the `empty()` early return never changes the answer. */
  lemma RenderDelayingNamesAreNotEmpty()
    ensures forall name :: name in RENDER_DELAYING_EXTENSIONS ==> !IsEmpty(name)
  {
  }
}
