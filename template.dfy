/** The preprocess, process and alter hooks of the Minima theme. Each hook receives
    the host's display variables by reference and rewrites a few of them before a
    template renders; here each hook's variables are a class whose fields are the
    entries the hook reads or writes, and the hook is a method that updates them.
    What the host supplies from elsewhere (menu names, the path, HTML ids and
    classes, whether the page is the front page) comes in as parameters. */
module Template {
  import opened Php

  datatype Option<T> = None | Some(value: T)

  /** A render element: its `#` properties (`#tag`, `#value`, `#value_prefix`, ...)
      and its `#attributes`. An absent `#attributes` array is the empty map. */
  datatype Element = Element(properties: map<string, string>, attributes: map<string, string>)

  // ===== minima_preprocess_html: body classes =====

  /** The `language` object of the page: language code and text direction. */
  datatype Language = Language(language: string, dir: string)

  /** The body classes, rebuilt from nothing: front-page class, login class, then the
      layout classes of the filled `secondary` and `tertiary` regions, then the
      section class when the page is not the front page. */
  function BodyClasses(isFront: bool, loggedIn: bool, filledRegions: set<string>, sectionClass: string): (r: seq<string>)
    ensures |r| == 2 + (if "secondary" in filledRegions then 1 else 0)
                     + (if "tertiary" in filledRegions then 1 else 0)
                     + (if isFront then 0 else 1)
    ensures r[0] == (if isFront then "front" else "not-front")
    ensures r[1] == (if loggedIn then "logged-in" else "not-logged-in")
    ensures "secondary" in filledRegions ==> r[2] == "secondary"
    ensures "tertiary" in filledRegions ==> r[if "secondary" in filledRegions then 3 else 2] == "tertiary"
    ensures !isFront ==> r[|r| - 1] == sectionClass
  {
    [if isFront then "front" else "not-front"]
    + [if loggedIn then "logged-in" else "not-logged-in"]
    + (if "secondary" in filledRegions then ["secondary"] else [])
    + (if "tertiary" in filledRegions then ["tertiary"] else [])
    + (if isFront then [] else [sectionClass])
  }

  /** The variables of html.tpl.php that minima_preprocess_html reads or writes. */
  class HtmlVariables {
    var language: Language
    var isFront: bool
    var loggedIn: bool
    /** The names of the regions of `page` that are not empty. */
    var filledRegions: set<string>
    var htmlAttributes: map<string, string>
    var classes: seq<string>

    constructor (language: Language, isFront: bool, loggedIn: bool, filledRegions: set<string>, classes: seq<string>)
      ensures this.language == language && this.isFront == isFront && this.loggedIn == loggedIn
      ensures this.filledRegions == filledRegions && this.classes == classes && htmlAttributes == map[]
    {
      this.language := language;
      this.isFront := isFront;
      this.loggedIn := loggedIn;
      this.filledRegions := filledRegions;
      this.classes := classes;
      htmlAttributes := map[];
    }

    /** `htmlClass` is the host's class-name cleaner and `pathArg0` the first
        component of the request path. */
    method Preprocess(htmlClass: string -> string, pathArg0: string)
      modifies this`htmlAttributes, this`classes
      ensures htmlAttributes == map["lang" := language.language, "dir" := language.dir]
      ensures classes == BodyClasses(isFront, loggedIn, filledRegions, htmlClass("section-" + pathArg0))
    {
      htmlAttributes := map["lang" := language.language, "dir" := language.dir];
      var body: seq<string> := [];
      body := body + [if isFront then "front" else "not-front"];
      body := body + [if loggedIn then "logged-in" else "not-logged-in"];
      if "secondary" in filledRegions {
        body := body + ["secondary"];
      }
      if "tertiary" in filledRegions {
        body := body + ["tertiary"];
      }
      if !isFront {
        body := body + [htmlClass("section-" + pathArg0)];
      }
      classes := body;
    }
  }

  // ===== minima_process_html_tag =====

  /** The element is a `style` or a `script` tag. */
  predicate IsStyleOrScript(e: Element)
  {
    "#tag" in e.properties && (e.properties["#tag"] == "style" || e.properties["#tag"] == "script")
  }

  /** A `style` or `script` element loses its `type` attribute, its CDATA
      `#value_prefix` and `#value_suffix`, and a `media` attribute equal to `all`;
      every other element and entry stays as it was. */
  function PrunedTag(e: Element): (r: Element)
    ensures !IsStyleOrScript(e) ==> r == e
    ensures IsStyleOrScript(e) ==>
      && r.properties.Keys == e.properties.Keys - {"#value_prefix", "#value_suffix"}
      && (forall k :: k in r.properties ==> r.properties[k] == e.properties[k])
      && (forall k :: k in r.attributes ==> k in e.attributes && r.attributes[k] == e.attributes[k])
      && "type" !in r.attributes
      && ("media" !in r.attributes || r.attributes["media"] != "all")
      && (forall k :: k in e.attributes && k != "type" && (k != "media" || e.attributes[k] != "all") ==> k in r.attributes)
  {
    if !IsStyleOrScript(e) then e
    else
      var attributes := e.attributes - {"type"};
      Element(e.properties - {"#value_prefix", "#value_suffix"},
              if "media" in attributes && attributes["media"] == "all" then attributes - {"media"} else attributes)
  }

  /** Pruning twice prunes nothing more. */
  lemma PrunedTagIdempotent(e: Element)
    ensures PrunedTag(PrunedTag(e)) == PrunedTag(e)
  {
    if IsStyleOrScript(e) {
      assert IsStyleOrScript(PrunedTag(e));
    }
  }

  /** The variables of theme_html_tag that minima_process_html_tag rewrites. */
  class HtmlTagVariables {
    var element: Element

    constructor (element: Element)
      ensures this.element == element
    {
      this.element := element;
    }

    method Process()
      modifies this
      ensures element == PrunedTag(old(element))
    {
      var tag := element;
      if "#tag" in tag.properties && (tag.properties["#tag"] == "style" || tag.properties["#tag"] == "script") {
        tag := tag.(attributes := tag.attributes - {"type"},
                    properties := tag.properties - {"#value_prefix", "#value_suffix"});
        if "media" in tag.attributes && tag.attributes["media"] == "all" {
          tag := tag.(attributes := tag.attributes - {"media"});
        }
      }
      element := tag;
    }
  }

  // ===== minima_html_head_alter =====

  const ContentTypeMeta := "system_meta_content_type"
  const ContentTypePrefix := "text/html; charset="

  /** The head holds the content-type meta element and it has a `content` attribute. */
  predicate HasContentType(head: map<string, Element>)
  {
    ContentTypeMeta in head && "content" in head[ContentTypeMeta].attributes
  }

  /** The content-type meta element keeps its properties, and its attributes become
      exactly a `charset` holding its former `content` with every
      `text/html; charset=` taken out; nothing else in the head changes. */
  function SimplifiedHead(head: map<string, Element>): (r: map<string, Element>)
    ensures r.Keys == head.Keys
    ensures forall k :: k in head && k != ContentTypeMeta ==> r[k] == head[k]
    ensures !HasContentType(head) ==> r == head
    ensures HasContentType(head) ==>
      && r[ContentTypeMeta].properties == head[ContentTypeMeta].properties
      && r[ContentTypeMeta].attributes.Keys == {"charset"}
      && r[ContentTypeMeta].attributes["charset"] == StrReplace(ContentTypePrefix, "", head[ContentTypeMeta].attributes["content"])
  {
    if HasContentType(head) then
      var meta := head[ContentTypeMeta];
      head[ContentTypeMeta := meta.(attributes := map["charset" := StrReplace(ContentTypePrefix, "", meta.attributes["content"])])]
    else head
  }

  /** Once simplified, the head has no `content` left to simplify. */
  lemma SimplifiedHeadIdempotent(head: map<string, Element>)
    ensures SimplifiedHead(SimplifiedHead(head)) == SimplifiedHead(head)
  {
  }

  /** The meta element the host usually emits, `content="text/html; charset=utf-8"`,
      becomes `charset="utf-8"`. */
  lemma SimplifiedHeadUtf8(head: map<string, Element>)
    requires ContentTypeMeta in head
    requires "content" in head[ContentTypeMeta].attributes
    requires head[ContentTypeMeta].attributes["content"] == "text/html; charset=utf-8"
    ensures SimplifiedHead(head)[ContentTypeMeta].attributes == map["charset" := "utf-8"]
  {
    assert "text/html; charset=utf-8" == ContentTypePrefix + "utf-8";
    StrReplaceLeading(ContentTypePrefix, "", "utf-8");
    assert StrReplace(ContentTypePrefix, "", "utf-8") == "utf-8";
    var attributes := SimplifiedHead(head)[ContentTypeMeta].attributes;
    assert attributes.Keys == {"charset"} && attributes["charset"] == "utf-8";
  }

  /** The `$head` array handed to minima_html_head_alter. */
  class HtmlHead {
    var elements: map<string, Element>

    constructor (elements: map<string, Element>)
      ensures this.elements == elements
    {
      this.elements := elements;
    }

    method Alter()
      modifies this
      ensures elements == SimplifiedHead(old(elements))
    {
      if ContentTypeMeta in elements && "content" in elements[ContentTypeMeta].attributes {
        var content := elements[ContentTypeMeta].attributes["content"];
        elements := elements[ContentTypeMeta := elements[ContentTypeMeta].(attributes := map["charset" := StrReplace(ContentTypePrefix, "", content)])];
      }
    }
  }

  // ===== minima_preprocess_page: branding name =====

  /** The element that wraps the site name: a heading on the front page only. */
  function NameWrapper(isFront: bool): string
  {
    if isFront then "h1" else "div"
  }

  /** The site name wrapped in its element with class `branding__name`. */
  function BrandingName(siteName: string, isFront: bool): (r: string)
    ensures var w := NameWrapper(isFront);
            && |r| == |siteName| + 2 * |w| + 28
            && r[..|w| + 25] == "<" + w + " class=\"branding__name\">"
            && r[|w| + 25..|r| - |w| - 3] == siteName
            && r[|r| - |w| - 3..] == "</" + w + ">"
    ensures isFront <==> StartsWith(r, "<h1")
  {
    var w := NameWrapper(isFront);
    var open := "<" + w + " class=\"branding__name\">";
    var close := "</" + w + ">";
    assert |open| == |w| + 25 && |close| == |w| + 3;
    var r := open + siteName + close;
    assert r[..|w| + 25] == open;
    assert r[|w| + 25..|r| - |w| - 3] == siteName;
    assert r[|r| - |w| - 3..] == close;
    assert r[1] == w[0];
    r
  }

  /** The variables of page.tpl.php that the branding part of
      minima_preprocess_page reads or writes. */
  class PageVariables {
    var siteName: string
    var siteSlogan: string
    var brandingName: string
    var brandingSlogan: string

    constructor (siteName: string, siteSlogan: string)
      ensures this.siteName == siteName && this.siteSlogan == siteSlogan
      ensures brandingName == "" && brandingSlogan == ""
    {
      this.siteName := siteName;
      this.siteSlogan := siteSlogan;
      brandingName := "";
      brandingSlogan := "";
    }

    /** `isFrontPage` is the host's answer to whether this is the front page. */
    method Preprocess(isFrontPage: bool)
      modifies this`brandingName, this`brandingSlogan
      ensures brandingName == BrandingName(siteName, isFrontPage)
      ensures brandingSlogan == siteSlogan
    {
      var nameWrapper := if isFrontPage then "h1" else "div";
      brandingName := "<" + nameWrapper + " class=\"branding__name\">" + siteName + "</" + nameWrapper + ">";
      brandingSlogan := siteSlogan;
    }
  }

  // ===== minima_preprocess_region =====

  /** The `wrapper` variable: FALSE (no wrapping element) or an element name. */
  datatype Wrapper = NoWrapper | WrapperTag(name: string)

  /** Regions laid out as a container. */
  predicate IsContainerRegion(region: string)
  {
    region == "navigation" || region == "top" || region == "bottom" || region == "footer"
  }

  /** Regions that are themselves a grid cell. */
  predicate IsGridCellRegion(region: string)
  {
    region == "secondary" || region == "tertiary"
  }

  /** Regions rendered without a wrapper template. */
  predicate IsUnwrappedRegion(region: string)
  {
    region == "page_top" || region == "page_bottom"
  }

  /** The wrapping element of a region. */
  function RegionWrapper(region: string): (r: Wrapper)
    ensures r == NoWrapper <==> region == "header"
    ensures r == WrapperTag("nav") <==> region == "navigation"
    ensures r == WrapperTag("footer") <==> region == "footer"
    ensures r == WrapperTag("div") <==> region != "header" && region != "navigation" && region != "footer"
  {
    if region == "header" then NoWrapper
    else if region == "navigation" then WrapperTag("nav")
    else if region == "footer" then WrapperTag("footer")
    else WrapperTag("div")
  }

  /** The layout classes appended to a region's class attribute: exactly one of
      `grid__cell`, `grid` and `container`. */
  function LayoutClasses(region: string): (r: seq<string>)
    ensures |r| == 1
    ensures r[0] == "grid__cell" <==> IsGridCellRegion(region)
    ensures r[0] == "container" <==> IsContainerRegion(region)
    ensures r[0] == "grid" <==> !IsContainerRegion(region) && !IsGridCellRegion(region)
  {
    var container := IsContainerRegion(region);
    var gridCell := IsGridCellRegion(region);
    assert "grid__cell" != "container" && "grid" != "container" by { assert "container"[0] == 'c'; }
    assert "grid__cell" != "grid";
    (if gridCell then ["grid__cell"] else [])
    + (if !container && !gridCell then ["grid"] else [])
    + (if container then ["container"] else [])
  }

  /** The variables of region.tpl.php that minima_preprocess_region reads or writes. */
  class RegionVariables {
    var region: string
    /** `attributes_array` apart from its class list. */
    var attributes: map<string, string>
    /** `attributes_array['class']` (an absent list is empty). */
    var classes: seq<string>
    var wrapper: Wrapper
    var container: bool
    var gridCell: bool
    var themeHookSuggestions: seq<string>

    constructor (region: string, attributes: map<string, string>, classes: seq<string>, themeHookSuggestions: seq<string>)
      ensures this.region == region && this.attributes == attributes && this.classes == classes
      ensures this.themeHookSuggestions == themeHookSuggestions
      ensures wrapper == NoWrapper && !container && !gridCell
    {
      this.region := region;
      this.attributes := attributes;
      this.classes := classes;
      this.themeHookSuggestions := themeHookSuggestions;
      wrapper := NoWrapper;
      container := false;
      gridCell := false;
    }

    /** `htmlId` is the unique id the host makes from the region name. */
    method Preprocess(htmlId: string)
      modifies this`attributes, this`classes, this`wrapper, this`container, this`gridCell, this`themeHookSuggestions
      ensures wrapper == RegionWrapper(region)
      ensures container == IsContainerRegion(region)
      ensures gridCell == IsGridCellRegion(region)
      ensures attributes == if region == "navigation" then old(attributes)["id" := htmlId]["role" := "navigation"]
                            else old(attributes)["id" := htmlId]
      ensures classes == old(classes) + LayoutClasses(region)
      ensures themeHookSuggestions == if IsUnwrappedRegion(region) then ["region__no_wrapper"] + old(themeHookSuggestions)
                                      else old(themeHookSuggestions)
    {
      attributes := attributes["id" := htmlId];

      wrapper := WrapperTag("div");
      container := false;
      gridCell := false;

      if region == "header" {
        wrapper := NoWrapper;
      } else if region == "navigation" {
        wrapper := WrapperTag("nav");
        container := true;
        attributes := attributes["role" := "navigation"];
      } else if region == "secondary" || region == "tertiary" {
        gridCell := true;
        classes := classes + ["grid__cell"];
      } else if region == "top" || region == "bottom" {
        container := true;
      } else if region == "footer" {
        wrapper := WrapperTag("footer");
        container := true;
      } else if region == "page_top" || region == "page_bottom" {
        themeHookSuggestions := ["region__no_wrapper"] + themeHookSuggestions;
      }

      if !container && !gridCell {
        classes := classes + ["grid"];
      }
      if container {
        classes := classes + ["container"];
      }
    }
  }

  // ===== minima_preprocess_block =====

  /** The block object: the module that provides it, its delta and its subject
      (a NULL subject is the empty string). */
  datatype Block = Block(moduleName: string, delta: string, subject: string)

  /** Classes that core gives blocks, all beginning with `block`. */
  predicate IsCoreBlockClass(c: string)
  {
    StartsWith(c, "block")
  }

  /** A menu block: a system block whose delta names a menu, or a block of the
      `menu` or `menu_block` module. */
  predicate IsMenuBlock(block: Block, menuNames: set<string>)
  {
    (block.moduleName == "system" && block.delta in menuNames)
    || block.moduleName == "menu" || block.moduleName == "menu_block"
  }

  /** The incoming classes that the theme keeps: those not beginning with `block`. */
  function ThemeBlockClasses(cs: seq<string>): (r: seq<string>)
    ensures |r| <= |cs|
    ensures forall c :: c in r ==> c in cs && !IsCoreBlockClass(c)
  {
    if cs == [] then []
    else
      var c := cs[|cs| - 1];
      ThemeBlockClasses(cs[..|cs| - 1]) + (if IsCoreBlockClass(c) then [] else [c])
  }

  /** Every incoming class not beginning with `block` is kept. */
  lemma {:induction false} ThemeBlockClassesKeepOthers(cs: seq<string>)
    ensures forall c :: c in cs && !IsCoreBlockClass(c) ==> c in ThemeBlockClasses(cs)
  {
    if cs != [] {
      var init := cs[..|cs| - 1];
      ThemeBlockClassesKeepOthers(init);
      assert cs == init + [cs[|cs| - 1]];
    }
  }

  /** Filtering works piece by piece, so the kept classes stay in their original order. */
  lemma {:induction false} ThemeBlockClassesAppend(a: seq<string>, b: seq<string>)
    ensures ThemeBlockClasses(a + b) == ThemeBlockClasses(a) + ThemeBlockClasses(b)
    decreases |b|
  {
    if b == [] {
      assert a + b == a;
    } else {
      var init := b[..|b| - 1];
      assert (a + b)[..|a + b| - 1] == a + init;
      ThemeBlockClassesAppend(a, init);
    }
  }

  /** A list without core block classes is kept whole. */
  lemma {:induction false} ThemeBlockClassesOfThemeClasses(cs: seq<string>)
    requires forall c :: c in cs ==> !IsCoreBlockClass(c)
    ensures ThemeBlockClasses(cs) == cs
  {
    if cs != [] {
      var init := cs[..|cs| - 1];
      assert forall c :: c in init ==> c in cs;
      ThemeBlockClassesOfThemeClasses(init);
      assert cs == init + [cs[|cs| - 1]];
    }
  }

  /** The block's class attribute: `grid__cell` and `box`, then `box--menu` for a
      menu block, then the incoming classes the theme keeps. */
  function BoxClasses(block: Block, menuNames: set<string>, cs: seq<string>): (r: seq<string>)
    ensures |r| == 2 + (if IsMenuBlock(block, menuNames) then 1 else 0) + |ThemeBlockClasses(cs)|
    ensures r[..2] == ["grid__cell", "box"]
    ensures IsMenuBlock(block, menuNames) ==> r[2] == "box--menu"
    ensures r[if IsMenuBlock(block, menuNames) then 3 else 2..] == ThemeBlockClasses(cs)
    ensures forall c :: c in r ==> !IsCoreBlockClass(c)
    ensures forall c :: c in cs && !IsCoreBlockClass(c) ==> c in r
  {
    ThemeBlockClassesKeepOthers(cs);
    assert !IsCoreBlockClass("grid__cell") by { assert "grid__cell"[0] != "block"[0]; }
    assert !IsCoreBlockClass("box") by { assert |"box"| < |"block"|; }
    assert !IsCoreBlockClass("box--menu") by { assert "box--menu"[1] != "block"[1]; }
    ["grid__cell", "box"] + (if IsMenuBlock(block, menuNames) then ["box--menu"] else []) + ThemeBlockClasses(cs)
  }

  /** The variables of block.tpl.php that minima_preprocess_block reads or writes. */
  class BlockVariables {
    var block: Block
    /** `classes_array` as the host prepared it. */
    var classes: seq<string>
    /** `attributes_array['class']`, `title_attributes_array['class']`, `content_attributes_array['class']`. */
    var attributeClasses: seq<string>
    var titleAttributeClasses: seq<string>
    var contentAttributeClasses: seq<string>
    var title: string

    constructor (block: Block, classes: seq<string>)
      ensures this.block == block && this.classes == classes
      ensures attributeClasses == [] && titleAttributeClasses == [] && contentAttributeClasses == [] && title == ""
    {
      this.block := block;
      this.classes := classes;
      attributeClasses := [];
      titleAttributeClasses := [];
      contentAttributeClasses := [];
      title := "";
    }

    /** `menuNames` are the keys of the host's menu list. */
    method Preprocess(menuNames: set<string>)
      modifies this`attributeClasses, this`titleAttributeClasses, this`contentAttributeClasses, this`title
      ensures attributeClasses == BoxClasses(block, menuNames, classes)
      ensures titleAttributeClasses == ["box__title"]
      ensures contentAttributeClasses == ["box__content"]
      ensures title == if IsEmptyString(block.subject) then "" else block.subject
    {
      var boxClasses := ["grid__cell", "box"];
      titleAttributeClasses := ["box__title"];
      contentAttributeClasses := ["box__content"];
      title := if !IsEmptyString(block.subject) then block.subject else "";

      if (block.moduleName == "system" && block.delta in menuNames)
         || block.moduleName == "menu" || block.moduleName == "menu_block" {
        boxClasses := boxClasses + ["box--menu"];
      }
      ghost var prefix := boxClasses;

      for i := 0 to |classes|
        invariant boxClasses == prefix + ThemeBlockClasses(classes[..i])
      {
        var c := classes[i];
        assert classes[..i + 1][..i] == classes[..i];
        if !StartsWith(c, "block") {
          boxClasses := boxClasses + [c];
        }
      }
      assert classes[..|classes|] == classes;
      attributeClasses := boxClasses;
    }
  }

  // ===== minima_preprocess_menu_link =====

  /** An attribute array: its `class` list when one is set, and its other attributes. */
  datatype Attributes = Attributes(classes: Option<seq<string>>, others: map<string, string>)

  /** The class list of an attribute array; an unset list is empty. */
  function ClassList(a: Attributes): seq<string>
  {
    if a.classes.Some? then a.classes.value else []
  }

  /** The `element` of a menu link: its `#attributes`, the `attributes` of its
      `#localized_options`, and its other properties. */
  datatype MenuLinkElement = MenuLinkElement(attributes: Attributes, linkAttributes: Attributes, properties: map<string, string>)

  /** The theme class for a core menu-link state class; None for any other class. */
  function StateClass(c: string): Option<string>
  {
    if c == "active-trail" then Some("is-active")
    else if c == "expanded" then Some("is-expanded")
    else if c == "collapsed" then Some("is-collapsed")
    else None
  }

  /** One of the theme's state classes. */
  predicate IsThemeState(c: string)
  {
    c == "is-active" || c == "is-expanded" || c == "is-collapsed"
  }

  /** The core state classes of `cs`, in their order. */
  function CoreStates(cs: seq<string>): (r: seq<string>)
    ensures forall c :: c in r ==> c in cs && StateClass(c).Some?
  {
    if cs == [] then []
    else
      var c := cs[|cs| - 1];
      CoreStates(cs[..|cs| - 1]) + (if StateClass(c).Some? then [c] else [])
  }

  /** The theme state classes for the classes `cs`: one per core state class. */
  function StateClasses(cs: seq<string>): (r: seq<string>)
    ensures |r| <= |cs|
    ensures forall c :: c in r ==> IsThemeState(c)
  {
    if cs == [] then []
    else
      var c := cs[|cs| - 1];
      StateClasses(cs[..|cs| - 1]) + (match StateClass(c) case Some(t) => [t] case None => [])
  }

  /** A menu item's classes: `menu__item`, then the theme state classes. */
  function MenuItemClasses(cs: seq<string>): (r: seq<string>)
    ensures |r| >= 1 && r[0] == "menu__item"
    ensures forall i :: 1 <= i < |r| ==> IsThemeState(r[i])
  {
    var states := StateClasses(cs);
    assert forall i :: 0 <= i < |states| ==> states[i] in states;
    ["menu__item"] + states
  }

  /** The i-th theme state class is the mapping of the i-th core state class of the
      input: exactly one entry per core state class, in input order. */
  lemma {:induction false} StateClassesFollowCoreStates(cs: seq<string>)
    ensures |StateClasses(cs)| == |CoreStates(cs)|
    ensures forall i :: 0 <= i < |CoreStates(cs)| ==> StateClass(CoreStates(cs)[i]) == Some(StateClasses(cs)[i])
  {
    if cs != [] {
      StateClassesFollowCoreStates(cs[..|cs| - 1]);
    }
  }

  /** Distinct classes never map to the same theme state class. */
  lemma StateClassInjective(a: string, b: string)
    requires StateClass(a).Some? && StateClass(a) == StateClass(b)
    ensures a == b
  {
  }

  /** Each theme state class occurs as often as the core class it stands for. */
  lemma {:induction false} StateClassCount(cs: seq<string>, core: string, theme: string)
    requires StateClass(core) == Some(theme)
    ensures multiset(StateClasses(cs))[theme] == multiset(cs)[core]
  {
    if cs != [] {
      var init, c := cs[..|cs| - 1], cs[|cs| - 1];
      StateClassCount(init, core, theme);
      assert cs == init + [c];
      var added := match StateClass(c) case Some(t) => [t] case None => [];
      assert StateClasses(cs) == StateClasses(init) + added;
      if c == core {
        assert added == [theme];
      } else if StateClass(c).Some? {
        if StateClass(c) == Some(theme) {
          StateClassInjective(c, core);
        }
        assert added == [StateClass(c).value];
      } else {
        assert added == [];
      }
      assert multiset(added)[theme] == multiset([c])[core];
    }
  }

  /** The variables of theme_menu_link that minima_preprocess_menu_link rewrites. */
  class MenuLinkVariables {
    var element: MenuLinkElement

    constructor (element: MenuLinkElement)
      ensures this.element == element
    {
      this.element := element;
    }

    method Preprocess()
      modifies this
      ensures element.attributes == old(element.attributes).(classes := Some(MenuItemClasses(ClassList(old(element.attributes)))))
      ensures element.linkAttributes == old(element.linkAttributes).(classes := None)
      ensures element.properties == old(element.properties)
    {
      var incoming := ClassList(element.attributes);
      var classes := ["menu__item"];

      for i := 0 to |incoming|
        invariant classes == ["menu__item"] + StateClasses(incoming[..i])
      {
        var c := incoming[i];
        assert incoming[..i + 1][..i] == incoming[..i];
        if c == "active-trail" {
          classes := classes + ["is-active"];
        } else if c == "expanded" {
          classes := classes + ["is-expanded"];
        } else if c == "collapsed" {
          classes := classes + ["is-collapsed"];
        }
      }
      assert incoming[..|incoming|] == incoming;
      element := element.(attributes := element.attributes.(classes := Some(classes)));

      element := element.(linkAttributes := element.linkAttributes.(classes := None));
    }
  }
}
