/**
 * The element filters run over every scraped page or tab: headings and
 * paragraphs are kept by their stripped text, images and links by their
 * `src`/`href`, and root-relative URLs are made absolute on the site host.
 * A page is taken as already parsed: its headings, paragraph texts, images,
 * links, the text of `<main>` (or `<body>`), and every text node in
 * document order.
 */
module Content {
  import opened Wrappers
  import opened Text
  import opened Extractor
  import opened LegacyExtractor

  /** A heading element: its tag name (`h1` ... `h6`) and `get_text()`. */
  datatype RawHeading = RawHeading(level: string, text: string)
  /** An `<img>`: its `src` and `alt` attributes, `""` when missing. */
  datatype Image = Image(src: string, alt: string)
  /** An `<a>` that has an `href` attribute: the attribute and `get_text()`. */
  datatype Anchor = Anchor(href: string, text: string)

  datatype Heading = Heading(level: string, text: string)
  datatype Paragraph = Paragraph(text: string, length: nat)
  datatype Link = Link(href: string, text: string)

  datatype Page = Page(
    headings: seq<RawHeading>,
    paragraphs: seq<string>,
    images: seq<Image>,
    anchors: seq<Anchor>,
    mainText: Option<string>,
    nodes: seq<string>)

  /**
   * The dictionary built for a page or a tab; `name` is the tab name (or
   * the building name), and `specificData` is `None` for the empty dict.
   */
  datatype Content<R> = Content(
    name: string,
    headings: seq<Heading>,
    paragraphs: seq<Paragraph>,
    images: seq<Image>,
    links: seq<Link>,
    textContent: string,
    specificData: Option<R>)

  const Host: string := "https://historicengland.org.uk"

  // ---------------------------------------------------------------------
  // Keeping and mapping elements

  /** The items `f` makes of the elements of `xs` that `keep` accepts, in order. */
  function Collect<A, B>(xs: seq<A>, keep: A -> bool, f: A -> B): seq<B>
  {
    if |xs| == 0 then []
    else Collect(xs[..|xs| - 1], keep, f) + (if keep(xs[|xs| - 1]) then [f(xs[|xs| - 1])] else [])
  }

  /** Collecting one more element appends its item when it is kept. */
  lemma CollectStep<A, B>(xs: seq<A>, i: nat, keep: A -> bool, f: A -> B)
    requires i < |xs|
    ensures Collect(xs[..i + 1], keep, f) == Collect(xs[..i], keep, f) + (if keep(xs[i]) then [f(xs[i])] else [])
  {
    assert xs[..i + 1][..i] == xs[..i];
  }

  /** An item is collected exactly when some kept element makes it. */
  lemma {:induction false} CollectMembers<A, B>(xs: seq<A>, keep: A -> bool, f: A -> B, y: B)
    ensures y in Collect(xs, keep, f) <==> exists i :: 0 <= i < |xs| && keep(xs[i]) && f(xs[i]) == y
  {
    if |xs| > 0 {
      var init := xs[..|xs| - 1];
      CollectMembers(init, keep, f, y);
      if y in Collect(init, keep, f) {
        var i :| 0 <= i < |init| && keep(init[i]) && f(init[i]) == y;
        assert xs[i] == init[i];
      }
      if exists i :: 0 <= i < |xs| && keep(xs[i]) && f(xs[i]) == y {
        var i :| 0 <= i < |xs| && keep(xs[i]) && f(xs[i]) == y;
        if i < |xs| - 1 {
          assert init[i] == xs[i];
        }
      }
    }
  }

  /** Never more items than elements. */
  lemma {:induction false} CollectLength<A, B>(xs: seq<A>, keep: A -> bool, f: A -> B)
    ensures |Collect(xs, keep, f)| <= |xs|
  {
    if |xs| > 0 {
      CollectLength(xs[..|xs| - 1], keep, f);
    }
  }

  // ---------------------------------------------------------------------
  // URLs

  /** A `src` or `href` starting with `/` is prefixed with the site host; any other is left alone. */
  function Absolute(url: string): string
  {
    if StartsWith(url, "/") then Host + url else url
  }

  /**
   * A non-empty URL comes out non-empty and not root-relative, ending with
   * the original URL, which it equals unless the original started with `/`.
   */
  lemma AbsoluteShape(url: string)
    requires url != ""
    ensures var r := Absolute(url);
      && r != [] && r[0] != '/'
      && |url| <= |r| && r[|r| - |url|..] == url
      && (url[0] != '/' ==> r == url)
      && (url[0] == '/' ==> r == Host + url)
  {
    if url[0] == '/' {
      assert StartsWith(url, "/");
      assert (Host + url)[0] == Host[0];
      assert (Host + url)[|Host|..] == url;
    } else {
      assert !StartsWith(url, "/");
    }
  }

  /** Making a URL absolute twice is the same as once. */
  lemma AbsoluteIdempotent(url: string)
    requires url != ""
    ensures Absolute(Absolute(url)) == Absolute(url)
  {
    AbsoluteShape(url);
    assert !StartsWith(Absolute(url), "/");
  }

  // ---------------------------------------------------------------------
  // The four filters

  predicate KeepHeading(h: RawHeading)
  {
    var t := Strip(h.text);
    t != "" && !Contains(Lower(t), "cookie")
  }

  function AsHeading(h: RawHeading): Heading { Heading(h.level, Strip(h.text)) }

  predicate KeepParagraph(p: string)
  {
    var t := Strip(p);
    t != "" && |t| > 20 && !Contains(Lower(t), "cookie")
  }

  function AsParagraph(p: string): Paragraph { Paragraph(Strip(p), |Strip(p)|) }

  predicate KeepImage(img: Image) { img.src != "" }

  function AsImage(img: Image): Image { Image(Absolute(img.src), img.alt) }

  predicate KeepAnchor(a: Anchor) { a.href != "" && Strip(a.text) != "" }

  function AsLink(a: Anchor): Link { Link(Absolute(a.href), Strip(a.text)) }

  /** The heading loop: the stripped text of every heading that is non-empty and does not mention cookies. */
  method FilterHeadings(hs: seq<RawHeading>) returns (out: seq<Heading>)
    ensures out == Collect(hs, KeepHeading, AsHeading)
  {
    out := [];
    for i := 0 to |hs|
      invariant out == Collect(hs[..i], KeepHeading, AsHeading)
    {
      CollectStep(hs, i, KeepHeading, AsHeading);
      var text := Strip(hs[i].text);
      if text != "" && !Contains(Lower(text), "cookie") {
        out := out + [Heading(hs[i].level, text)];
      }
    }
    assert hs[..|hs|] == hs;
  }

  /** The paragraph loop: stripped text longer than 20 characters and not mentioning cookies, with its length. */
  method FilterParagraphs(ps: seq<string>) returns (out: seq<Paragraph>)
    ensures out == Collect(ps, KeepParagraph, AsParagraph)
  {
    out := [];
    for i := 0 to |ps|
      invariant out == Collect(ps[..i], KeepParagraph, AsParagraph)
    {
      CollectStep(ps, i, KeepParagraph, AsParagraph);
      var text := Strip(ps[i]);
      if text != "" && |text| > 20 && !Contains(Lower(text), "cookie") {
        out := out + [Paragraph(text, |text|)];
      }
    }
    assert ps[..|ps|] == ps;
  }

  /** The image loop: every image with a `src`, made absolute. */
  method CollectImages(imgs: seq<Image>) returns (out: seq<Image>)
    ensures out == Collect(imgs, KeepImage, AsImage)
  {
    out := [];
    for i := 0 to |imgs|
      invariant out == Collect(imgs[..i], KeepImage, AsImage)
    {
      CollectStep(imgs, i, KeepImage, AsImage);
      var src := imgs[i].src;
      if src != "" {
        if StartsWith(src, "/") {
          src := Host + src;
        }
        out := out + [Image(src, imgs[i].alt)];
      }
    }
    assert imgs[..|imgs|] == imgs;
  }

  /** The link loop: every anchor with an `href` and some text, made absolute. */
  method CollectLinks(anchors: seq<Anchor>) returns (out: seq<Link>)
    ensures out == Collect(anchors, KeepAnchor, AsLink)
  {
    out := [];
    for i := 0 to |anchors|
      invariant out == Collect(anchors[..i], KeepAnchor, AsLink)
    {
      CollectStep(anchors, i, KeepAnchor, AsLink);
      var href := anchors[i].href;
      var text := Strip(anchors[i].text);
      if href != "" && text != "" {
        if StartsWith(href, "/") {
          href := Host + href;
        }
        out := out + [Link(href, text)];
      }
    }
    assert anchors[..|anchors|] == anchors;
  }

  // ---------------------------------------------------------------------
  // What the filters keep

  /**
   * A heading is kept exactly when some heading element's stripped text is
   * non-empty and free of "cookie" in any case; the kept text is stripped.
   */
  lemma HeadingsKept(hs: seq<RawHeading>, h: Heading)
    ensures h in Collect(hs, KeepHeading, AsHeading) <==>
      exists i :: 0 <= i < |hs| && KeepHeading(hs[i]) && AsHeading(hs[i]) == h
    ensures h in Collect(hs, KeepHeading, AsHeading) ==>
      h.text != "" && !Contains(Lower(h.text), "cookie") && Strip(h.text) == h.text
  {
    CollectMembers(hs, KeepHeading, AsHeading, h);
    if h in Collect(hs, KeepHeading, AsHeading) {
      var i :| 0 <= i < |hs| && KeepHeading(hs[i]) && AsHeading(hs[i]) == h;
      StripIdempotent(hs[i].text);
    }
  }

  /**
   * A paragraph is kept exactly when some `<p>` has stripped text longer
   * than 20 characters, free of "cookie"; its recorded length is that of
   * the kept text.
   */
  lemma ParagraphsKept(ps: seq<string>, p: Paragraph)
    ensures p in Collect(ps, KeepParagraph, AsParagraph) <==>
      exists i :: 0 <= i < |ps| && KeepParagraph(ps[i]) && AsParagraph(ps[i]) == p
    ensures p in Collect(ps, KeepParagraph, AsParagraph) ==>
      p.length == |p.text| > 20 && !Contains(Lower(p.text), "cookie")
  {
    CollectMembers(ps, KeepParagraph, AsParagraph, p);
  }

  /** Every collected image has a non-empty `src` that is not root-relative. */
  lemma ImagesAbsolute(imgs: seq<Image>, img: Image)
    ensures img in Collect(imgs, KeepImage, AsImage) <==>
      exists i :: 0 <= i < |imgs| && KeepImage(imgs[i]) && AsImage(imgs[i]) == img
    ensures img in Collect(imgs, KeepImage, AsImage) ==> img.src != "" && img.src[0] != '/'
  {
    CollectMembers(imgs, KeepImage, AsImage, img);
    if img in Collect(imgs, KeepImage, AsImage) {
      var i :| 0 <= i < |imgs| && KeepImage(imgs[i]) && AsImage(imgs[i]) == img;
      AbsoluteShape(imgs[i].src);
    }
  }

  /** Every collected link has a non-root-relative `href` and non-empty stripped text. */
  lemma LinksAbsolute(anchors: seq<Anchor>, link: Link)
    ensures link in Collect(anchors, KeepAnchor, AsLink) <==>
      exists i :: 0 <= i < |anchors| && KeepAnchor(anchors[i]) && AsLink(anchors[i]) == link
    ensures link in Collect(anchors, KeepAnchor, AsLink) ==>
      link.href != "" && link.href[0] != '/' && link.text != "" && Strip(link.text) == link.text
  {
    CollectMembers(anchors, KeepAnchor, AsLink, link);
    if link in Collect(anchors, KeepAnchor, AsLink) {
      var i :| 0 <= i < |anchors| && KeepAnchor(anchors[i]) && AsLink(anchors[i]) == link;
      AbsoluteShape(anchors[i].href);
      StripIdempotent(anchors[i].text);
    }
  }

  // ---------------------------------------------------------------------
  // Page and tab content

  /** `'official' in name.lower() or 'list entry' in name.lower()` */
  predicate IsOfficialTab(name: string)
  {
    Contains(Lower(name), "official") || Contains(Lower(name), "list entry")
  }

  /** The filtered elements and main text of a page, with `specific_data` still empty. */
  function Elements<R>(page: Page, name: string): Content<R>
  {
    Content(
      name,
      Collect(page.headings, KeepHeading, AsHeading),
      Collect(page.paragraphs, KeepParagraph, AsParagraph),
      Collect(page.images, KeepImage, AsImage),
      Collect(page.anchors, KeepAnchor, AsLink),
      if page.mainText.Some? then Strip(page.mainText.value) else "",
      None)
  }

  /** What `_extract_tab_content` returns for the richer extractor. */
  function TabContent(page: Page, name: string): Content<Record>
  {
    var c := Elements<Record>(page, name);
    if IsOfficialTab(name) then c.(specificData := Some(SpecificData(page.nodes, page.paragraphs))) else c
  }

  /** What the detailed scraper's `extract_tab_content` returns. */
  function LegacyTabContent(page: Page, name: string): Content<LegacyRecord>
  {
    var c := Elements<LegacyRecord>(page, name);
    if IsOfficialTab(name) then c.(specificData := Some(LegacyData(page.nodes, page.paragraphs))) else c
  }

  /** The four filters and the main text, shared by every page and tab extraction. */
  method ExtractElements<R>(page: Page, name: string) returns (c: Content<R>)
    ensures c == Elements(page, name)
  {
    var headings := FilterHeadings(page.headings);
    var paragraphs := FilterParagraphs(page.paragraphs);
    var images := CollectImages(page.images);
    var links := CollectLinks(page.anchors);
    var text := "";
    if page.mainText.Some? {
      text := Strip(page.mainText.value);
    }
    c := Content(name, headings, paragraphs, images, links, text, None);
  }

  /** `_extract_content`: the elements, and the building-specific data in every case. */
  method ExtractContent(page: Page, buildingName: string) returns (c: Content<Record>)
    ensures c == Elements<Record>(page, buildingName).(specificData := Some(SpecificData(page.nodes, page.paragraphs)))
  {
    c := ExtractElements(page, buildingName);
    var data := ExtractBuildingSpecificData(page.nodes, page.paragraphs);
    c := c.(specificData := Some(data));
  }

  /** `_extract_tab_content`: the elements, and the building-specific data only for an official tab. */
  method ExtractTabContent(page: Page, name: string) returns (c: Content<Record>)
    ensures c == TabContent(page, name)
  {
    c := ExtractElements(page, name);
    if Contains(Lower(name), "official") || Contains(Lower(name), "list entry") {
      var data := ExtractBuildingSpecificData(page.nodes, page.paragraphs);
      c := c.(specificData := Some(data));
    }
  }

  /** The detailed scraper's `extract_tab_content`, which uses the older extractor. */
  method LegacyExtractTabContent(page: Page, name: string) returns (c: Content<LegacyRecord>)
    ensures c == LegacyTabContent(page, name)
  {
    c := ExtractElements(page, name);
    if Contains(Lower(name), "official") || Contains(Lower(name), "list entry") {
      var data := LegacyExtract(page.nodes, page.paragraphs);
      c := c.(specificData := Some(data));
    }
  }

  /**
   * A tab's `specific_data` is filled exactly when its lower-cased name
   * mentions "official" or "list entry"; the other keys do not depend on
   * the tab name beyond `tab_name` itself.
   */
  lemma SpecificDataOnlyForOfficial(page: Page, name: string, other: string)
    ensures TabContent(page, name).specificData.Some? <==> IsOfficialTab(name)
    ensures TabContent(page, name).(name := other, specificData := None) == TabContent(page, other).(specificData := None)
    ensures LegacyTabContent(page, name).specificData.Some? <==> IsOfficialTab(name)
  {
  }
}
