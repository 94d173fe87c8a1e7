/** What the Alforsa site builder's documents are guaranteed to look like:
    the order and distinctness of the sitemap URLs, the line structure of
    `sitemap.xml` and `robots.txt`, what every rendered page embeds, the home
    lists, and the root page's alternates. */
module PublishFacts {
  import opened Text
  import opened Publish

  // ------------------------------------------------------------ sitemap URLs

  /** The sitemap lists 3 + 2 * |pages| URLs: the root page, the English and
      the Arabic home page, then for each page in inventory order its English
      file followed by its Arabic file. */
  lemma {:induction false} SitemapUrlsOrder(base: string, pages: seq<Page>)
    ensures |SitemapUrls(base, pages)| == 3 + 2 * |pages|
    ensures SitemapUrls(base, pages)[0] == base + "/index.html"
    ensures SitemapUrls(base, pages)[1] == base + "/en/index.html"
    ensures SitemapUrls(base, pages)[2] == base + "/ar/index.html"
    ensures forall k :: 0 <= k < |pages| ==>
              SitemapUrls(base, pages)[3 + 2 * k] == base + "/en/" + pages[k].slug + ".html"
              && SitemapUrls(base, pages)[4 + 2 * k] == base + "/ar/" + pages[k].slug + ".html"
    decreases |pages|
  {
    var urls := SitemapUrls(base, pages);
    if pages == [] {
      assert HomeUrl(base, "en") == base + "/en/index.html";
      assert HomeUrl(base, "ar") == base + "/ar/index.html";
    } else {
      var n := |pages| - 1;
      var init := pages[..n];
      SitemapUrlsOrder(base, init);
      var pre := SitemapUrls(base, init);
      assert urls == pre + [Canonical(base, "en", pages[n].slug)] + [Canonical(base, "ar", pages[n].slug)];
      forall k | 0 <= k < |pages|
        ensures urls[3 + 2 * k] == base + "/en/" + pages[k].slug + ".html"
        ensures urls[4 + 2 * k] == base + "/ar/" + pages[k].slug + ".html"
      {
        if k < n {
          assert init[k] == pages[k];
          assert urls[3 + 2 * k] == pre[3 + 2 * k] && urls[4 + 2 * k] == pre[4 + 2 * k];
        } else {
          CanonicalForms(base, pages[k].slug);
        }
      }
    }
  }

  /** The canonical URLs of a page's two files. */
  lemma CanonicalForms(base: string, slug: string)
    ensures Canonical(base, "en", slug) == base + "/en/" + slug + ".html"
    ensures Canonical(base, "ar", slug) == base + "/ar/" + slug + ".html"
  {
    assert "/" + "en" + "/" == "/en/" && "/" + "ar" + "/" == "/ar/";
  }

  /** The page inventory's slugs are pairwise distinct and none is "index". */
  predicate SlugsOk(pages: seq<Page>) {
    (forall i, j :: 0 <= i < j < |pages| ==> pages[i].slug != pages[j].slug)
    && (forall i :: 0 <= i < |pages| ==> pages[i].slug != "index")
  }

  /** A URL of a language file determines the language and the slug. */
  lemma CanonicalInjective(base: string, l1: string, s1: string, l2: string, s2: string)
    requires |l1| == 2 && |l2| == 2
    requires Canonical(base, l1, s1) == Canonical(base, l2, s2)
    ensures l1 == l2 && s1 == s2
  {
    var c1, c2 := Canonical(base, l1, s1), Canonical(base, l2, s2);
    var b := |base| + 1;
    assert c1[b..b + 2] == l1 && c2[b..b + 2] == l2;
    assert |s1| == |s2|;
    assert c1[b + 3..b + 3 + |s1|] == s1 && c2[b + 3..b + 3 + |s2|] == s2;
  }

  /** The root page's URL is not the URL of any language file. */
  lemma RootNotCanonical(base: string, lang: string, slug: string)
    requires |lang| == 2
    ensures base + "/index.html" != Canonical(base, lang, slug)
  {
    var r, c := base + "/index.html", Canonical(base, lang, slug);
    assert r[|base| + 3] == 'd';
    assert c[|base| + 3] == '/';
  }

  /** The language directory of the sitemap URL at position i >= 1. */
  function UrlLang(i: nat): string {
    if i == 1 then "en" else if i == 2 then "ar" else if (i - 3) % 2 == 0 then "en" else "ar"
  }

  /** The file stem of the sitemap URL at position i >= 1. */
  function UrlSlug(pages: seq<Page>, i: nat): string
    requires 1 <= i < 3 + 2 * |pages|
  {
    if i <= 2 then "index" else pages[(i - 3) / 2].slug
  }

  lemma SitemapUrlAt(base: string, pages: seq<Page>, i: nat)
    requires 1 <= i < 3 + 2 * |pages|
    ensures |SitemapUrls(base, pages)| == 3 + 2 * |pages|
    ensures SitemapUrls(base, pages)[i] == Canonical(base, UrlLang(i), UrlSlug(pages, i))
  {
    SitemapUrlsOrder(base, pages);
    if i > 2 {
      var k := (i - 3) / 2;
      assert i == 3 + 2 * k || i == 4 + 2 * k;
    }
  }

  /** With pairwise distinct slugs, none of them "index", no URL appears twice in the sitemap. */
  lemma SitemapUrlsDistinct(base: string, pages: seq<Page>)
    requires SlugsOk(pages)
    ensures Distinct(SitemapUrls(base, pages))
  {
    var urls := SitemapUrls(base, pages);
    SitemapUrlsOrder(base, pages);
    forall i, j | 0 <= i < j < |urls|
      ensures urls[i] != urls[j]
    {
      SitemapUrlAt(base, pages, j);
      if i == 0 {
        RootNotCanonical(base, UrlLang(j), UrlSlug(pages, j));
      } else {
        SitemapUrlAt(base, pages, i);
        if urls[i] == urls[j] {
          CanonicalInjective(base, UrlLang(i), UrlSlug(pages, i), UrlLang(j), UrlSlug(pages, j));
          UrlPositionsDiffer(pages, i, j);
        }
      }
    }
  }

  /** Two different positions from 1 on carry different (language, slug) pairs. */
  lemma UrlPositionsDiffer(pages: seq<Page>, i: nat, j: nat)
    requires SlugsOk(pages)
    requires 1 <= i < j < 3 + 2 * |pages|
    ensures UrlLang(i) != UrlLang(j) || UrlSlug(pages, i) != UrlSlug(pages, j)
  {
    if j <= 2 {
    } else if i <= 2 {
      assert pages[(j - 3) / 2].slug != "index";
    } else if (i - 3) / 2 == (j - 3) / 2 {
      assert (i - 3) % 2 != (j - 3) % 2;
    } else {
      assert (i - 3) / 2 < (j - 3) / 2;
    }
  }

  // ------------------------------------------------------------ sitemap lines

  /** Four lines per URL, in URL order. */
  lemma {:induction false} UrlLinesShape(urls: seq<string>, today: string)
    ensures |UrlLines(urls, today)| == 4 * |urls|
    ensures forall k :: 0 <= k < |urls| ==> UrlLines(urls, today)[4 * k..4 * k + 4] == UrlEntry(urls[k], today)
    decreases |urls|
  {
    if urls != [] {
      var n := |urls| - 1;
      UrlLinesShape(urls[..n], today);
      var pre := UrlLines(urls[..n], today);
      var last := UrlEntry(urls[n], today);
      var all := UrlLines(urls, today);
      assert all == pre + last;
      forall k | 0 <= k < |urls|
        ensures all[4 * k..4 * k + 4] == UrlEntry(urls[k], today)
      {
        if k < n {
          assert urls[..n][k] == urls[k];
          SliceOfPrefix(pre, last, 4 * k, 4 * k + 4);
        } else {
          assert all[4 * k..4 * k + 4] == all[|pre|..];
        }
      }
    }
  }

  /** `sitemap.xml` has 4 * |urls| + 3 lines: the XML declaration, the
      `urlset` opening tag, the four-line entry of each URL in URL order,
      then `</urlset>`. */
  lemma SitemapLinesShape(urls: seq<string>, today: string)
    ensures |SitemapLines(urls, today)| == 4 * |urls| + 3
    ensures SitemapLines(urls, today)[0] == XmlDeclaration
    ensures SitemapLines(urls, today)[1] == UrlsetOpen
    ensures forall k :: 0 <= k < |urls| ==>
              SitemapLines(urls, today)[2 + 4 * k..6 + 4 * k] == UrlEntry(urls[k], today)
    ensures SitemapLines(urls, today)[4 * |urls| + 2] == "</urlset>"
  {
    UrlLinesShape(urls, today);
    var head := [XmlDeclaration, UrlsetOpen];
    var body := UrlLines(urls, today);
    forall k | 0 <= k < |urls|
      ensures SitemapLines(urls, today)[2 + 4 * k..6 + 4 * k] == UrlEntry(urls[k], today)
    {
      SliceOfMiddle(head, body, ["</urlset>"], 4 * k, 4 * k + 4);
    }
  }

  /** The entry of URL k: `<url>`, its location, the date, `</url>`. */
  lemma EntryLines(urls: seq<string>, today: string, k: nat)
    requires k < |urls|
    ensures |SitemapLines(urls, today)| == 4 * |urls| + 3
    ensures SitemapLines(urls, today)[2 + 4 * k] == "  <url>"
    ensures SitemapLines(urls, today)[3 + 4 * k] == "    <loc>" + urls[k] + "</loc>"
    ensures SitemapLines(urls, today)[4 + 4 * k] == "    <lastmod>" + today + "</lastmod>"
    ensures SitemapLines(urls, today)[5 + 4 * k] == "  </url>"
  {
    SitemapLinesShape(urls, today);
    var lines := SitemapLines(urls, today);
    var e := lines[2 + 4 * k..6 + 4 * k];
    assert e == UrlEntry(urls[k], today);
    assert lines[2 + 4 * k] == e[0] && lines[3 + 4 * k] == e[1];
    assert lines[4 + 4 * k] == e[2] && lines[5 + 4 * k] == e[3];
  }

  /** No line of one entry contains a newline. */
  lemma UrlEntryNoNewline(u: string, today: string)
    requires '\n' !in u && '\n' !in today
    ensures forall x :: x in UrlEntry(u, today) ==> '\n' !in x
  {
    NoNewlineWrapped("    <loc>", u, "</loc>");
    NoNewlineWrapped("    <lastmod>", today, "</lastmod>");
  }

  lemma NoNewlineWrapped(a: string, x: string, b: string)
    requires '\n' !in a && '\n' !in x && '\n' !in b
    ensures '\n' !in a + x + b
  {
  }

  /** No sitemap line contains a newline, given that no URL and not the date does. */
  lemma {:induction false} UrlLinesNoNewline(urls: seq<string>, today: string)
    requires forall k :: 0 <= k < |urls| ==> '\n' !in urls[k]
    requires '\n' !in today
    ensures forall x :: x in UrlLines(urls, today) ==> '\n' !in x
    decreases |urls|
  {
    if urls != [] {
      var n := |urls| - 1;
      assert forall k :: 0 <= k < n ==> urls[..n][k] == urls[k];
      UrlLinesNoNewline(urls[..n], today);
      UrlEntryNoNewline(urls[n], today);
      assert UrlLines(urls, today) == UrlLines(urls[..n], today) + UrlEntry(urls[n], today);
    }
  }

  lemma SitemapLinesNoNewline(urls: seq<string>, today: string)
    requires forall k :: 0 <= k < |urls| ==> '\n' !in urls[k]
    requires '\n' !in today
    ensures forall x :: x in SitemapLines(urls, today) ==> '\n' !in x
  {
    UrlLinesNoNewline(urls, today);
    HeaderNoNewline();
  }

  lemma HeaderNoNewline()
    ensures '\n' !in XmlDeclaration && '\n' !in UrlsetOpen && '\n' !in "</urlset>"
  {
  }

  /** Splitting `sitemap.xml` at its newlines gives back exactly its lines,
      and the text ends with `</urlset>`: no newline follows the last line. */
  lemma SitemapXmlLines(urls: seq<string>, today: string)
    requires forall k :: 0 <= k < |urls| ==> '\n' !in urls[k]
    requires '\n' !in today
    ensures Split(SitemapXml(urls, today), '\n') == SitemapLines(urls, today)
    ensures EndsWith(SitemapXml(urls, today), "</urlset>")
  {
    SitemapLinesNoNewline(urls, today);
    SitemapLinesShape(urls, today);
    SplitJoin(SitemapLines(urls, today), '\n');
    JoinEndsWith(SitemapLines(urls, today), "\n");
  }

  // ------------------------------------------------------------ robots.txt

  /** `robots.txt` is three lines, each ended by a newline (so splitting
      leaves an empty last piece): the user agent `User-agent: *`, the
      allow rule `Allow: /` and the sitemap location under base. */
  lemma RobotsLines(base: string)
    requires '\n' !in base
    ensures Split(RobotsTxt(base), '\n') == [RobotsAgent, RobotsAllow, "Sitemap: " + base + "/sitemap.xml", ""]
  {
    var c := RobotsSitemap(base);
    assert '\n' !in c;
    assert '\n' !in RobotsAgent && '\n' !in RobotsAllow;
    var l3 := c + "\n";
    var l2 := RobotsAllow + "\n" + l3;
    assert l3 == c + ['\n'] + "";
    SplitCons(c, '\n', "");
    assert Split(l3, '\n') == [c, ""];
    SplitCons(RobotsAllow, '\n', l3);
    SplitCons(RobotsAgent, '\n', l2);
  }

  /** `robots.txt` ends with a newline. */
  lemma RobotsEndsWithNewline(base: string)
    ensures EndsWith(RobotsTxt(base), "\n")
  {
    EndsWithConcat(RobotsAgent + "\n" + (RobotsAllow + "\n" + RobotsSitemap(base)), "\n");
  }

  // ------------------------------------------------------------ hreflang block

  /** The hreflang block is empty exactly when no pairs are given
      (`None` or an empty list). */
  lemma HreflangTagsEmpty(links: Option<seq<Alternate>>)
    ensures HreflangTags(links) == "" <==> links.None? || links.value == []
  {
    if links.Some? && links.value != [] {
      var es := HreflangEntries(links.value);
      FlattenStartsWith(es);
      assert |es[0]| > 0;
    }
  }

  /** The block of a list of pairs is the block of its first part
      followed by the block of the rest: the pairs appear in input order. */
  lemma HreflangTagsAppend(a: seq<Alternate>, b: seq<Alternate>)
    ensures HreflangTags(Some(a + b)) == HreflangTags(Some(a)) + HreflangTags(Some(b))
  {
    assert HreflangEntries(a + b) == HreflangEntries(a) + HreflangEntries(b);
    FlattenAppend(HreflangEntries(a), HreflangEntries(b));
  }

  /** One pair gives one `<link rel="alternate">` element and the
      indentation before the next head line. */
  lemma HreflangTagsOne(x: Alternate)
    ensures HreflangTags(Some([x])) == AlternateLink(x) + "\n    "
  {
    assert HreflangEntries([x]) == [AlternateLink(x) + "\n    "];
    FlattenOne(AlternateLink(x) + "\n    ");
  }

  // ------------------------------------------------------------ rendered page

  /** Every piece of the template sits somewhere in the filled-in page. */
  lemma TemplatePartOccurs(biz: Business, year: string, title: string, description: string,
                           canonical: string, bodyHtml: string, lang: string, tags: string, k: nat)
    requires k < PartCount
    ensures Occurs(PagePart(k, biz, year, title, description, canonical, bodyHtml, lang, tags),
                   FillTemplate(biz, year, title, description, canonical, bodyHtml, lang, tags))
  {
    var parts := PageParts(biz, year, title, description, canonical, bodyHtml, lang, tags);
    OccursInFlatten(parts, k);
  }

  /** A rendered page opens with the doctype and closes with `</html>`. */
  lemma PageFrame(biz: Business, year: string, title: string, description: string,
                  canonical: string, bodyHtml: string, lang: string, tags: string)
    ensures StartsWith(FillTemplate(biz, year, title, description, canonical, bodyHtml, lang, tags), "<!doctype html>\n")
    ensures EndsWith(FillTemplate(biz, year, title, description, canonical, bodyHtml, lang, tags), "\n</footer>\n</body>\n</html>\n")
  {
    var parts := PageParts(biz, year, title, description, canonical, bodyHtml, lang, tags);
    FlattenStartsWith(parts);
    FlattenEndsWith(parts);
    assert parts[0] == Doctype;
    assert parts[PartCount - 1] == PageEnd;
    FrameLiterals();
  }

  /** The first and last template pieces written out. */
  lemma FrameLiterals()
    ensures Doctype == "<!doctype html>\n"
    ensures PageEnd == "\n</footer>\n</body>\n</html>\n"
  {
    assert "\n</footer>" + "\n</body>" + "\n</html>\n" == "\n</footer>\n</body>\n</html>\n";
  }

  /** A rendered page embeds each input verbatim: the language on the
      `<html>` tag, the title in `<title>`, the description in the meta
      description, the canonical URL in the canonical link and in `og:url`,
      the hreflang block, and the body inside `<main>`. */
  lemma PageEmbedsInputs(biz: Business, year: string, title: string, description: string,
                         canonical: string, bodyHtml: string, lang: string,
                         links: Option<seq<Alternate>>)
    ensures var page := RenderPage(biz, year, title, description, canonical, bodyHtml, lang, links);
      && Occurs(HtmlOpen(lang), page)
      && Occurs(Element("title", title), page)
      && Occurs(MetaName("description", description), page)
      && Occurs(LinkRel("canonical", canonical), page)
      && Occurs(MetaProperty("og:url", canonical), page)
      && Occurs(HreflangTags(links), page)
      && Occurs(Element("main", "\n" + bodyHtml + "\n"), page)
  {
    var tags := HreflangTags(links);
    TemplatePartOccurs(biz, year, title, description, canonical, bodyHtml, lang, tags, 1);
    TemplatePartOccurs(biz, year, title, description, canonical, bodyHtml, lang, tags, 3);
    TemplatePartOccurs(biz, year, title, description, canonical, bodyHtml, lang, tags, 5);
    TemplatePartOccurs(biz, year, title, description, canonical, bodyHtml, lang, tags, 9);
    TemplatePartOccurs(biz, year, title, description, canonical, bodyHtml, lang, tags, 11);
    TemplatePartOccurs(biz, year, title, description, canonical, bodyHtml, lang, tags, 19);
    TemplatePartOccurs(biz, year, title, description, canonical, bodyHtml, lang, tags, 29);
  }

  // ------------------------------------------------------------ product pages

  lemma PagePathForm(lang: string, slug: string)
    ensures LangFile(lang, slug + ".html") == lang + "/" + slug + ".html"
  {
  }

  /** A product page is written to `<lang>/<slug>.html`, its canonical link is
      `base + "/<lang>/" + slug + ".html"`, and its body appears both inside
      `<main>` and, as the builder does, as the meta description. */
  lemma EnPageFacts(biz: Business, year: string, p: Page)
    ensures var doc := EnPageDocument(biz, year, p);
      && doc.path == "en/" + p.slug + ".html"
      && Occurs(LinkRel("canonical", Base(biz.mainUrl) + "/en/" + p.slug + ".html"), doc.content)
      && Occurs(MetaName("description", EnPageBody(biz, p)), doc.content)
      && Occurs(Element("main", "\n" + EnPageBody(biz, p) + "\n"), doc.content)
  {
    var body := EnPageBody(biz, p);
    var canonical := Canonical(Base(biz.mainUrl), "en", p.slug);
    PagePathForm("en", p.slug);
    CanonicalForms(Base(biz.mainUrl), p.slug);
    PageEmbedsInputs(biz, year, p.titleEn + " — " + biz.nameEn, body, canonical, body, "en", None);
  }

  lemma ArPageFacts(biz: Business, year: string, p: Page)
    ensures var doc := ArPageDocument(biz, year, p);
      && doc.path == "ar/" + p.slug + ".html"
      && Occurs(LinkRel("canonical", Base(biz.mainUrl) + "/ar/" + p.slug + ".html"), doc.content)
      && Occurs(MetaName("description", ArPageBody(biz, p)), doc.content)
      && Occurs(Element("main", "\n" + ArPageBody(biz, p) + "\n"), doc.content)
  {
    var body := ArPageBody(biz, p);
    var canonical := Canonical(Base(biz.mainUrl), "ar", p.slug);
    PagePathForm("ar", p.slug);
    CanonicalForms(Base(biz.mainUrl), p.slug);
    PageEmbedsInputs(biz, year, p.titleAr + " — " + biz.nameEn, body, canonical, body, "ar", None);
  }

  // ------------------------------------------------------------ home pages

  /** The English home list items, one per page, in inventory order. */
  function EnHomeItems(pages: seq<Page>): seq<string> {
    seq(|pages|, k requires 0 <= k < |pages| => EnHomeItem(pages[k]))
  }

  /** The Arabic home list items, one per page, in inventory order. */
  function ArHomeItems(pages: seq<Page>): seq<string> {
    seq(|pages|, k requires 0 <= k < |pages| => ArHomeItem(pages[k]))
  }

  /** The English home body up to its tail is its heading and `<ul>`
      followed by one `<li>` link per page, in inventory order. */
  lemma {:induction false} EnHomeOpenBodyPieces(pages: seq<Page>)
    ensures EnHomeOpenBody(pages) == Flatten([EnHomeHead] + EnHomeItems(pages))
    decreases |pages|
  {
    if pages == [] {
      assert [EnHomeHead] + EnHomeItems(pages) == [EnHomeHead];
      FlattenOne(EnHomeHead);
    } else {
      var n := |pages| - 1;
      EnHomeOpenBodyPieces(pages[..n]);
      var pre := [EnHomeHead] + EnHomeItems(pages[..n]);
      assert [EnHomeHead] + EnHomeItems(pages) == pre + [EnHomeItem(pages[n])];
      FlattenSnoc(pre, EnHomeItem(pages[n]));
    }
  }

  /** The same for the Arabic home body. */
  lemma {:induction false} ArHomeOpenBodyPieces(pages: seq<Page>)
    ensures ArHomeOpenBody(pages) == Flatten([ArHomeHead] + ArHomeItems(pages))
    decreases |pages|
  {
    if pages == [] {
      assert [ArHomeHead] + ArHomeItems(pages) == [ArHomeHead];
      FlattenOne(ArHomeHead);
    } else {
      var n := |pages| - 1;
      ArHomeOpenBodyPieces(pages[..n]);
      var pre := [ArHomeHead] + ArHomeItems(pages[..n]);
      assert [ArHomeHead] + ArHomeItems(pages) == pre + [ArHomeItem(pages[n])];
      FlattenSnoc(pre, ArHomeItem(pages[n]));
    }
  }

  /** Every page has its item in the English home body. */
  lemma EnHomeItemOccurs(biz: Business, pages: seq<Page>, k: nat)
    requires k < |pages|
    ensures Occurs(EnHomeItem(pages[k]), EnHomeBody(biz, pages))
  {
    EnHomeOpenBodyPieces(pages);
    var en := [EnHomeHead] + EnHomeItems(pages);
    assert en[k + 1] == EnHomeItem(pages[k]);
    OccursInFlatten(en, k + 1);
    OccursExtend(EnHomeItem(pages[k]), EnHomeOpenBody(pages), EnHomeTail(biz));
  }

  /** Every page has its item in the Arabic home body. */
  lemma ArHomeItemOccurs(biz: Business, pages: seq<Page>, k: nat)
    requires k < |pages|
    ensures Occurs(ArHomeItem(pages[k]), ArHomeBody(biz, pages))
  {
    ArHomeOpenBodyPieces(pages);
    var ar := [ArHomeHead] + ArHomeItems(pages);
    assert ar[k + 1] == ArHomeItem(pages[k]);
    OccursInFlatten(ar, k + 1);
    OccursExtend(ArHomeItem(pages[k]), ArHomeOpenBody(pages), ArHomeTail(biz));
  }

  /** An English home-page item links to the page's English file; its
      text is the English title then the Arabic one. */
  lemma EnHomeItemForm(p: Page)
    ensures EnHomeItem(p) == Element("li", Anchor("/en/" + p.slug + ".html", p.titleEn + " — " + p.titleAr)) + "\n"
  {
    LangFilePath("en", p.slug + ".html");
  }

  /** An Arabic home-page item links to the page's Arabic file; its text
      is the Arabic title then the English one. */
  lemma ArHomeItemForm(p: Page)
    ensures ArHomeItem(p) == Element("li", Anchor("/ar/" + p.slug + ".html", p.titleAr + " — " + p.titleEn)) + "\n"
  {
    LangFilePath("ar", p.slug + ".html");
  }

  lemma LangFilePath(lang: string, file: string)
    ensures "/" + LangFile(lang, file) == "/" + lang + "/" + file
  {
  }

  /** Both home bodies end with the contact paragraph and its `tel:` link. */
  lemma HomeBodyTails(biz: Business, pages: seq<Page>)
    ensures EndsWith(EnHomeBody(biz, pages), EnHomeTail(biz))
    ensures EndsWith(ArHomeBody(biz, pages), ArHomeTail(biz))
    ensures EndsWith(EnHomeTail(biz), TelAnchor(biz.phone) + "</p>")
    ensures EndsWith(ArHomeTail(biz), TelAnchor(biz.phone) + "</p>")
  {
    EndsWithConcat(EnHomeOpenBody(pages), EnHomeTail(biz));
    EndsWithConcat(ArHomeOpenBody(pages), ArHomeTail(biz));
    var tel := TelAnchor(biz.phone);
    assert EnHomeTail(biz)[|EnHomeTail(biz)| - |tel + "</p>"|..] == tel + "</p>";
    assert ArHomeTail(biz)[|ArHomeTail(biz)| - |tel + "</p>"|..] == tel + "</p>";
  }

  // ------------------------------------------------------------ root page

  /** The root `index.html`: its path, and its canonical is the main URL
      exactly as configured, not stripped; its hreflang block occurs in it. */
  lemma RootPageFacts(biz: Business, year: string)
    ensures var doc := RootDocument(biz, year);
      && doc.path == "index.html"
      && Occurs(LinkRel("canonical", biz.mainUrl), doc.content)
      && Occurs(HreflangTags(Some(RootAlternates(Base(biz.mainUrl)))), doc.content)
  {
    PageEmbedsInputs(biz, year, biz.nameEn + " — Landing", biz.descriptionEn, biz.mainUrl,
                     RootBody(biz.mainUrl), "en", Some(RootAlternates(Base(biz.mainUrl))));
  }

  /** The English home page is written to `en/index.html`; its canonical
      link is `base + "/en/index.html"`, its meta description is the
      business description, and the home body sits inside `<main>`. */
  lemma EnHomeFacts(biz: Business, year: string, pages: seq<Page>)
    ensures var doc := EnHomeDocument(biz, year, pages);
      && doc.path == "en/index.html"
      && Occurs(LinkRel("canonical", Base(biz.mainUrl) + "/en/index.html"), doc.content)
      && Occurs(MetaName("description", biz.descriptionEn), doc.content)
      && Occurs(Element("main", "\n" + EnHomeBody(biz, pages) + "\n"), doc.content)
  {
    var base := Base(biz.mainUrl);
    HomePaths();
    HomeUrlForms(base);
    PageEmbedsInputs(biz, year, biz.nameEn + " — Home", biz.descriptionEn,
                     HomeUrl(base, "en"), EnHomeBody(biz, pages), "en", None);
  }

  /** The same for the Arabic home page at `ar/index.html`. */
  lemma ArHomeFacts(biz: Business, year: string, pages: seq<Page>)
    ensures var doc := ArHomeDocument(biz, year, pages);
      && doc.path == "ar/index.html"
      && Occurs(LinkRel("canonical", Base(biz.mainUrl) + "/ar/index.html"), doc.content)
      && Occurs(MetaName("description", biz.descriptionAr), doc.content)
      && Occurs(Element("main", "\n" + ArHomeBody(biz, pages) + "\n"), doc.content)
  {
    var base := Base(biz.mainUrl);
    HomePaths();
    HomeUrlForms(base);
    PageEmbedsInputs(biz, year, biz.nameAr + " — الصفحة الرئيسية", biz.descriptionAr,
                     HomeUrl(base, "ar"), ArHomeBody(biz, pages), "ar", None);
  }

  /** The two home-page URLs written out. */
  lemma HomeUrlForms(base: string)
    ensures HomeUrl(base, "en") == base + "/en/index.html"
    ensures HomeUrl(base, "ar") == base + "/ar/index.html"
  {
    assert "/" + "en" + "/" == "/en/" && "/" + "ar" + "/" == "/ar/";
  }

  /** The root page's hreflang block has exactly two links, English then
      Arabic, to the two home pages. */
  lemma RootAlternatesTags(base: string)
    ensures HreflangTags(Some(RootAlternates(base)))
         == AlternateLink(Alternate(base + "/en/index.html", "en")) + "\n    "
          + AlternateLink(Alternate(base + "/ar/index.html", "ar")) + "\n    "
  {
    HomeUrlForms(base);
    var alts := RootAlternates(base);
    assert alts == [alts[0]] + [alts[1]];
    HreflangTagsAppend([alts[0]], [alts[1]]);
    HreflangTagsOne(alts[0]);
    HreflangTagsOne(alts[1]);
  }

  /** The root page's two alternates are the second and third sitemap URLs. */
  lemma RootAlternatesInSitemap(base: string, pages: seq<Page>)
    ensures |SitemapUrls(base, pages)| >= 3
    ensures RootAlternates(base)[0].href == SitemapUrls(base, pages)[1]
    ensures RootAlternates(base)[1].href == SitemapUrls(base, pages)[2]
  {
    SitemapUrlsOrder(base, pages);
  }

  // ------------------------------------------------------------ the whole site

  /** The page files come in inventory order, English then Arabic. */
  lemma {:induction false} PageDocumentsShape(biz: Business, year: string, pages: seq<Page>)
    ensures |PageDocuments(biz, year, pages)| == 2 * |pages|
    ensures forall k :: 0 <= k < |pages| ==>
              PageDocuments(biz, year, pages)[2 * k] == EnPageDocument(biz, year, pages[k])
              && PageDocuments(biz, year, pages)[2 * k + 1] == ArPageDocument(biz, year, pages[k])
    decreases |pages|
  {
    if pages != [] {
      var n := |pages| - 1;
      PageDocumentsShape(biz, year, pages[..n]);
      var pre := PageDocuments(biz, year, pages[..n]);
      var all := PageDocuments(biz, year, pages);
      assert all == pre + [EnPageDocument(biz, year, pages[n])] + [ArPageDocument(biz, year, pages[n])];
      forall k | 0 <= k < n
        ensures all[2 * k] == EnPageDocument(biz, year, pages[k])
        ensures all[2 * k + 1] == ArPageDocument(biz, year, pages[k])
      {
        assert pages[..n][k] == pages[k];
        assert all[2 * k] == pre[2 * k] && all[2 * k + 1] == pre[2 * k + 1];
      }
    }
  }

  /** The site is 2 * |pages| + 7 files: the page files, then the seven
      files `SiteFiles` lists. */
  lemma SiteDocumentsShape(biz: Business, pages: seq<Page>, today: string, year: string)
    ensures |SiteDocuments(biz, pages, today, year)| == 2 * |pages| + 7
    ensures SiteDocuments(biz, pages, today, year)[..2 * |pages|] == PageDocuments(biz, year, pages)
    ensures SiteDocuments(biz, pages, today, year)[2 * |pages|..] == SiteFiles(biz, pages, today, year)
  {
    PageDocumentsShape(biz, year, pages);
  }

  /** Those seven start with the two home pages, English first... */
  lemma HomeFilePaths(biz: Business, pages: seq<Page>, today: string, year: string)
    ensures var files := SiteFiles(biz, pages, today, year);
      && |files| == 7
      && files[0].path == "en/index.html"
      && files[1].path == "ar/index.html"
  {
    HomePaths();
  }

  /** ...then the root page... */
  lemma RootFilePath(biz: Business, pages: seq<Page>, today: string, year: string)
    ensures var files := SiteFiles(biz, pages, today, year);
      && |files| == 7
      && files[2].path == "index.html"
  {
  }

  /** ...and go on with the sitemap, robots.txt, the verification file
      and CNAME, in that order. */
  lemma OtherFilePaths(biz: Business, pages: seq<Page>, today: string, year: string)
    ensures var files := SiteFiles(biz, pages, today, year);
      && |files| == 7
      && files[3].path == "sitemap.xml"
      && files[4].path == "robots.txt"
      && files[5].path == VerificationFile
      && files[6].path == "CNAME"
  {
  }

  /** The two home pages' file names written out. */
  lemma HomePaths()
    ensures LangFile("en", "index.html") == "en/index.html"
    ensures LangFile("ar", "index.html") == "ar/index.html"
  {
    assert "en" + "/" + "index.html" == "en/index.html";
    assert "ar" + "/" + "index.html" == "ar/index.html";
  }

  // ------------------------------------------------------------ the configured site

  /** The configured main URL ends in one slash, so the base is the URL
      without it. */
  lemma AlforsaBase()
    ensures Base(Alforsa.mainUrl) == "https://alforsa.sa"
  {
    var s := Alforsa.mainUrl;
    var r := Base(s);
    assert |s| == 19 && s[18] == '/' && s[17] == 'a';
    assert |r| == 18;
    assert r == s[..18];
  }

  /** The configured inventory has distinct slugs, none of them "index". */
  lemma AlforsaSlugsOk()
    ensures SlugsOk(AlforsaPages)
  {
  }

  /** So the configured sitemap lists 15 URLs, all different. */
  lemma AlforsaSitemapUrls()
    ensures var urls := SitemapUrls(Base(Alforsa.mainUrl), AlforsaPages);
      |urls| == 15 && Distinct(urls)
  {
    AlforsaSlugsOk();
    SitemapUrlsOrder(Base(Alforsa.mainUrl), AlforsaPages);
    SitemapUrlsDistinct(Base(Alforsa.mainUrl), AlforsaPages);
  }
}
