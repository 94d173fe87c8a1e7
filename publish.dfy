/** The text that the Alforsa site builder writes: every page through one
    HTML template, the two home pages with their link lists, the root
    landing page, `sitemap.xml` and `robots.txt`. The documents are values
    (a relative path and its text); the build date and the copyright year
    are parameters. */
module Publish {
  import opened Text

  /** The business profile (`BUSINESS`). */
  datatype Business = Business(
    nameEn: string,
    nameAr: string,
    phone: string,
    mainUrl: string,
    descriptionEn: string,
    descriptionAr: string,
    streetAddress: string,
    currency: string)

  /** One entry of the page inventory (`PAGES`). */
  datatype Page = Page(slug: string, titleEn: string, titleAr: string)

  /** One `(href, hreflang)` pair handed to the page template. */
  datatype Alternate = Alternate(href: string, hreflang: string)

  /** A file of the output tree: its path below the output directory and its text. */
  datatype Document = Document(path: string, content: string)

  const Alforsa := Business(
    "Alforsa Ice Cream Machines",
    "الفرصة لمكائن الآيس كريم",
    "+966509995448",
    "https://alforsa.sa/",
    "Supplier of soft serve ice cream machines, slush machines, spare parts and maintenance in Saudi Arabia and worldwide.",
    "مورد ماكينات الآيس كريم السوفتر، ماكينات سلاش، قطع غيار وصيانة في السعودية وحول العالم.",
    "Riyadh, Saudi Arabia",
    "SAR")

  const AlforsaPages: seq<Page> := [
    Page("soft-serve-ice-cream-machine", "Soft Serve Ice Cream Machine", "ماكينة آيس كريم سوفت سيرف"),
    Page("alforsa-ice-cream-machine", "Alforsa Ice Cream Machine", "ماكينة آيس كريم الفرصة"),
    Page("slush-machine", "Slush Machine", "ماكينة سلاش"),
    Page("3-burner-slush-machine", "3 Burner Slush Machine", "ماكينة سلاش بثلاث شعلات"),
    Page("spare-parts", "Spare Parts", "قطع غيار"),
    Page("maintenance", "Maintenance & Service", "الصيانة والخدمة")
  ]

  // ------------------------------------------------------------ URLs, paths

  /** `main_url.rstrip("/")` */
  function Base(mainUrl: string): string {
    RStrip(mainUrl, '/')
  }

  /** The path of a file in a language directory, relative to the output root. */
  function LangFile(lang: string, file: string): string {
    lang + "/" + file
  }

  /** The canonical URL of a page file: base, "/", lang, "/", slug, ".html". */
  function Canonical(base: string, lang: string, slug: string): string {
    base + "/" + LangFile(lang, slug + ".html")
  }

  /** The URL of a home page: base, "/", lang, "/index.html". */
  function HomeUrl(base: string, lang: string): string {
    base + "/" + LangFile(lang, "index.html")
  }

  // ------------------------------------------------------------ HTML pieces

  function Element(name: string, inner: string): string {
    "<" + name + ">" + inner + "</" + name + ">"
  }

  function Anchor(href: string, text: string): string {
    "<a href=\"" + href + "\">" + text + "</a>"
  }

  function MetaName(name: string, content: string): string {
    "<meta name=\"" + name + "\" content=\"" + content + "\">"
  }

  function MetaProperty(property: string, content: string): string {
    "<meta property=\"" + property + "\" content=\"" + content + "\">"
  }

  function LinkRel(rel: string, href: string): string {
    "<link rel=\"" + rel + "\" href=\"" + href + "\">"
  }

  function HtmlOpen(lang: string): string {
    "<html lang=\"" + lang + "\">"
  }

  function AlternateLink(a: Alternate): string {
    "<link rel=\"alternate\" href=\"" + a.href + "\" hreflang=\"" + a.hreflang + "\">"
  }

  /** The keywords meta content, written in pieces (the literal is one
      string in the Python builder). */
  const Keywords := "Alforsa, " + "الفرصة, " + "ice cream machine, " + "soft serve, " + "slush, "
                    + "slush machine, " + "spare parts, " + "maintenance, " + "3 burner slush"

  /** The inline style sheet, in pieces. */
  const Style := "<style>" + "body{" + "font-family:" + "Arial,Helvetica," + "sans-serif;"
                 + "max-width:960px;" + "margin:20px auto;" + "padding:0 16px;" + "line-height:1.5}"
                 + " header h1{" + "font-size:1.6rem}" + " footer{" + "margin-top:40px;" + "color:#444}"
                 + "</style>"

  /** The phone as a `tel:` link followed by the main URL as a link. */
  function ContactLinks(biz: Business, phoneLabel: string, websiteLabel: string): string {
    phoneLabel + Anchor("tel:" + biz.phone, biz.phone) + " | " + websiteLabel + Anchor(biz.mainUrl, biz.mainUrl)
  }

  // ------------------------------------------------------------ page template

  /** The hreflang entries, one per pair, each followed by the
      indentation of the next head line. */
  function HreflangEntries(links: seq<Alternate>): seq<string> {
    seq(|links|, k requires 0 <= k < |links| => AlternateLink(links[k]) + "\n    ")
  }

  /** The hreflang block of a page; empty for `None`, as for an empty list. */
  function HreflangTags(links: Option<seq<Alternate>>): string {
    match links
    case None => ""
    case Some(ls) => Flatten(HreflangEntries(ls))
  }

  const Doctype := "<!doctype html>\n"
  const HeadStart := "\n<head>\n  " + "<meta charset=" + "\"utf-8\">\n  " + "<meta name=" + "\"viewport\" "
                     + "content=\"" + "width=" + "device-width," + "initial-scale=1" + "\">\n  "
  const Break := "\n  "
  const HeadEnd := "\n  " + Style + "\n</head>" + "\n<body>" + "\n<header>\n  "
  const HeaderEnd := "\n  <hr>\n</header>\n"
  const FooterStart := "\n<footer>\n  "
  const PageEnd := "\n</footer>" + "\n</body>" + "\n</html>\n"

  /** Piece k of the page template, which is cut into pieces at the
      interpolated values. */
  function PagePart(k: nat, biz: Business, year: string, title: string, description: string,
                    canonical: string, bodyHtml: string, lang: string, tags: string): string
    requires k < PartCount
  {
    match k
    case 0 => Doctype
    case 1 => HtmlOpen(lang)
    case 2 => HeadStart
    case 3 => Element("title", title)
    case 4 => Break
    case 5 => MetaName("description", description)
    case 6 => Break
    case 7 => MetaName("keywords", Keywords)
    case 8 => Break
    case 9 => LinkRel("canonical", canonical)
    case 10 => Break
    case 11 => tags
    case 12 => Break
    case 13 => MetaProperty("og:site_name", biz.nameEn)
    case 14 => Break
    case 15 => MetaProperty("og:title", title)
    case 16 => Break
    case 17 => MetaProperty("og:description", description)
    case 18 => Break
    case 19 => MetaProperty("og:url", canonical)
    case 20 => Break
    case 21 => MetaName("twitter:card", "summary_large_image")
    case 22 => HeadEnd
    case 23 => Element("h1", biz.nameEn + " — " + biz.nameAr)
    case 24 => Break
    case 25 => Element("p", biz.descriptionEn)
    case 26 => Break
    case 27 => Element("p", ContactLinks(biz, Element("strong", "Phone:") + " ",
                                      Element("strong", "Website:") + " "))
    case 28 => HeaderEnd
    case 29 => Element("main", "\n" + bodyHtml + "\n")
    case 30 => FooterStart
    case 31 => Element("p", biz.nameEn + " — " + biz.nameAr)
    case 32 => Break
    case 33 => Element("p", "Address: " + biz.streetAddress)
    case 34 => Break
    case 35 => Element("p", ContactLinks(biz, "Phone: ", "Website: "))
    case 36 => Break
    case 37 => Element("small", "© " + year + " " + biz.nameEn)
    case _ => PageEnd
  }

  const PartCount := 39

  /** The page template as its sequence of pieces. */
  function PageParts(biz: Business, year: string, title: string, description: string,
                     canonical: string, bodyHtml: string, lang: string, tags: string): seq<string>
  {
    seq(PartCount, k requires 0 <= k < PartCount =>
      PagePart(k, biz, year, title, description, canonical, bodyHtml, lang, tags))
  }

  /** The filled-in template for an already built hreflang block. */
  function FillTemplate(biz: Business, year: string, title: string, description: string,
                        canonical: string, bodyHtml: string, lang: string, tags: string): string
  {
    Flatten(PageParts(biz, year, title, description, canonical, bodyHtml, lang, tags))
  }

  /** The text `make_html_page` returns. */
  function RenderPage(biz: Business, year: string, title: string, description: string,
                      canonical: string, bodyHtml: string, lang: string,
                      links: Option<seq<Alternate>>): string
  {
    FillTemplate(biz, year, title, description, canonical, bodyHtml, lang, HreflangTags(links))
  }

  /** `make_html_page`: the hreflang block is accumulated pair by pair,
      then the template is filled in. */
  method MakeHtmlPage(biz: Business, year: string, title: string, description: string,
                      canonical: string, bodyHtml: string, lang: string,
                      links: Option<seq<Alternate>>) returns (html: string)
    ensures html == RenderPage(biz, year, title, description, canonical, bodyHtml, lang, links)
  {
    var tags := "";
    if links.Some? && links.value != [] {
      var ls := links.value;
      var i := 0;
      while i < |ls|
        invariant 0 <= i <= |ls|
        invariant tags == Flatten(HreflangEntries(ls[..i]))
      {
        assert HreflangEntries(ls[..i + 1]) == HreflangEntries(ls[..i]) + [AlternateLink(ls[i]) + "\n    "];
        FlattenSnoc(HreflangEntries(ls[..i]), AlternateLink(ls[i]) + "\n    ");
        tags := tags + AlternateLink(ls[i]) + "\n    ";
        i := i + 1;
      }
      assert ls[..i] == ls;
    }
    assert tags == HreflangTags(links);
    html := FillTemplate(biz, year, title, description, canonical, bodyHtml, lang, tags);
  }

  // ------------------------------------------------------------ page files

  /** The `<main>` content of an English product page. */
  function EnPageBody(biz: Business, p: Page): string {
    "<h2>" + p.titleEn + "</h2>\n<p>" + p.titleEn + " — " + biz.descriptionEn
    + EnFeatureList
  }

  const EnFeatureList := "</p>\n<ul>" + "<li>High performance" + " machines</li>" + "<li>Genuine" + " spare parts</li>"
                          + "<li>Maintenance" + " & service</li>" + "</ul>"

  /** The `<main>` content of an Arabic product page. */
  function ArPageBody(biz: Business, p: Page): string {
    "<h2>" + p.titleAr + "</h2>\n<p>" + p.titleAr + " — " + biz.descriptionAr
    + ArFeatureList
  }

  const ArFeatureList := "</p>\n<ul>" + "<li>أداء عالي</li>" + "<li>قطع غيار أصلية</li>" + "<li>خدمات وصيانة</li>" + "</ul>"

  /** `en/<slug>.html`; the body doubles as the meta description. */
  function EnPageDocument(biz: Business, year: string, p: Page): Document {
    var body := EnPageBody(biz, p);
    Document(LangFile("en", p.slug + ".html"),
             RenderPage(biz, year, p.titleEn + " — " + biz.nameEn, body,
                        Canonical(Base(biz.mainUrl), "en", p.slug), body, "en", None))
  }

  /** `ar/<slug>.html`; the body doubles as the meta description. */
  function ArPageDocument(biz: Business, year: string, p: Page): Document {
    var body := ArPageBody(biz, p);
    Document(LangFile("ar", p.slug + ".html"),
             RenderPage(biz, year, p.titleAr + " — " + biz.nameEn, body,
                        Canonical(Base(biz.mainUrl), "ar", p.slug), body, "ar", None))
  }

  /** The page files in write order: for each page, English then Arabic. */
  function PageDocuments(biz: Business, year: string, pages: seq<Page>): seq<Document>
    decreases |pages|
  {
    if pages == [] then []
    else
      var last := pages[|pages| - 1];
      PageDocuments(biz, year, pages[..|pages| - 1])
      + [EnPageDocument(biz, year, last)] + [ArPageDocument(biz, year, last)]
  }

  /** The body of the loop over the pages as far as the page files go:
      both files of one page, each rendered by `make_html_page`. */
  method WritePageFiles(biz: Business, year: string, p: Page) returns (en: Document, ar: Document)
    ensures en == EnPageDocument(biz, year, p)
    ensures ar == ArPageDocument(biz, year, p)
  {
    var enBody := EnPageBody(biz, p);
    var enCanon := Canonical(Base(biz.mainUrl), "en", p.slug);
    var enHtml := MakeHtmlPage(biz, year, p.titleEn + " — " + biz.nameEn, enBody, enCanon, enBody, "en", None);
    en := Document(LangFile("en", p.slug + ".html"), enHtml);
    var arBody := ArPageBody(biz, p);
    var arCanon := Canonical(Base(biz.mainUrl), "ar", p.slug);
    var arHtml := MakeHtmlPage(biz, year, p.titleAr + " — " + biz.nameEn, arBody, arCanon, arBody, "ar", None);
    ar := Document(LangFile("ar", p.slug + ".html"), arHtml);
  }

  // ------------------------------------------------------------ home pages

  const EnHomeHead := "<h2>Products & Services</h2><ul>"
  const ArHomeHead := "<h2>المنتجات والخدمات</h2><ul>"

  /** One line of a home page's list: a link to a page file of lang. */
  function HomeItem(lang: string, slug: string, text: string): string {
    Element("li", Anchor("/" + LangFile(lang, slug + ".html"), text)) + "\n"
  }

  function EnHomeItem(p: Page): string {
    HomeItem("en", p.slug, p.titleEn + " — " + p.titleAr)
  }

  function ArHomeItem(p: Page): string {
    HomeItem("ar", p.slug, p.titleAr + " — " + p.titleEn)
  }

  /** The English home body as far as the list goes: the heading and
      the opening `<ul>`, then one item per page in inventory order. */
  function EnHomeOpenBody(pages: seq<Page>): string
    decreases |pages|
  {
    if pages == [] then EnHomeHead else EnHomeOpenBody(pages[..|pages| - 1]) + EnHomeItem(pages[|pages| - 1])
  }

  /** The Arabic home body as far as the list goes. */
  function ArHomeOpenBody(pages: seq<Page>): string
    decreases |pages|
  {
    if pages == [] then ArHomeHead else ArHomeOpenBody(pages[..|pages| - 1]) + ArHomeItem(pages[|pages| - 1])
  }

  /** The phone as a `tel:` link, with the single quotes the home pages use. */
  function TelAnchor(phone: string): string {
    "<a href='tel:" + phone + "'>" + phone + "</a>"
  }

  function EnHomeTail(biz: Business): string {
    "</ul>\n<p>Contact us: " + TelAnchor(biz.phone) + "</p>"
  }

  function ArHomeTail(biz: Business): string {
    "</ul>\n<p>اتصل بنا: " + TelAnchor(biz.phone) + "</p>"
  }

  function EnHomeBody(biz: Business, pages: seq<Page>): string {
    EnHomeOpenBody(pages) + EnHomeTail(biz)
  }

  function ArHomeBody(biz: Business, pages: seq<Page>): string {
    ArHomeOpenBody(pages) + ArHomeTail(biz)
  }

  /** The loop over the pages: writes both page files of every page and
      accumulates the two home lists. */
  method RenderPages(biz: Business, year: string, pages: seq<Page>)
    returns (docs: seq<Document>, enHome: string, arHome: string)
    ensures docs == PageDocuments(biz, year, pages)
    ensures enHome == EnHomeBody(biz, pages)
    ensures arHome == ArHomeBody(biz, pages)
  {
    docs, enHome, arHome := [], EnHomeHead, ArHomeHead;
    var i := 0;
    while i < |pages|
      invariant 0 <= i <= |pages|
      invariant docs == PageDocuments(biz, year, pages[..i])
      invariant enHome == EnHomeOpenBody(pages[..i])
      invariant arHome == ArHomeOpenBody(pages[..i])
    {
      var p := pages[i];
      var enDoc, arDoc := WritePageFiles(biz, year, p);
      docs := docs + [enDoc];
      docs := docs + [arDoc];
      enHome := enHome + EnHomeItem(p);
      arHome := arHome + ArHomeItem(p);
      PageDocumentsStep(biz, year, pages, i);
      EnHomeStep(pages, i);
      ArHomeStep(pages, i);
      i := i + 1;
    }
    assert pages[..i] == pages;
    enHome := enHome + EnHomeTail(biz);
    arHome := arHome + ArHomeTail(biz);
  }

  lemma PageDocumentsStep(biz: Business, year: string, pages: seq<Page>, i: nat)
    requires i < |pages|
    ensures PageDocuments(biz, year, pages[..i + 1])
         == PageDocuments(biz, year, pages[..i]) + [EnPageDocument(biz, year, pages[i])] + [ArPageDocument(biz, year, pages[i])]
  {
    TakeSnoc(pages, i);
  }

  lemma EnHomeStep(pages: seq<Page>, i: nat)
    requires i < |pages|
    ensures EnHomeOpenBody(pages[..i + 1]) == EnHomeOpenBody(pages[..i]) + EnHomeItem(pages[i])
  {
    TakeSnoc(pages, i);
  }

  lemma ArHomeStep(pages: seq<Page>, i: nat)
    requires i < |pages|
    ensures ArHomeOpenBody(pages[..i + 1]) == ArHomeOpenBody(pages[..i]) + ArHomeItem(pages[i])
  {
    TakeSnoc(pages, i);
  }

  function EnHomeDocument(biz: Business, year: string, pages: seq<Page>): Document {
    Document(LangFile("en", "index.html"),
             RenderPage(biz, year, biz.nameEn + " — Home", biz.descriptionEn,
                        HomeUrl(Base(biz.mainUrl), "en"), EnHomeBody(biz, pages), "en", None))
  }

  function ArHomeDocument(biz: Business, year: string, pages: seq<Page>): Document {
    Document(LangFile("ar", "index.html"),
             RenderPage(biz, year, biz.nameAr + " — الصفحة الرئيسية", biz.descriptionAr,
                        HomeUrl(Base(biz.mainUrl), "ar"), ArHomeBody(biz, pages), "ar", None))
  }

  // ------------------------------------------------------------ root page

  function RootBody(mainUrl: string): string {
    "\n<h2>" + "Welcome / مرحباً" + "</h2>\n"
    + "<p>" + Anchor("/en/index.html", "English site" + " — English") + "</p>\n"
    + "<p>" + Anchor("/ar/index.html", "الموقع باللغة العربية" + " — Arabic") + "</p>\n"
    + "<p>" + "Or visit the " + "official site: " + Anchor(mainUrl, mainUrl) + "</p>\n"
  }

  /** The root page's alternates: the two home pages, English first. */
  function RootAlternates(base: string): seq<Alternate> {
    [Alternate(HomeUrl(base, "en"), "en"), Alternate(HomeUrl(base, "ar"), "ar")]
  }

  /** `index.html`: its canonical is the main URL exactly as configured. */
  function RootDocument(biz: Business, year: string): Document {
    Document("index.html",
             RenderPage(biz, year, biz.nameEn + " — Landing", biz.descriptionEn, biz.mainUrl,
                        RootBody(biz.mainUrl), "en", Some(RootAlternates(Base(biz.mainUrl)))))
  }

  // ------------------------------------------------------------ sitemap, robots

  /** The sitemap's URLs: the root page, the two home pages, then both
      language files of every page in inventory order. */
  function SitemapUrls(base: string, pages: seq<Page>): seq<string>
    decreases |pages|
  {
    if pages == [] then [base + "/index.html", HomeUrl(base, "en"), HomeUrl(base, "ar")]
    else
      var last := pages[|pages| - 1];
      SitemapUrls(base, pages[..|pages| - 1])
      + [Canonical(base, "en", last.slug)] + [Canonical(base, "ar", last.slug)]
  }

  lemma SitemapUrlsStep(base: string, pages: seq<Page>, i: nat)
    requires i < |pages|
    ensures SitemapUrls(base, pages[..i + 1])
         == SitemapUrls(base, pages[..i]) + [Canonical(base, "en", pages[i].slug)] + [Canonical(base, "ar", pages[i].slug)]
  {
    TakeSnoc(pages, i);
  }

  /** The `urls.append` loop. */
  method BuildSitemapUrls(base: string, pages: seq<Page>) returns (urls: seq<string>)
    ensures urls == SitemapUrls(base, pages)
  {
    urls := [base + "/index.html", HomeUrl(base, "en"), HomeUrl(base, "ar")];
    var i := 0;
    while i < |pages|
      invariant 0 <= i <= |pages|
      invariant urls == SitemapUrls(base, pages[..i])
    {
      SitemapUrlsStep(base, pages, i);
      urls := urls + [Canonical(base, "en", pages[i].slug)];
      urls := urls + [Canonical(base, "ar", pages[i].slug)];
      i := i + 1;
    }
    assert pages[..i] == pages;
  }

  /** `<?xml version="1.0" encoding="UTF-8"?>`, written as short pieces
      so that facts about its characters stay cheap to check. */
  const XmlDeclaration := "<?xml" + " version=\"1.0\"" + " encoding=\"UTF-8\"" + "?>"

  /** `<urlset xmlns="http://www.sitemaps.org/schemas/sitemap/0.9">`, in pieces. */
  const UrlsetOpen := "<urlset" + " xmlns=\"http://" + "www.sitemaps.org" + "/schemas/sitemap" + "/0.9\">"

  /** The four lines of one sitemap entry. */
  function UrlEntry(u: string, today: string): seq<string> {
    ["  <url>", "    <loc>" + u + "</loc>", "    <lastmod>" + today + "</lastmod>", "  </url>"]
  }

  /** The entries of the sitemap, four lines per URL, in URL order. */
  function UrlLines(urls: seq<string>, today: string): seq<string>
    decreases |urls|
  {
    if urls == [] then [] else UrlLines(urls[..|urls| - 1], today) + UrlEntry(urls[|urls| - 1], today)
  }

  function SitemapLines(urls: seq<string>, today: string): seq<string> {
    [XmlDeclaration, UrlsetOpen] + UrlLines(urls, today) + ["</urlset>"]
  }

  lemma UrlLinesStep(urls: seq<string>, today: string, i: nat)
    requires i < |urls|
    ensures UrlLines(urls[..i + 1], today) == UrlLines(urls[..i], today) + UrlEntry(urls[i], today)
  {
    TakeSnoc(urls, i);
  }

  /** The `sitemap.append` loop. */
  method BuildSitemapLines(urls: seq<string>, today: string) returns (lines: seq<string>)
    ensures lines == SitemapLines(urls, today)
  {
    lines := [XmlDeclaration, UrlsetOpen];
    var i := 0;
    while i < |urls|
      invariant 0 <= i <= |urls|
      invariant lines == [XmlDeclaration, UrlsetOpen] + UrlLines(urls[..i], today)
    {
      var u := urls[i];
      UrlLinesStep(urls, today, i);
      lines := lines + ["  <url>"];
      lines := lines + ["    <loc>" + u + "</loc>"];
      lines := lines + ["    <lastmod>" + today + "</lastmod>"];
      lines := lines + ["  </url>"];
      i := i + 1;
    }
    assert urls[..i] == urls;
    lines := lines + ["</urlset>"];
  }

  /** The text of `sitemap.xml`: the lines joined by newlines, with none at the end. */
  function SitemapXml(urls: seq<string>, today: string): string {
    Join(SitemapLines(urls, today), "\n")
  }

  const RobotsAgent := "User-agent: *"
  const RobotsAllow := "Allow: /"

  /** `robots.txt`: every agent may crawl everything; the sitemap sits under base. */
  function RobotsTxt(base: string): string {
    RobotsAgent + "\n" + (RobotsAllow + "\n" + (RobotsSitemap(base) + "\n"))
  }

  /** The `Sitemap:` rule of `robots.txt`. */
  function RobotsSitemap(base: string): string {
    "Sitemap: " + base + "/sitemap.xml"
  }

  const VerificationFile := "google-site-verification-alforsa.html"
  const VerificationContent := "<html><head>" + "<meta name=" + "'google-site-" + "verification'" + " content=" + "'replace_with_" + "token'>" + "</head>"
                                + "<body>" + "Google site " + "verification " + "file for Alforsa" + "</body></html>"
  const CnameContent := "alforsa.sa\n"

  // ------------------------------------------------------------ the whole tree

  /** Every document the builder writes that this model covers, in write order. */
  function SiteDocuments(biz: Business, pages: seq<Page>, today: string, year: string): seq<Document> {
    PageDocuments(biz, year, pages) + SiteFiles(biz, pages, today, year)
  }

  /** The files written after the page files, in write order. */
  function SiteFiles(biz: Business, pages: seq<Page>, today: string, year: string): seq<Document> {
    var base := Base(biz.mainUrl);
    [ EnHomeDocument(biz, year, pages),
      ArHomeDocument(biz, year, pages),
      RootDocument(biz, year),
      Document("sitemap.xml", SitemapXml(SitemapUrls(base, pages), today)),
      Document("robots.txt", RobotsTxt(base)),
      Document(VerificationFile, VerificationContent),
      Document("CNAME", CnameContent) ]
  }

  /** The two home pages, rendered from the accumulated home bodies. */
  method WriteHomeFiles(biz: Business, year: string, pages: seq<Page>, enHome: string, arHome: string)
    returns (en: Document, ar: Document)
    requires enHome == EnHomeBody(biz, pages) && arHome == ArHomeBody(biz, pages)
    ensures en == EnHomeDocument(biz, year, pages)
    ensures ar == ArHomeDocument(biz, year, pages)
  {
    var base := Base(biz.mainUrl);
    var enIndex := MakeHtmlPage(biz, year, biz.nameEn + " — Home", biz.descriptionEn,
                                HomeUrl(base, "en"), enHome, "en", None);
    en := Document(LangFile("en", "index.html"), enIndex);
    var arIndex := MakeHtmlPage(biz, year, biz.nameAr + " — الصفحة الرئيسية", biz.descriptionAr,
                                HomeUrl(base, "ar"), arHome, "ar", None);
    ar := Document(LangFile("ar", "index.html"), arIndex);
  }

  /** The root landing page. */
  method WriteRootFile(biz: Business, year: string) returns (root: Document)
    ensures root == RootDocument(biz, year)
  {
    var base := Base(biz.mainUrl);
    var html := MakeHtmlPage(biz, year, biz.nameEn + " — Landing", biz.descriptionEn, biz.mainUrl,
                             RootBody(biz.mainUrl), "en", Some(RootAlternates(base)));
    root := Document("index.html", html);
  }

  /** `sitemap.xml`: the URL list, its lines, and their join. */
  method WriteSitemap(base: string, pages: seq<Page>, today: string) returns (sitemap: Document)
    ensures sitemap == Document("sitemap.xml", SitemapXml(SitemapUrls(base, pages), today))
  {
    var urls := BuildSitemapUrls(base, pages);
    var lines := BuildSitemapLines(urls, today);
    sitemap := Document("sitemap.xml", Join(lines, "\n"));
  }

  /** The text-producing steps of `build_site_and_assets`, in order. */
  method BuildSite(biz: Business, pages: seq<Page>, today: string, year: string)
    returns (docs: seq<Document>)
    ensures docs == SiteDocuments(biz, pages, today, year)
  {
    var pageDocs, enHome, arHome := RenderPages(biz, year, pages);
    var enIndex, arIndex := WriteHomeFiles(biz, year, pages, enHome, arHome);
    var root := WriteRootFile(biz, year);
    var base := Base(biz.mainUrl);
    var sitemap := WriteSitemap(base, pages, today);
    docs := pageDocs + [ enIndex, arIndex, root, sitemap,
                         Document("robots.txt", RobotsTxt(base)),
                         Document(VerificationFile, VerificationContent),
                         Document("CNAME", CnameContent) ];
  }
}
