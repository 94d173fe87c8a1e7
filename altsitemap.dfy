/** The stand-alone sitemap script `scripts/generate_sitemap.py`: for every
    listed path it writes an eight-line `<url>` block with the path's
    English and Arabic alternates as `xhtml:link` lines, between the XML
    declaration, a `urlset` opening tag that also declares the `xhtml`
    namespace, and `</urlset>`. */
module AltSitemap {
  import opened Text

  /** The site the script describes. */
  const SiteBase := "https://alforsa.sa"

  /** The paths the script lists, in order. */
  const Paths: seq<string> := ["/", "/en/", "/ar/", "/en/" + ProductMini, "/ar/" + ProductMini]

  const ProductMini := "product-mini.html"

  // ------------------------------------------------------------ alternates

  /** The English alternate of a path: the path itself when it already
      starts with `/en/`; for the root `/`, `/en/` followed by the path
      without its leading slashes; otherwise the path with every `/ar/`
      replaced by `/en/`. */
  function EnAlternate(path: string): string {
    if StartsWith(path, "/en/") then path
    else if path == "/" then "/en/" + LStrip(path, '/')
    else Replace(path, "/ar/", "/en/")
  }

  /** The Arabic alternate, the mirror image of `EnAlternate`. */
  function ArAlternate(path: string): string {
    if StartsWith(path, "/ar/") then path
    else if path == "/" then "/ar/" + LStrip(path, '/')
    else Replace(path, "/en/", "/ar/")
  }

  // ------------------------------------------------------------ lines

  /** `<?xml version="1.0" encoding="UTF-8"?>`, in pieces. */
  const XmlDeclaration := "<?xml" + " version=\"1.0\"" + " encoding=\"UTF-8\"" + "?>"

  /** `<urlset xmlns="http://www.sitemaps.org/schemas/sitemap/0.9"
      xmlns:xhtml="http://www.w3.org/1999/xhtml">`, in pieces. */
  const XhtmlUrlsetOpen := "<urlset" + " xmlns=\"http://" + "www.sitemaps.org" + "/schemas/sitemap" + "/0.9\""
                      + " xmlns:xhtml" + "=\"http://" + "www.w3.org/1999" + "/xhtml\">"

  const ChangeFreq := "    <changefreq>" + "weekly" + "</changefreq>"
  const Priority := "    <priority>" + "0.8" + "</priority>"

  /** `<xhtml:link rel="alternate" hreflang=".." href=".." />`, indented. */
  function XhtmlLink(lang: string, href: string): string {
    "    <xhtml:link" + " rel=\"alternate\"" + " hreflang=\"" + lang + "\" href=\"" + href + "\" />"
  }

  /** The eight lines the loop appends for one path. */
  function UrlBlock(base: string, now: string, path: string): seq<string> {
    [ "  <url>",
      "    <loc>" + base + path + "</loc>",
      "    <lastmod>" + now + "</lastmod>",
      ChangeFreq,
      Priority,
      XhtmlLink("en", base + EnAlternate(path)),
      XhtmlLink("ar", base + ArAlternate(path)),
      "  </url>" ]
  }

  /** The list as it stands after the loop has handled `paths`: the two
      header lines, then one block per path in order. */
  function OpenLines(base: string, now: string, paths: seq<string>): seq<string>
    decreases |paths|
  {
    if paths == [] then [XmlDeclaration, XhtmlUrlsetOpen]
    else OpenLines(base, now, paths[..|paths| - 1]) + UrlBlock(base, now, paths[|paths| - 1])
  }

  /** The finished list of lines. */
  function SitemapLines(base: string, now: string, paths: seq<string>): seq<string> {
    OpenLines(base, now, paths) + ["</urlset>"]
  }

  /** The text written to `sitemap.xml`: the lines joined by newlines,
      with no newline after the last one. */
  function SitemapXml(base: string, now: string, paths: seq<string>): string {
    Join(SitemapLines(base, now, paths), "\n")
  }

  /** One pass of the loop body: eight `append` calls. */
  method AppendBlock(lines: seq<string>, base: string, now: string, path: string) returns (out: seq<string>)
    ensures out == lines + UrlBlock(base, now, path)
  {
    var en := EnAlternate(path);
    var ar := ArAlternate(path);
    out := lines + ["  <url>"];
    out := out + ["    <loc>" + base + path + "</loc>"];
    out := out + ["    <lastmod>" + now + "</lastmod>"];
    out := out + [ChangeFreq];
    out := out + [Priority];
    out := out + [XhtmlLink("en", base + en)];
    out := out + [XhtmlLink("ar", base + ar)];
    out := out + ["  </url>"];
  }

  lemma OpenLinesStep(base: string, now: string, paths: seq<string>, i: nat)
    requires i < |paths|
    ensures OpenLines(base, now, paths[..i + 1]) == OpenLines(base, now, paths[..i]) + UrlBlock(base, now, paths[i])
  {
    TakeSnoc(paths, i);
  }

  /** The script's loop over the listed paths. */
  method BuildLines(base: string, now: string, paths: seq<string>) returns (lines: seq<string>)
    ensures lines == SitemapLines(base, now, paths)
  {
    lines := [XmlDeclaration, XhtmlUrlsetOpen];
    var i := 0;
    while i < |paths|
      invariant 0 <= i <= |paths|
      invariant lines == OpenLines(base, now, paths[..i])
    {
      OpenLinesStep(base, now, paths, i);
      lines := AppendBlock(lines, base, now, paths[i]);
      i := i + 1;
    }
    assert paths[..i] == paths;
    lines := lines + ["</urlset>"];
  }

  /** The script as a whole, with the clock reading as a parameter. */
  method GenerateSitemap(now: string) returns (xml: string)
    ensures xml == SitemapXml(SiteBase, now, Paths)
  {
    var lines := BuildLines(SiteBase, now, Paths);
    xml := Join(lines, "\n");
  }
}
