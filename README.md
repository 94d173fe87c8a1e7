# Alforsa static-site generator, modelled in Dafny

Alforsa is a bilingual (English and Arabic) static site for an ice-cream
machine supplier. This project models how its two Python generators build
the site's text, and proves what that text looks like.

`alforsa_full_publish.py` renders:
- an English and an Arabic HTML page for each product in the inventory;
- an English and an Arabic home page, each listing every product;
- a root landing page with `hreflang` links to both home pages;
- `sitemap.xml`, `robots.txt`, a search-console verification file and `CNAME`.

All the HTML pages come from one template, `make_html_page`.

`scripts/generate_sitemap.py` writes a second sitemap. For each listed path
it writes an eight-line block that carries the path's English and Arabic
alternates.

The modules:

- `Text` (`text.dfy`) holds the Python string and list behaviour the code uses:
  - `startswith`;
  - `rstrip` and `lstrip` of one character, which strip every copy;
  - `replace`, which replaces every non-overlapping occurrence from the left;
  - `sep.join`, and the concatenation of a list of pieces.

  It also holds vocabulary that the code never calls and that the model uses only to state properties: a suffix test (`endswith`), a substring test, and `split`.
- `Publish` (`publish.dfy`) models the string and URL logic of `alforsa_full_publish.py`:
  - the configuration (`BUSINESS`, `PAGES`);
  - the template, and the `hreflang` loop as a method;
  - the page loop, the home lists, the root page, the sitemap loops and `robots.txt`;
  - the whole list of documents in write order.
  - Every method is proved equal to a specification function.
  - A document is a value made of a relative path and its text.
- `PublishFacts` (`publish_facts.dfy`) holds the properties of those functions.
- `AltSitemap` (`altsitemap.dfy`) models `scripts/generate_sitemap.py`:
  - the alternate mapping;
  - the eight-line block;
  - the append loop as a method proved against the line list.
- `AltSitemapFacts` (`altsitemap_facts.dfy`) holds the properties of the alternates and of that sitemap.

Two behaviours of the code are easy to misread; the model follows the code:
- The builder's sitemap lists `3 + 2 * len(PAGES)` URLs: the root page, the two home pages, then two per page.
- In `generate_sitemap.py`, a path other than `/` that contains neither `/en/` nor `/ar/` keeps itself as both alternates. No prefix is added. A path that contains one of them elsewhere, such as `/x/ar/y`, has it replaced: its English alternate is `/x/en/y`.

## Model

| member | source | states |
|---|---|---|
| Text.RStrip | alforsa_full_publish.py:113 | `rstrip(c)` returns a prefix of its input that does not end in c; everything cut off is c. So `base` never ends in `/`. |
| Text.LStrip | scripts/generate_sitemap.py:16-17 | `lstrip(c)` returns a suffix of its input that does not start with c; everything cut off is c. |
| Text.ReplaceUnchangedIff | scripts/generate_sitemap.py:16-17 | With a pattern and a replacement of equal length that differ, `replace` leaves a string unchanged exactly when the pattern does not occur in it. |
| Text.ReplaceInverse | scripts/generate_sitemap.py:16-17 | Replacing `/en/` by `/ar/` and then `/ar/` by `/en/` restores any string that had no `/ar/` to begin with, and the same with the roles of the two swapped. |
| Text.SplitJoin | alforsa_full_publish.py:165 | Splitting `"\n".join(lines)` at newlines gives back the lines, provided no line contains a newline. |
| Text.JoinEndsWith | alforsa_full_publish.py:165 | `sep.join(xs)` ends with the last element, so no separator trails when the last element is non-empty, as `</urlset>` is. |
| Publish.MakeHtmlPage | alforsa_full_publish.py:56-100 | The `hreflang` accumulation loop followed by the template gives exactly `RenderPage` of the same inputs. |
| PublishFacts.HreflangTagsEmpty | alforsa_full_publish.py:60-63 | The `hreflang` block is empty exactly when the links are `None` or an empty list. |
| PublishFacts.HreflangTagsAppend | alforsa_full_publish.py:61-63 | The block for `a + b` is the block for `a` followed by the block for `b`, so the links keep their input order. |
| PublishFacts.HreflangTagsOne | alforsa_full_publish.py:63 | One pair gives one `<link rel="alternate" href=.. hreflang=..>` element followed by the next line's indentation. |
| PublishFacts.TemplatePartOccurs | alforsa_full_publish.py:64-99 | Every piece of the template occurs in the filled-in page. |
| PublishFacts.PageFrame | alforsa_full_publish.py:64-99 | A page starts with `<!doctype html>` and a newline, and ends with `</footer>`, `</body>`, `</html>` and a newline. |
| PublishFacts.PageEmbedsInputs | alforsa_full_publish.py:64-99 | A rendered page contains, verbatim: `<html lang=..>`, the `<title>`, the meta description, the canonical link, `og:url` with the same canonical, the `hreflang` block, and the body inside `<main>`. |
| Publish.WritePageFiles | alforsa_full_publish.py:110-121 | One pass of the page loop produces the English and then the Arabic page document. |
| Publish.RenderPages | alforsa_full_publish.py:106-128 | The page loop yields every page document in order, and both home bodies, each ending in the contact paragraph. |
| PublishFacts.CanonicalForms | alforsa_full_publish.py:113-119 | A page's canonical is `base + "/en/" + slug + ".html"` or `base + "/ar/" + slug + ".html"`. |
| PublishFacts.EnPageFacts | alforsa_full_publish.py:112-115 | The English page is written to `en/<slug>.html`. Its canonical link is `base/en/<slug>.html`. Its body is both the meta description and the content of `<main>`. |
| PublishFacts.ArPageFacts | alforsa_full_publish.py:118-121 | The same for the Arabic page under `ar/`. |
| PublishFacts.PageDocumentsShape | alforsa_full_publish.py:110-121 | The page loop writes `2 * len(PAGES)` files: for page k, the English page at position 2k and the Arabic page at position 2k + 1. |
| PublishFacts.EnHomeOpenBodyPieces | alforsa_full_publish.py:106-124 | Before its tail, the English home body is its heading and `<ul>` followed by one item per page, in inventory order. |
| PublishFacts.ArHomeOpenBodyPieces | alforsa_full_publish.py:107-125 | The same for the Arabic home body. |
| PublishFacts.EnHomeItemForm | alforsa_full_publish.py:124 | An English item is `<li><a href="/en/<slug>.html">title_en — title_ar</a></li>` followed by a newline. |
| PublishFacts.ArHomeItemForm | alforsa_full_publish.py:125 | An Arabic item is `<li><a href="/ar/<slug>.html">title_ar — title_en</a></li>` followed by a newline. |
| PublishFacts.EnHomeItemOccurs | alforsa_full_publish.py:124 | Every page's item occurs in the English home body. |
| PublishFacts.ArHomeItemOccurs | alforsa_full_publish.py:125 | Every page's item occurs in the Arabic home body. |
| PublishFacts.HomeBodyTails | alforsa_full_publish.py:127-128 | Both home bodies end with the contact paragraph, which ends with the `tel:` link to the phone. |
| Publish.WriteHomeFiles | alforsa_full_publish.py:131-138 | The two home pages are rendered from the accumulated home bodies, with the canonicals `HomeUrl(base, "en")` and `HomeUrl(base, "ar")`; `EnHomeFacts` and `ArHomeFacts` write these out as `base/en/index.html` and `base/ar/index.html`. |
| Publish.WriteRootFile | alforsa_full_publish.py:141-149 | The root page is rendered from the landing body with the unstripped main URL as canonical and the two home pages as `hreflang` alternates, giving exactly `RootDocument`; `RootPageFacts` and `RootAlternatesTags` describe its content. |
| PublishFacts.EnHomeFacts | alforsa_full_publish.py:131-133 | The English home page is written to `en/index.html`; its canonical link is `base + "/en/index.html"`, its meta description is the English business description, and the English home body sits inside `<main>`. |
| PublishFacts.ArHomeFacts | alforsa_full_publish.py:136-138 | The Arabic home page is written to `ar/index.html`; its canonical link is `base + "/ar/index.html"`, its meta description is the Arabic business description, and the Arabic home body sits inside `<main>`. |
| PublishFacts.HomeUrlForms | alforsa_full_publish.py:131-136 | The two home canonicals written out as `base + "/en/index.html"` and `base + "/ar/index.html"`. |
| PublishFacts.RootPageFacts | alforsa_full_publish.py:140-149 | `index.html` uses the unstripped `main_url` as its canonical, and its `hreflang` block occurs in it. |
| PublishFacts.RootAlternatesTags | alforsa_full_publish.py:147-148 | The root page's `hreflang` block is exactly two links, English then Arabic, to `base/en/index.html` and `base/ar/index.html`. |
| PublishFacts.RootAlternatesInSitemap | alforsa_full_publish.py:148-154 | The two root alternates are the second and third sitemap URLs. |
| Publish.BuildSitemapUrls | alforsa_full_publish.py:153-157 | The `urls.append` loop gives `SitemapUrls`. |
| PublishFacts.SitemapUrlsOrder | alforsa_full_publish.py:153-157 | The sitemap has `3 + 2 * len(PAGES)` URLs. They are the root page, the English home and the Arabic home, then the English and Arabic URL of each page in inventory order. |
| PublishFacts.SitemapUrlAt | alforsa_full_publish.py:154-157 | Every sitemap URL after the first is the canonical of one (language, file stem) pair. |
| PublishFacts.CanonicalInjective | alforsa_full_publish.py:113-119 | Two-letter language codes: equal canonicals have the same language and the same slug. |
| PublishFacts.RootNotCanonical | alforsa_full_publish.py:154 | `base/index.html` is not the canonical of any file under a two-letter language directory. |
| PublishFacts.SitemapUrlsDistinct | alforsa_full_publish.py:154-157 | If the slugs are pairwise distinct and none is `index`, then no sitemap URL appears twice. |
| Publish.BuildSitemapLines | alforsa_full_publish.py:158-164 | The `sitemap.append` loop gives `SitemapLines`. |
| PublishFacts.UrlLinesShape | alforsa_full_publish.py:159-163 | The entries are four lines per URL, in URL order. |
| PublishFacts.SitemapLinesShape | alforsa_full_publish.py:158-164 | The sitemap has `4 * len(urls) + 3` lines: the declaration, `<urlset>`, then for each URL in order its four-line entry at lines `2 + 4k` to `5 + 4k`, then `</urlset>`. |
| PublishFacts.EntryLines | alforsa_full_publish.py:159-163 | The entry of URL k is `<url>`, `<loc>` with that URL, `<lastmod>` with the date, and `</url>`. |
| Publish.WriteSitemap | alforsa_full_publish.py:151-165 | `sitemap.xml` is the URL loop followed by the line loop, joined with newlines, giving exactly `SitemapXml` of `SitemapUrls`; `SitemapUrlsOrder`, `SitemapLinesShape` and `SitemapXmlLines` describe it. |
| PublishFacts.SitemapXmlLines | alforsa_full_publish.py:165 | If no URL and not the date contains a newline, splitting the written text at newlines gives back the lines. The text ends with `</urlset>`, with no trailing newline. |
| PublishFacts.RobotsLines | alforsa_full_publish.py:168 | `robots.txt` is the three lines `User-agent: *`, `Allow: /` and `Sitemap: base/sitemap.xml`, each ended by a newline. |
| PublishFacts.RobotsEndsWithNewline | alforsa_full_publish.py:168 | `robots.txt` ends with a newline. |
| Publish.BuildSite | alforsa_full_publish.py:102-193 | The builder's writes, as a list of documents, are exactly `SiteDocuments`. |
| PublishFacts.SiteDocumentsShape | alforsa_full_publish.py:110-193 | The modelled documents, that is every file the builder writes except the JSON-LD file, are `2 * len(PAGES) + 7`: the page files, then the other seven. |
| PublishFacts.HomeFilePaths | alforsa_full_publish.py:131-138 | The first two of the seven fixed files are `en/index.html` then `ar/index.html`. |
| PublishFacts.RootFilePath | alforsa_full_publish.py:140-149 | The third fixed file is the root `index.html`. |
| PublishFacts.OtherFilePaths | alforsa_full_publish.py:151-193 | The last four modelled fixed files are `sitemap.xml`, `robots.txt`, the verification file and `CNAME`, in that order; the unmodelled `schema_localbusiness.json` is written between `robots.txt` and the verification file. |
| PublishFacts.AlforsaBase | alforsa_full_publish.py:153 | For the configured `main_url`, `base` is `https://alforsa.sa`. |
| PublishFacts.AlforsaSitemapUrls | alforsa_full_publish.py:154-157 | The configured inventory gives 15 sitemap URLs, all different. |
| AltSitemapFacts.RootAlternates | scripts/generate_sitemap.py:16-17 | For `/`, the English alternate is `/en/` and the Arabic one is `/ar/`. |
| AltSitemapFacts.EnPrefixed | scripts/generate_sitemap.py:16-17 | A path under `/en/` is its own English alternate. Its Arabic alternate is the path with every `/en/` replaced by `/ar/`. |
| AltSitemapFacts.ArPrefixed | scripts/generate_sitemap.py:16-17 | A path under `/ar/` is its own Arabic alternate. Its English alternate is the path with every `/ar/` replaced by `/en/`. |
| AltSitemapFacts.Unprefixed | scripts/generate_sitemap.py:16-17 | A path other than `/` that contains neither `/en/` nor `/ar/` is its own alternate in both languages. |
| AltSitemapFacts.EnAlternateFixedIff | scripts/generate_sitemap.py:16 | A path is its own English alternate exactly when it starts with `/en/`, or it is not `/` and contains no `/ar/`. |
| AltSitemapFacts.ArAlternateFixedIff | scripts/generate_sitemap.py:17 | A path is its own Arabic alternate exactly when it starts with `/ar/`, or it is not `/` and contains no `/en/`. |
| AltSitemapFacts.EnRoundTrip | scripts/generate_sitemap.py:16-17 | Take an English path with no `/ar/` in it. Its Arabic alternate is under `/ar/`. Mapping that back to English returns the path. The alternate is its own Arabic alternate. |
| AltSitemapFacts.ArRoundTrip | scripts/generate_sitemap.py:16-17 | The mirror image, starting from an Arabic path. |
| AltSitemapFacts.DirectoryPair | scripts/generate_sitemap.py:16-17 | Take a file name f with no `/`. Both `/en/f` and `/ar/f` have `/en/f` as their English alternate and `/ar/f` as their Arabic one. |
| AltSitemapFacts.ListedAlternates | scripts/generate_sitemap.py:7-17 | The blocks of the three root paths carry the same alternates, `/en/` and `/ar/`. The blocks of the two `product-mini` paths carry the same product-mini pair. Every alternate is itself a listed path. |
| AltSitemap.AppendBlock | scripts/generate_sitemap.py:18-25 | The eight appends in one pass of the loop add `UrlBlock` of the path. |
| AltSitemap.BuildLines | scripts/generate_sitemap.py:13-26 | The loop, with the two header lines before it and `</urlset>` after it, gives `SitemapLines`. |
| AltSitemap.GenerateSitemap | scripts/generate_sitemap.py:5-30 | The text the script writes is `SitemapXml` of its base, its paths and the clock reading. |
| AltSitemapFacts.OpenLinesShape | scripts/generate_sitemap.py:13-25 | After the loop, the list holds the two header lines, then the block of path k at offset 2 + 8k. |
| AltSitemapFacts.SitemapLinesShape | scripts/generate_sitemap.py:13-26 | The document has `8 * len(paths) + 3` lines: the two header lines, one eight-line block per path in input order, then `</urlset>`. |
| AltSitemapFacts.BlockAt | scripts/generate_sitemap.py:15-25 | Lines `2 + 8k` to `9 + 8k` of the document are exactly the eight-line block of path k. |
| AltSitemapFacts.BlockLines | scripts/generate_sitemap.py:19-24 | In block k: `loc` is `base + path`, `lastmod` is `now`, and the two `xhtml:link` lines carry the English and then the Arabic alternate under base. |
| AltSitemapFacts.ListedSitemapLength | scripts/generate_sitemap.py:7-26 | The script's own document has 43 lines. |
| AltSitemapFacts.AlternatesNoNewline | scripts/generate_sitemap.py:16-17 | An alternate contains a newline only if its path does. |
| AltSitemapFacts.SitemapXmlLines | scripts/generate_sitemap.py:30 | If base, `now` and the paths contain no newline, splitting the written text at newlines gives back the lines. The text ends with `</urlset>`, with no trailing newline. |

## Left out

- File-system work is not modelled: directory creation, `write_text`, and the script's output-path computation and file write. Documents are values: a relative path and a text.
- Clock readings are parameters. These are `date.today().isoformat()`, `utcnow().year` (read once per page in the source) and `utcnow().strftime(...)`. The model takes one `year` string for every page of a run. It therefore does not capture the year changing partway through a run.
- `schema_localbusiness.json` is left out. It is produced by a library serialiser, `json.dumps`.
- These are library, network or console I/O with exception-driven control flow, and are not modelled:
  - the zip package, via `os.walk` and `zipfile`;
  - the git operations, via GitPython;
  - the GitHub REST calls, via `requests`;
  - `input`, `getpass`, `print` and the `main` flow.
- UTF-8 encoding is not modelled; strings are sequences of characters. `split` is modelled only for a one-character separator.
- Text.Replace: modelled only for a non-empty pattern. All call sites use the four-character patterns `/en/` and `/ar/`.
- The facts that concern newlines, `PublishFacts.SitemapXmlLines`, `AltSitemapFacts.SitemapXmlLines` and `PublishFacts.RobotsLines`, require that the inputs contain no newline. The source does not check this.
- PublishFacts.CanonicalInjective: stated for two-letter language codes, which are the only ones the builder uses.
- PublishFacts.RootNotCanonical: stated for two-letter language codes, for the same reason.
