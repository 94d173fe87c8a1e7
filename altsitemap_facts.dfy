/** What `scripts/generate_sitemap.py` guarantees: how each path maps to
    its English and Arabic alternates, that language pairs map to each
    other, and the line structure of the sitemap it writes. */
module AltSitemapFacts {
  import opened Text
  import opened AltSitemap

  // ------------------------------------------------------------ alternates

  /** "/en/" and "/ar/" can be swapped for each other by `replace`. */
  lemma MarkersSwap()
    ensures SwapPair("/en/", "/ar/") && SwapPair("/ar/", "/en/")
  {
  }

  /** The root path's alternates are the two language roots. */
  lemma RootAlternates()
    ensures EnAlternate("/") == "/en/"
    ensures ArAlternate("/") == "/ar/"
  {
    assert LStrip("/", '/') == "";
  }

  /** A path under `/en/` is its own English alternate; its Arabic one
      has every `/en/` replaced by `/ar/`. */
  lemma EnPrefixed(path: string)
    requires StartsWith(path, "/en/")
    ensures EnAlternate(path) == path
    ensures ArAlternate(path) == Replace(path, "/en/", "/ar/")
  {
    assert path[1] == path[..4][1] == 'e';
  }

  /** A path under `/ar/` is its own Arabic alternate; its English one
      has every `/ar/` replaced by `/en/`. */
  lemma ArPrefixed(path: string)
    requires StartsWith(path, "/ar/")
    ensures ArAlternate(path) == path
    ensures EnAlternate(path) == Replace(path, "/ar/", "/en/")
  {
    assert path[1] == path[..4][1] == 'a';
  }

  /** A path other than `/` that mentions neither language directory is
      its own alternate in both languages. */
  lemma Unprefixed(path: string)
    requires path != "/"
    requires !Occurs("/en/", path) && !Occurs("/ar/", path)
    ensures EnAlternate(path) == path
    ensures ArAlternate(path) == path
  {
    if StartsWith(path, "/en/") { assert OccursAt("/en/", path, 0); }
    if StartsWith(path, "/ar/") { assert OccursAt("/ar/", path, 0); }
    ReplaceAbsent(path, "/ar/", "/en/");
    ReplaceAbsent(path, "/en/", "/ar/");
  }

  /** A path is its own English alternate exactly when it already starts
      with `/en/`, or it is not the root and contains no `/ar/`. */
  lemma EnAlternateFixedIff(path: string)
    ensures EnAlternate(path) == path
            <==> StartsWith(path, "/en/") || (path != "/" && !Occurs("/ar/", path))
  {
    if path == "/" {
      RootAlternates();
    } else if !StartsWith(path, "/en/") {
      ReplaceUnchangedIff(path, "/ar/", "/en/");
    }
  }

  /** A path is its own Arabic alternate exactly when it already starts
      with `/ar/`, or it is not the root and contains no `/en/`. */
  lemma ArAlternateFixedIff(path: string)
    ensures ArAlternate(path) == path
            <==> StartsWith(path, "/ar/") || (path != "/" && !Occurs("/en/", path))
  {
    if path == "/" {
      RootAlternates();
    } else if !StartsWith(path, "/ar/") {
      ReplaceUnchangedIff(path, "/en/", "/ar/");
    }
  }

  /** Replacing at the front of a string that starts with the pattern. */
  lemma ReplaceAtFront(s: string, pat: string, rep: string)
    requires pat != "" && StartsWith(s, pat)
    ensures Replace(s, pat, rep) == rep + Replace(s[|pat|..], pat, rep)
  {
  }

  /** An English path without `/ar/` and its Arabic alternate are a pair:
      the alternate lives under `/ar/`, and both carry the same two
      alternates, so going to Arabic and back returns the path. */
  lemma EnRoundTrip(path: string)
    requires StartsWith(path, "/en/") && !Occurs("/ar/", path)
    ensures StartsWith(ArAlternate(path), "/ar/")
    ensures EnAlternate(ArAlternate(path)) == path
    ensures ArAlternate(ArAlternate(path)) == ArAlternate(path)
  {
    EnPrefixed(path);
    MarkersSwap();
    var q := ArAlternate(path);
    ReplaceAtFront(path, "/en/", "/ar/");
    assert q[..4] == "/ar/";
    ArPrefixed(q);
    ReplaceInverse(path, "/en/", "/ar/");
  }

  /** The mirror image of `EnRoundTrip`. */
  lemma ArRoundTrip(path: string)
    requires StartsWith(path, "/ar/") && !Occurs("/en/", path)
    ensures StartsWith(EnAlternate(path), "/en/")
    ensures ArAlternate(EnAlternate(path)) == path
    ensures EnAlternate(EnAlternate(path)) == EnAlternate(path)
  {
    ArPrefixed(path);
    MarkersSwap();
    var q := EnAlternate(path);
    ReplaceAtFront(path, "/ar/", "/en/");
    assert q[..4] == "/en/";
    EnPrefixed(q);
    ReplaceInverse(path, "/ar/", "/en/");
  }

  /** A pattern that starts with '/' cannot occur in text without '/'. */
  lemma NoSlashNoOccurs(pat: string, f: string)
    requires pat != "" && pat[0] == '/' && '/' !in f
    ensures !Occurs(pat, f)
  {
    forall i | 0 <= i <= |f| - |pat|
      ensures !OccursAt(pat, f, i)
    {
      assert f[i..i + |pat|][0] == f[i];
    }
  }

  /** A file name directly under a language directory: both paths map to
      the same English and Arabic alternates, the two paths themselves. */
  lemma DirectoryPair(f: string)
    requires '/' !in f
    ensures EnAlternate("/en/" + f) == "/en/" + f && ArAlternate("/en/" + f) == "/ar/" + f
    ensures EnAlternate("/ar/" + f) == "/en/" + f && ArAlternate("/ar/" + f) == "/ar/" + f
  {
    var en, ar := "/en/" + f, "/ar/" + f;
    assert en[..4] == "/en/" && en[4..] == f;
    assert ar[..4] == "/ar/" && ar[4..] == f;
    EnPrefixed(en);
    ArPrefixed(ar);
    NoSlashNoOccurs("/en/", f);
    NoSlashNoOccurs("/ar/", f);
    ReplaceAtFront(en, "/en/", "/ar/");
    ReplaceAtFront(ar, "/ar/", "/en/");
    ReplaceAbsent(f, "/en/", "/ar/");
    ReplaceAbsent(f, "/ar/", "/en/");
  }

  /** The script's five paths: the root and the two language roots all
      point at `/en/` and `/ar/`; both product-mini paths point at the
      product-mini pair. So every alternate is itself a listed path. */
  lemma ListedAlternates()
    ensures forall k :: 0 <= k < 3 ==> EnAlternate(Paths[k]) == Paths[1] && ArAlternate(Paths[k]) == Paths[2]
    ensures forall k :: 3 <= k < 5 ==> EnAlternate(Paths[k]) == Paths[3] && ArAlternate(Paths[k]) == Paths[4]
    ensures forall p :: p in Paths ==> EnAlternate(p) in Paths && ArAlternate(p) in Paths
  {
    RootAlternates();
    DirectoryPair("");
    assert "/en/" + "" == "/en/" && "/ar/" + "" == "/ar/";
    assert '/' !in ProductMini;
    DirectoryPair(ProductMini);
  }

  // ------------------------------------------------------------ lines

  /** After the loop, the list holds the two header lines and then eight
      lines per path, block k at offset 2 + 8k. */
  lemma {:induction false} OpenLinesShape(base: string, now: string, paths: seq<string>)
    ensures |OpenLines(base, now, paths)| == 8 * |paths| + 2
    ensures OpenLines(base, now, paths)[..2] == [XmlDeclaration, XhtmlUrlsetOpen]
    ensures forall k :: 0 <= k < |paths| ==>
              OpenLines(base, now, paths)[2 + 8 * k..10 + 8 * k] == UrlBlock(base, now, paths[k])
    decreases |paths|
  {
    if paths != [] {
      var n := |paths| - 1;
      OpenLinesShape(base, now, paths[..n]);
      var pre := OpenLines(base, now, paths[..n]);
      var last := UrlBlock(base, now, paths[n]);
      var all := OpenLines(base, now, paths);
      assert all == pre + last;
      SliceOfPrefix(pre, last, 0, 2);
      forall k | 0 <= k < |paths|
        ensures all[2 + 8 * k..10 + 8 * k] == UrlBlock(base, now, paths[k])
      {
        if k < n {
          assert paths[..n][k] == paths[k];
          assert pre[2 + 8 * k..10 + 8 * k] == UrlBlock(base, now, paths[k]);
          SliceOfPrefix(pre, last, 2 + 8 * k, 10 + 8 * k);
          assert all[2 + 8 * k..10 + 8 * k] == pre[2 + 8 * k..10 + 8 * k];
        } else {
          assert k == n && |pre| == 2 + 8 * k && |last| == 8;
          SliceOfSuffix(pre, last);
          assert all[2 + 8 * k..10 + 8 * k] == last;
        }
      }
    }
  }

  /** The sitemap has 8 * |paths| + 3 lines: the XML declaration, the
      `urlset` opening tag, one block per path in input order, and
      `</urlset>`. */
  lemma SitemapLinesShape(base: string, now: string, paths: seq<string>)
    ensures |SitemapLines(base, now, paths)| == 8 * |paths| + 3
    ensures SitemapLines(base, now, paths)[0] == XmlDeclaration
    ensures SitemapLines(base, now, paths)[1] == XhtmlUrlsetOpen
    ensures forall k :: 0 <= k < |paths| ==>
              SitemapLines(base, now, paths)[2 + 8 * k..10 + 8 * k] == UrlBlock(base, now, paths[k])
    ensures SitemapLines(base, now, paths)[8 * |paths| + 2] == "</urlset>"
  {
    OpenLinesShape(base, now, paths);
    var open := OpenLines(base, now, paths);
    var lines := SitemapLines(base, now, paths);
    assert lines[0] == open[..2][0] && lines[1] == open[..2][1];
    forall k | 0 <= k < |paths|
      ensures lines[2 + 8 * k..10 + 8 * k] == UrlBlock(base, now, paths[k])
    {
      SliceOfPrefix(open, ["</urlset>"], 2 + 8 * k, 10 + 8 * k);
    }
  }

  /** Lines 2 + 8k to 9 + 8k are the block of path k. */
  lemma BlockAt(base: string, now: string, paths: seq<string>, k: nat)
    requires k < |paths|
    ensures |SitemapLines(base, now, paths)| == 8 * |paths| + 3
    ensures SitemapLines(base, now, paths)[2 + 8 * k..10 + 8 * k] == UrlBlock(base, now, paths[k])
  {
    SitemapLinesShape(base, now, paths);
  }

  /** In the block of path k, the second line is its location under base,
      the third the timestamp, and the sixth and seventh its English and
      Arabic alternates under base. */
  lemma BlockLines(base: string, now: string, paths: seq<string>, k: nat)
    requires k < |paths|
    ensures |SitemapLines(base, now, paths)| == 8 * |paths| + 3
    ensures SitemapLines(base, now, paths)[3 + 8 * k] == "    <loc>" + base + paths[k] + "</loc>"
    ensures SitemapLines(base, now, paths)[4 + 8 * k] == "    <lastmod>" + now + "</lastmod>"
    ensures SitemapLines(base, now, paths)[7 + 8 * k] == XhtmlLink("en", base + EnAlternate(paths[k]))
    ensures SitemapLines(base, now, paths)[8 + 8 * k] == XhtmlLink("ar", base + ArAlternate(paths[k]))
  {
    BlockAt(base, now, paths, k);
    var lines := SitemapLines(base, now, paths);
    var b := lines[2 + 8 * k..10 + 8 * k];
    assert lines[3 + 8 * k] == b[1] && lines[4 + 8 * k] == b[2];
    assert lines[7 + 8 * k] == b[5] && lines[8 + 8 * k] == b[6];
  }

  /** The script's own sitemap has 43 lines, five blocks of eight. */
  lemma ListedSitemapLength(now: string)
    ensures |SitemapLines(SiteBase, now, Paths)| == 43
  {
    SitemapLinesShape(SiteBase, now, Paths);
  }

  // ------------------------------------------------------------ the text

  /** Replacement brings in no character that neither the text nor the
      replacement had. */
  lemma {:induction false} ReplaceNoChar(s: string, pat: string, rep: string, c: char)
    requires pat != "" && c !in s && c !in rep
    ensures c !in Replace(s, pat, rep)
    decreases |s|
  {
    if StartsWith(s, pat) {
      assert forall x :: x in s[|pat|..] ==> x in s;
      ReplaceNoChar(s[|pat|..], pat, rep, c);
    } else if s != "" {
      assert forall x :: x in s[1..] ==> x in s;
      ReplaceNoChar(s[1..], pat, rep, c);
    }
  }

  /** An alternate has a newline only if its path has one. */
  lemma AlternatesNoNewline(path: string)
    requires '\n' !in path
    ensures '\n' !in EnAlternate(path) && '\n' !in ArAlternate(path)
  {
    if path == "/" {
      RootAlternates();
    } else {
      ReplaceNoChar(path, "/ar/", "/en/", '\n');
      ReplaceNoChar(path, "/en/", "/ar/", '\n');
    }
  }

  lemma LinkNoNewline(lang: string, href: string)
    requires '\n' !in lang && '\n' !in href
    ensures '\n' !in XhtmlLink(lang, href)
  {
  }

  lemma BlockNoNewline(base: string, now: string, path: string)
    requires '\n' !in base && '\n' !in now && '\n' !in path
    ensures forall x :: x in UrlBlock(base, now, path) ==> '\n' !in x
  {
    AlternatesNoNewline(path);
    LinkNoNewline("en", base + EnAlternate(path));
    LinkNoNewline("ar", base + ArAlternate(path));
    assert '\n' !in ChangeFreq && '\n' !in Priority;
  }

  lemma DeclarationNoNewline()
    ensures '\n' !in XmlDeclaration
  {
    assert '\n' !in "<?xml" + " version=\"1.0\"" + " encoding=\"UTF-8\"" + "?>";
  }

  lemma UrlsetOpenNoNewline()
    ensures '\n' !in XhtmlUrlsetOpen
  {
    assert '\n' !in "<urlset" + " xmlns=\"http://" + "www.sitemaps.org" + "/schemas/sitemap" + "/0.9\"";
    assert '\n' !in " xmlns:xhtml" + "=\"http://" + "www.w3.org/1999" + "/xhtml\">";
  }

  lemma ConcatNoNewline(a: seq<string>, b: seq<string>)
    requires forall x :: x in a ==> '\n' !in x
    requires forall x :: x in b ==> '\n' !in x
    ensures forall x :: x in a + b ==> '\n' !in x
  {
  }

  lemma {:induction false} OpenLinesNoNewline(base: string, now: string, paths: seq<string>)
    requires '\n' !in base && '\n' !in now
    requires forall k :: 0 <= k < |paths| ==> '\n' !in paths[k]
    ensures forall x :: x in OpenLines(base, now, paths) ==> '\n' !in x
    decreases |paths|
  {
    if paths == [] {
      DeclarationNoNewline();
      UrlsetOpenNoNewline();
    } else {
      var n := |paths| - 1;
      var init := paths[..n];
      assert forall k :: 0 <= k < n ==> '\n' !in init[k] by {
        forall k | 0 <= k < n ensures '\n' !in init[k] {
          assert init[k] == paths[k];
        }
      }
      OpenLinesNoNewline(base, now, init);
      BlockNoNewline(base, now, paths[n]);
      ConcatNoNewline(OpenLines(base, now, init), UrlBlock(base, now, paths[n]));
    }
  }

  /** Splitting `sitemap.xml` at its newlines gives back exactly its lines,
      and the text ends with `</urlset>`: no newline follows it. */
  lemma SitemapXmlLines(base: string, now: string, paths: seq<string>)
    requires '\n' !in base && '\n' !in now
    requires forall k :: 0 <= k < |paths| ==> '\n' !in paths[k]
    ensures Split(SitemapXml(base, now, paths), '\n') == SitemapLines(base, now, paths)
    ensures EndsWith(SitemapXml(base, now, paths), "</urlset>")
  {
    OpenLinesNoNewline(base, now, paths);
    var lines := SitemapLines(base, now, paths);
    assert lines[|lines| - 1] == "</urlset>";
    SplitJoin(lines, '\n');
    JoinEndsWith(lines, "\n");
  }
}
