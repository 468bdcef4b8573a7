/** The search-engine texts of the site: the sitemap XML over the fixed
    route list, the robots.txt file, and the schema.org structured-data
    record. The current time the sitemap stamps on every entry is the
    parameter `isoNow`, the ISO-8601 text `new Date().toISOString()` would
    give. A reader for the sitemap's `<url>` entries is the partner of the
    writer: reading back what was written gives the routes back. */
module SeoUtils {
  import opened Optional
  import opened Sequences

  const BaseUrl: string := "https://jeevacode.web.app"

  datatype Route = Route(path: string, priority: string, changefreq: string)

  function Routes(): seq<Route>
  {
    [ Route("/", "1.0", "weekly"),
      Route("/about", "0.8", "monthly"),
      Route("/projects", "0.9", "weekly"),
      Route("/contact", "0.7", "monthly") ]
  }

  // ---------------------------------------------------------------------
  // Text helpers

  /** The elements of `parts` with `sep` between neighbours
      (JavaScript's `parts.join(sep)`). */
  function Join(parts: seq<string>, sep: string): string
  {
    if parts == [] then ""
    else if |parts| == 1 then parts[0]
    else parts[0] + sep + Join(parts[1..], sep)
  }

  /** The text before the first 'T', or all of `s` when it has none
      (`s.split('T')[0]`). */
  function DatePart(s: string): (r: string)
    ensures 'T' !in r
    ensures r <= s
    ensures |r| < |s| ==> s[|r|] == 'T'
  {
    if s == [] || s[0] == 'T' then ""
    else [s[0]] + DatePart(s[1..])
  }

  /** `pre` is a prefix of `s` followed by `rest`. */
  function StripPrefix(pre: string, s: string): (r: Option<string>)
    ensures r.Some? <==> pre <= s
    ensures r.Some? ==> s == pre + r.value
  {
    if pre <= s then Some(s[|pre|..]) else None
  }

  /** The longest prefix of `s` without '<', and what follows it. */
  function TakeText(s: string): (r: (string, string))
    ensures r.0 + r.1 == s
    ensures '<' !in r.0
    ensures r.1 == [] || r.1[0] == '<'
  {
    if s == [] || s[0] == '<' then ("", s)
    else
      var (t, rest) := TakeText(s[1..]);
      ([s[0]] + t, rest)
  }

  /** The text between two tags holds no '<'. */
  predicate Plain(s: string)
  {
    '<' !in s
  }

  lemma {:induction false} TakeTextOf(t: string, rest: string)
    requires Plain(t)
    requires rest == [] || rest[0] == '<'
    ensures TakeText(t + rest) == (t, rest)
  {
    if t == [] {
      assert t + rest == rest;
    } else {
      assert t[0] in t;
      assert (t + rest)[0] == t[0] != '<';
      assert (t + rest)[1..] == t[1..] + rest;
      TakeTextOf(t[1..], rest);
      assert t == [t[0]] + t[1..];
    }
  }

  lemma Assoc(a: string, b: string, c: string)
    ensures (a + b) + c == a + (b + c)
  {
  }

  lemma StripPrefixOf(pre: string, rest: string)
    ensures StripPrefix(pre, pre + rest) == Some(rest)
  {
    assert pre <= pre + rest;
    assert (pre + rest)[|pre|..] == rest;
  }

  // ---------------------------------------------------------------------
  // The sitemap

  /** One `<url>` entry of the sitemap. */
  datatype UrlEntry = UrlEntry(loc: string, changefreq: string, priority: string, lastmod: string)

  const SitemapHead: string :=
    "<?xml version=\"1.0\" encoding=\"UTF-8\"?>\n<urlset xmlns=\"http://www.sitemaps.org/schemas/sitemap/0.9\">\n"
  const SitemapTail: string := "\n</urlset>"
  const UrlOpen: string := "  <url>\n    <loc>"
  const LocToChangefreq: string := "</loc>\n    <changefreq>"
  const ChangefreqToPriority: string := "</changefreq>\n    <priority>"
  const PriorityToLastmod: string := "</priority>\n    <lastmod>"
  const UrlClose: string := "</lastmod>\n  </url>"

  /** The entry the sitemap gives a route, stamped with `date`. */
  function EntryFor(r: Route, date: string): UrlEntry
  {
    UrlEntry(BaseUrl + r.path, r.changefreq, r.priority, date)
  }

  /** The `<url>` block of an entry, followed by `rest`. */
  function UrlBlockThen(e: UrlEntry, rest: string): string
  {
    UrlOpen + (e.loc + (LocToChangefreq + (e.changefreq + (ChangefreqToPriority
      + (e.priority + (PriorityToLastmod + (e.lastmod + (UrlClose + rest))))))))
  }

  /** The `<url>` block of an entry. */
  function UrlBlock(e: UrlEntry): string
  {
    UrlBlockThen(e, "")
  }

  lemma UrlBlockAppend(e: UrlEntry, rest: string)
    ensures UrlBlock(e) + rest == UrlBlockThen(e, rest)
  {
    assert UrlClose + "" == UrlClose;
    Assoc(e.lastmod, UrlClose, rest);
    Assoc(PriorityToLastmod, e.lastmod + UrlClose, rest);
    Assoc(e.priority, PriorityToLastmod + (e.lastmod + UrlClose), rest);
    Assoc(ChangefreqToPriority, e.priority + (PriorityToLastmod + (e.lastmod + UrlClose)), rest);
    Assoc(e.changefreq, ChangefreqToPriority + (e.priority + (PriorityToLastmod + (e.lastmod + UrlClose))), rest);
    Assoc(LocToChangefreq, e.changefreq + (ChangefreqToPriority + (e.priority + (PriorityToLastmod + (e.lastmod + UrlClose)))), rest);
    Assoc(e.loc, LocToChangefreq + (e.changefreq + (ChangefreqToPriority + (e.priority + (PriorityToLastmod + (e.lastmod + UrlClose))))), rest);
    Assoc(UrlOpen, e.loc + (LocToChangefreq + (e.changefreq + (ChangefreqToPriority + (e.priority + (PriorityToLastmod + (e.lastmod + UrlClose)))))), rest);
  }

  function UrlBlocks(es: seq<UrlEntry>): (r: seq<string>)
    ensures |r| == |es|
    ensures forall i :: 0 <= i < |es| ==> r[i] == UrlBlock(es[i])
  {
    if es == [] then [] else [UrlBlock(es[0])] + UrlBlocks(es[1..])
  }

  function EntriesFor(routes: seq<Route>, date: string): (r: seq<UrlEntry>)
    ensures |r| == |routes|
    ensures forall i :: 0 <= i < |routes| ==> r[i] == EntryFor(routes[i], date)
  {
    if routes == [] then [] else [EntryFor(routes[0], date)] + EntriesFor(routes[1..], date)
  }

  /** The sitemap for the current time `isoNow`. */
  function GenerateSitemap(isoNow: string): (r: string)
    ensures SitemapHead <= r
    ensures |r| >= |SitemapTail| && r[|r| - |SitemapTail|..] == SitemapTail
  {
    var body := Join(UrlBlocks(EntriesFor(Routes(), DatePart(isoNow))), "\n");
    PrefixOccurs(SitemapHead, body);
    SuffixOf(SitemapHead + body, SitemapTail);
    SitemapHead + body + SitemapTail
  }

  /** Reads one `<url>` entry at the start of `s`; gives it and the text
      after it. */
  function ParseUrlBlock(s: string): (r: Option<(UrlEntry, string)>)
    ensures r.Some? ==> |r.value.1| < |s|
  {
    var s0 :- StripPrefix(UrlOpen, s);
    var (loc, s1) := TakeText(s0);
    var s2 :- StripPrefix(LocToChangefreq, s1);
    var (changefreq, s3) := TakeText(s2);
    var s4 :- StripPrefix(ChangefreqToPriority, s3);
    var (priority, s5) := TakeText(s4);
    var s6 :- StripPrefix(PriorityToLastmod, s5);
    var (lastmod, s7) := TakeText(s6);
    var s8 :- StripPrefix(UrlClose, s7);
    Some((UrlEntry(loc, changefreq, priority, lastmod), s8))
  }

  /** Reads the entries of a sitemap body: `<url>` blocks separated by
      newlines, up to the closing tag. */
  function ParseUrlBlocks(s: string): Option<seq<UrlEntry>>
    decreases |s|
  {
    if s == SitemapTail then Some([])
    else
      var (e, rest) :- ParseUrlBlock(s);
      if rest == SitemapTail then Some([e])
      else if rest != [] && rest[0] == '\n' then
        var es :- ParseUrlBlocks(rest[1..]);
        Some([e] + es)
      else None
  }

  function ParseSitemap(s: string): Option<seq<UrlEntry>>
  {
    var body :- StripPrefix(SitemapHead, s);
    ParseUrlBlocks(body)
  }

  /** An entry whose texts hold no '<'. */
  predicate PlainEntry(e: UrlEntry)
  {
    Plain(e.loc) && Plain(e.changefreq) && Plain(e.priority) && Plain(e.lastmod)
  }

  /** Reading a written `<url>` block gives its entry back and leaves what
      follows it untouched. */
  lemma UrlBlockRoundTrip(e: UrlEntry, rest: string)
    requires PlainEntry(e)
    ensures ParseUrlBlock(UrlBlock(e) + rest) == Some((e, rest))
  {
    UrlBlockAppend(e, rest);
    var s7 := UrlClose + rest;
    var s6 := e.lastmod + s7;
    var s5 := PriorityToLastmod + s6;
    var s4 := e.priority + s5;
    var s3 := ChangefreqToPriority + s4;
    var s2 := e.changefreq + s3;
    var s1 := LocToChangefreq + s2;
    var s0 := e.loc + s1;
    StripPrefixOf(UrlOpen, s0);
    TakeTextOf(e.loc, s1);
    StripPrefixOf(LocToChangefreq, s2);
    TakeTextOf(e.changefreq, s3);
    StripPrefixOf(ChangefreqToPriority, s4);
    TakeTextOf(e.priority, s5);
    StripPrefixOf(PriorityToLastmod, s6);
    TakeTextOf(e.lastmod, s7);
    StripPrefixOf(UrlClose, rest);
  }

  /** A block read before the closing tag is the last entry. */
  lemma ParseLastBlock(e: UrlEntry)
    requires PlainEntry(e)
    ensures ParseUrlBlocks(UrlBlock(e) + SitemapTail) == Some([e])
  {
    var s := UrlBlock(e) + SitemapTail;
    UrlBlockRoundTrip(e, SitemapTail);
    assert |s| > |SitemapTail|;
    assert s != SitemapTail;
  }

  /** A block read before a newline is followed by the entries read after
      the newline. */
  lemma ParseBlockThen(e: UrlEntry, more: string, es: seq<UrlEntry>)
    requires PlainEntry(e)
    requires |more| >= |SitemapTail|
    requires ParseUrlBlocks(more) == Some(es)
    ensures ParseUrlBlocks(UrlBlock(e) + ("\n" + more)) == Some([e] + es)
  {
    var rest := "\n" + more;
    var s := UrlBlock(e) + rest;
    UrlBlockRoundTrip(e, rest);
    assert ParseUrlBlock(s) == Some((e, rest));
    assert |s| > |SitemapTail|;
    assert s != SitemapTail;
    assert |rest| > |SitemapTail|;
    assert rest != SitemapTail;
    assert rest != [] && rest[0] == '\n' && rest[1..] == more;
  }

  /** Joining a first block to the others. */
  lemma JoinFirst(b: string, bs: seq<string>, tail: string)
    requires bs != []
    ensures Join([b] + bs, "\n") + tail == b + ("\n" + (Join(bs, "\n") + tail))
  {
    assert ([b] + bs)[1..] == bs;
    var j := Join(bs, "\n");
    Assoc(b + "\n", j, tail);
    Assoc(b, "\n", j + tail);
  }

  /** The one-entry case of `UrlBlocksRoundTrip`. */
  lemma SingleBlockRoundTrip(es: seq<UrlEntry>)
    requires |es| == 1 && PlainEntry(es[0])
    ensures ParseUrlBlocks(Join(UrlBlocks(es), "\n") + SitemapTail) == Some(es)
  {
    assert UrlBlocks(es) == [UrlBlock(es[0])];
    ParseLastBlock(es[0]);
    assert [es[0]] == es;
  }

  /** The step case of `UrlBlocksRoundTrip`: from the entries after the
      first to all of them. */
  lemma ConsBlocksRoundTrip(es: seq<UrlEntry>)
    requires |es| > 1 && PlainEntry(es[0])
    requires ParseUrlBlocks(Join(UrlBlocks(es[1..]), "\n") + SitemapTail) == Some(es[1..])
    ensures ParseUrlBlocks(Join(UrlBlocks(es), "\n") + SitemapTail) == Some(es)
  {
    var b := UrlBlock(es[0]);
    var bs := UrlBlocks(es[1..]);
    var more := Join(bs, "\n") + SitemapTail;
    BlocksCons(es);
    JoinFirst(b, bs, SitemapTail);
    assert Join(UrlBlocks(es), "\n") + SitemapTail == b + ("\n" + more);
    ParseBlockThen(es[0], more, es[1..]);
    HeadTail(es);
  }

  lemma BlocksCons(es: seq<UrlEntry>)
    requires es != []
    ensures UrlBlocks(es) == [UrlBlock(es[0])] + UrlBlocks(es[1..])
  {
  }

  /** Reading the newline-joined blocks of plain entries, followed by the
      closing tag, gives the entries back, in order. */
  lemma {:induction false} UrlBlocksRoundTrip(es: seq<UrlEntry>)
    requires forall i :: 0 <= i < |es| ==> PlainEntry(es[i])
    ensures ParseUrlBlocks(Join(UrlBlocks(es), "\n") + SitemapTail) == Some(es)
  {
    if es == [] {
      assert Join(UrlBlocks(es), "\n") + SitemapTail == SitemapTail;
    } else if |es| == 1 {
      SingleBlockRoundTrip(es);
    } else {
      UrlBlocksRoundTrip(es[1..]);
      ConsBlocksRoundTrip(es);
    }
  }

  /** Reading the sitemap gives exactly one entry per route, in route
      order: its location is the base URL followed by the route's path, its
      change frequency and priority are the route's own, and every entry
      carries the same date, the part of the current time before the 'T'.
      (An ISO-8601 timestamp holds no '<'.) */
  lemma SitemapRoundTrip(isoNow: string)
    requires '<' !in isoNow
    ensures ParseSitemap(GenerateSitemap(isoNow)) == Some(EntriesFor(Routes(), DatePart(isoNow)))
    ensures var es := EntriesFor(Routes(), DatePart(isoNow));
      && |es| == |Routes()| == 4
      && (forall i :: 0 <= i < 4 ==>
            && es[i].loc == BaseUrl + Routes()[i].path
            && es[i].changefreq == Routes()[i].changefreq
            && es[i].priority == Routes()[i].priority
            && es[i].lastmod == DatePart(isoNow))
  {
    var date := DatePart(isoNow);
    var es := EntriesFor(Routes(), date);
    assert Plain(date) by {
      forall k | 0 <= k < |date| ensures date[k] != '<' {
        assert date[k] == isoNow[k];
      }
    }
    forall i | 0 <= i < |es| ensures PlainEntry(es[i]) {
      PlainRoute(i);
    }
    var joined := Join(UrlBlocks(es), "\n");
    var body := joined + SitemapTail;
    UrlBlocksRoundTrip(es);
    Assoc(SitemapHead, joined, SitemapTail);
    StripPrefixOf(SitemapHead, body);
  }

  /** The base URL and every route field hold no '<'. */
  lemma PlainRoute(i: nat)
    requires i < |Routes()|
    ensures Plain(BaseUrl + Routes()[i].path)
    ensures Plain(Routes()[i].changefreq) && Plain(Routes()[i].priority)
  {
  }

  // ---------------------------------------------------------------------
  // robots.txt

  /** The crawlers robots.txt names, in order; each may fetch everything. */
  function CrawlerAgents(): seq<string>
  {
    ["*", "Googlebot", "Bingbot", "Twitterbot", "facebookexternalhit"]
  }

  /** The group that lets `agent` fetch every path. */
  function AllowGroup(agent: string): string
  {
    "User-agent: " + agent + "\nAllow: /"
  }

  function AllowGroups(agents: seq<string>): (r: seq<string>)
    ensures |r| == |agents|
    ensures forall i :: 0 <= i < |agents| ==> r[i] == AllowGroup(agents[i])
  {
    if agents == [] then [] else [AllowGroup(agents[0])] + AllowGroups(agents[1..])
  }

  const RobotsSitemapLine: string := "Sitemap: " + BaseUrl + "/sitemap.xml"
  const CrawlDelayLine: string := "Crawl-delay: 1"
  const RobotsTail: string :=
    "\n\n" + (RobotsSitemapLine + ("\n\n# Crawl-delay\n" + CrawlDelayLine))

  /** A robots.txt text: one allow-all group per crawler, blank lines
      between them, then the sitemap's address and a one-second crawl
      delay. */
  function RobotsText(agents: seq<string>): string
  {
    Join(AllowGroups(agents), "\n\n") + RobotsTail
  }

  /** The site's robots.txt. */
  function GenerateRobotsTxt(): (r: string)
    ensures OccursAt(AllowGroup("*"), r, 0)
    ensures |r| >= |CrawlDelayLine| && r[|r| - |CrawlDelayLine|..] == CrawlDelayLine
  {
    RobotsTextGroups(CrawlerAgents(), 0);
    RobotsTextEnd(CrawlerAgents());
    RobotsText(CrawlerAgents())
  }

  /** `part` occurs in `s` at `at`. */
  predicate OccursAt(part: string, s: string, at: nat)
  {
    at + |part| <= |s| && s[at..at + |part|] == part
  }

  /** Where element `i` starts in `Join(parts, sep)`. */
  function JoinOffset(parts: seq<string>, sep: string, i: nat): nat
    requires i < |parts|
  {
    if i == 0 then 0 else |parts[0]| + |sep| + JoinOffset(parts[1..], sep, i - 1)
  }

  /** Every joined element occurs in the joined text, at its offset. */
  lemma {:induction false} JoinContains(parts: seq<string>, sep: string, i: nat)
    requires i < |parts|
    ensures OccursAt(parts[i], Join(parts, sep), JoinOffset(parts, sep, i))
  {
    if |parts| > 1 {
      var tail := Join(parts[1..], sep);
      var lead := parts[0] + sep;
      assert Join(parts, sep) == lead + tail;
      if i == 0 {
        PrefixOccurs(parts[0], sep + tail);
        assert lead + tail == parts[0] + (sep + tail);
      } else {
        JoinContains(parts[1..], sep, i - 1);
        ShiftOccurs(parts[i], lead, tail, JoinOffset(parts[1..], sep, i - 1));
      }
    }
  }

  lemma PrefixOccurs(a: string, b: string)
    ensures OccursAt(a, a + b, 0)
  {
    assert (a + b)[..|a|] == a;
  }

  lemma ShiftOccurs(part: string, a: string, b: string, at: nat)
    requires OccursAt(part, b, at)
    ensures OccursAt(part, a + b, |a| + at)
  {
    assert (a + b)[|a| + at..|a| + at + |part|] == b[at..at + |part|];
  }

  lemma ExtendOccurs(part: string, a: string, b: string, at: nat)
    requires OccursAt(part, a, at)
    ensures OccursAt(part, a + b, at)
  {
    assert (a + b)[at..at + |part|] == a[at..at + |part|];
  }

  lemma SuffixOf(a: string, b: string)
    ensures |a + b| >= |b| && (a + b)[|a + b| - |b|..] == b
  {
  }

  /** Every listed crawler's allow-everything group is in the text. */
  lemma RobotsTextGroups(agents: seq<string>, i: nat)
    requires i < |agents|
    ensures OccursAt(AllowGroup(agents[i]), RobotsText(agents), JoinOffset(AllowGroups(agents), "\n\n", i))
  {
    var groups := AllowGroups(agents);
    JoinContains(groups, "\n\n", i);
    ExtendOccurs(groups[i], Join(groups, "\n\n"), RobotsTail, JoinOffset(groups, "\n\n", i));
  }

  /** The sitemap line follows the groups and a blank line. */
  lemma RobotsTextSitemap(agents: seq<string>)
    ensures OccursAt(RobotsSitemapLine, RobotsText(agents), |Join(AllowGroups(agents), "\n\n")| + 2)
  {
    var rest := "\n\n# Crawl-delay\n" + CrawlDelayLine;
    PrefixOccurs(RobotsSitemapLine, rest);
    ShiftOccurs(RobotsSitemapLine, "\n\n", RobotsSitemapLine + rest, 0);
    ShiftOccurs(RobotsSitemapLine, Join(AllowGroups(agents), "\n\n"), RobotsTail, 2);
  }

  /** The text ends with the crawl-delay line. */
  lemma RobotsTextEnd(agents: seq<string>)
    ensures var text := RobotsText(agents);
      |text| >= |CrawlDelayLine| && text[|text| - |CrawlDelayLine|..] == CrawlDelayLine
  {
    var rest := "\n\n# Crawl-delay\n" + CrawlDelayLine;
    SuffixOf("\n\n# Crawl-delay\n", CrawlDelayLine);
    SuffixOf(RobotsSitemapLine, rest);
    SuffixOf("\n\n", RobotsSitemapLine + rest);
    SuffixOf(Join(AllowGroups(agents), "\n\n"), RobotsTail);
  }

  /** A robots.txt text lets every crawler it lists fetch every path,
      names the sitemap under the base URL after the crawler groups, and
      ends by asking for a one-second crawl delay. */
  lemma RobotsTextProperties(agents: seq<string>)
    ensures forall i :: 0 <= i < |agents| ==>
      OccursAt(AllowGroup(agents[i]), RobotsText(agents), JoinOffset(AllowGroups(agents), "\n\n", i))
    ensures OccursAt(RobotsSitemapLine, RobotsText(agents), |Join(AllowGroups(agents), "\n\n")| + 2)
    ensures var text := RobotsText(agents);
      |text| >= |CrawlDelayLine| && text[|text| - |CrawlDelayLine|..] == CrawlDelayLine
  {
    forall i | 0 <= i < |agents|
      ensures OccursAt(AllowGroup(agents[i]), RobotsText(agents), JoinOffset(AllowGroups(agents), "\n\n", i))
    {
      RobotsTextGroups(agents, i);
    }
    RobotsTextSitemap(agents);
    RobotsTextEnd(agents);
  }

  /** The site's robots.txt allows all five crawlers, "*" included, to
      fetch everything, points at the sitemap and sets a one-second crawl
      delay. */
  lemma RobotsTxtProperties()
    ensures forall i :: 0 <= i < |CrawlerAgents()| ==>
      OccursAt(AllowGroup(CrawlerAgents()[i]), GenerateRobotsTxt(),
               JoinOffset(AllowGroups(CrawlerAgents()), "\n\n", i))
    ensures CrawlerAgents()[0] == "*" && |CrawlerAgents()| == 5
    ensures OccursAt(RobotsSitemapLine, GenerateRobotsTxt(), |Join(AllowGroups(CrawlerAgents()), "\n\n")| + 2)
    ensures var text := GenerateRobotsTxt();
      |text| >= |CrawlDelayLine| && text[|text| - |CrawlDelayLine|..] == CrawlDelayLine
  {
    RobotsTextProperties(CrawlerAgents());
  }

  // ---------------------------------------------------------------------
  // Structured data

  /** A JSON value as a caller may pass it. */
  datatype Json =
    | JNull
    | JBool(b: bool)
    | JNumber(n: int)
    | JString(s: string)
    | JArray(items: seq<Json>)
    | JObject(fields: map<string, Json>)

  datatype SchemaType = Person | WebSite | WebPage {
    function Name(): string {
      match this
      case Person => "Person"
      case WebSite => "WebSite"
      case WebPage => "WebPage"
    }
  }

  const SchemaContext: string := "https://schema.org"

  /** The keys the Person record fixes whatever the caller passes. */
  function PersonKeys(): set<string>
  {
    {"name", "jobTitle", "worksFor", "knowsAbout", "sameAs"}
  }

  /** The fixed Person fields. */
  function PersonFields(): (m: map<string, Json>)
    ensures m.Keys == PersonKeys()
  {
    map[
      "name" := JString("Jeeva V"),
      "jobTitle" := JString("Backend Developer"),
      "worksFor" := JObject(map["@type" := JString("Organization"), "name" := JString("Viskamnix Technology")]),
      "knowsAbout" := JArray([JString("Node.js"), JString("Express.js"), JString("PostgreSQL"), JString("Prisma"),
                              JString("Backend Development"), JString("Full Stack Development"), JString("REST APIs")]),
      "sameAs" := JArray([JString("https://github.com/jeeva-v"), JString("https://linkedin.com/in/jeeva-v")])
    ]
  }

  /** The structured-data record: the schema context and type, overridden
      by the caller's keys; for a Person, the five fixed fields override
      those in turn. */
  function GetStructuredData(t: SchemaType, data: map<string, Json>): (r: map<string, Json>)
    ensures r.Keys == data.Keys + {"@context", "@type"} + (if t == Person then PersonKeys() else {})
    ensures t == Person ==> forall k :: k in PersonKeys() ==> r[k] == PersonFields()[k]
    ensures forall k :: k in data && (t != Person || k !in PersonKeys()) ==> r[k] == data[k]
    ensures "@context" !in data ==> r["@context"] == JString(SchemaContext)
    ensures "@type" !in data ==> r["@type"] == JString(t.Name())
  {
    var base := map["@context" := JString(SchemaContext), "@type" := JString(t.Name())] + data;
    if t == Person then base + PersonFields() else base
  }
}
