/**
 * The XML sitemap: one <url> entry per page, concatenated in order with nothing in
 * between, inside a fixed header and footer. The timestamp written as <lastmod> is an
 * input instead of a clock reading.
 */
module Sitemap {

  const ExternalDataUrl := "https://youjing.dev"

  /** The pages the site lists, in this order. */
  const Pages: seq<string> := ["/", "/palang-ic", "/id-marking", "/blogs", "/work"]

  const Header := "<?xml version=\"1.0\" encoding=\"UTF-8\"?>\n   <urlset xmlns=\"http://www.sitemaps.org/schemas/sitemap/0.9\">\n     "
  const Footer := "\n   </urlset>\n "

  /** The text of an entry around its three variable parts. */
  const EntryOpen := "\n       <url>\n           <loc>"
  const LocClose := "</loc>\n           <lastmod>"
  const LastmodClose := "</lastmod>\n           <changefreq>weekly</changefreq>\n           <priority>"
  const EntryClose := "</priority>\n       </url>\n     "

  /** The home page is weighted 1.0, every other page 0.8. */
  function Priority(page: string): (r: string)
    ensures |r| == 3
    ensures r == "1.0" <==> page == "/"
    ensures r == "0.8" <==> page != "/"
  {
    if page == "/" then "1.0" else "0.8"
  }

  function Loc(page: string): string {
    ExternalDataUrl + page
  }

  /** One <url> entry. */
  function UrlEntry(page: string, lastmod: string): (r: string)
    ensures |r| == |EntryOpen| + |ExternalDataUrl| + |page| + |LocClose| + |lastmod| + |LastmodClose| + 3 + |EntryClose|
  {
    EntryOpen + Loc(page) + LocClose + lastmod + LastmodClose + Priority(page) + EntryClose
  }

  /** The entry of each page, in page order. */
  function EntryList(pages: seq<string>, lastmod: string): (r: seq<string>)
    ensures |r| == |pages| && forall k :: 0 <= k < |pages| ==> r[k] == UrlEntry(pages[k], lastmod)
  {
    seq(|pages|, k requires 0 <= k < |pages| => UrlEntry(pages[k], lastmod))
  }

  /** Concatenation with the empty string as separator. */
  function Join(parts: seq<string>): string {
    if parts == [] then "" else parts[0] + Join(parts[1..])
  }

  /** The entries of all pages, joined with the empty string. */
  function Entries(pages: seq<string>, lastmod: string): (r: string)
    ensures pages == [] ==> r == ""
    ensures |pages| == 1 ==> r == UrlEntry(pages[0], lastmod)
  {
    var parts := EntryList(pages, lastmod);
    assert |pages| == 1 ==> parts[1..] == [] && Join(parts) == parts[0] + Join([]);
    Join(parts)
  }

  /** The whole document: the fixed header, the joined entries, the fixed footer. */
  function GenerateSiteMap(pages: seq<string>, lastmod: string): (r: string)
    ensures |r| == |Header| + |Entries(pages, lastmod)| + |Footer|
    ensures r[..|Header|] == Header && r[|r| - |Footer|..] == Footer
    ensures r[|Header|..|r| - |Footer|] == Entries(pages, lastmod)
  {
    Middle(Header, Entries(pages, lastmod), Footer);
    Header + Entries(pages, lastmod) + Footer
  }

  /**
   * The parts of an entry can be read back at fixed offsets: the location is the site
   * address followed by the page path, then come the given timestamp, the weekly
   * change frequency and the page's priority.
   */
  lemma EntryFields(page: string, lastmod: string)
    ensures var e := UrlEntry(page, lastmod);
      var a := |EntryOpen|;
      var b := a + |ExternalDataUrl| + |page|;
      var c := b + |LocClose| + |lastmod|;
      var d := c + |LastmodClose|;
      && |e| == d + 3 + |EntryClose|
      && e[..a] == EntryOpen
      && e[a..b] == ExternalDataUrl + page
      && e[b..b + |LocClose|] == LocClose
      && e[b + |LocClose|..c] == lastmod
      && e[c..d] == LastmodClose
      && e[d..d + 3] == Priority(page)
      && e[d + 3..] == EntryClose
  {
    Fields(EntryOpen, Loc(page), LocClose, lastmod, LastmodClose, Priority(page), EntryClose);
  }

  /** Each of seven concatenated parts can be read back at the sum of the lengths before it. */
  lemma Fields(p1: string, p2: string, p3: string, p4: string, p5: string, p6: string, p7: string)
    ensures var e := p1 + p2 + p3 + p4 + p5 + p6 + p7;
      var n1 := |p1|;
      var n2 := n1 + |p2|;
      var n3 := n2 + |p3|;
      var n4 := n3 + |p4|;
      var n5 := n4 + |p5|;
      var n6 := n5 + |p6|;
      && |e| == n6 + |p7|
      && e[..n1] == p1 && e[n1..n2] == p2 && e[n2..n3] == p3 && e[n3..n4] == p4
      && e[n4..n5] == p5 && e[n5..n6] == p6 && e[n6..] == p7
  {
    var e := p1 + p2 + p3 + p4 + p5 + p6 + p7;
    Middle([], p1, p2 + p3 + p4 + p5 + p6 + p7);
    Middle(p1, p2, p3 + p4 + p5 + p6 + p7);
    Middle(p1 + p2, p3, p4 + p5 + p6 + p7);
    Middle(p1 + p2 + p3, p4, p5 + p6 + p7);
    Middle(p1 + p2 + p3 + p4, p5, p6 + p7);
    Middle(p1 + p2 + p3 + p4 + p5, p6, p7);
    Middle(p1 + p2 + p3 + p4 + p5 + p6, p7, []);
  }

  /** The middle part of a three-part concatenation sits between the lengths of the parts. */
  lemma Middle(x: string, y: string, z: string)
    ensures (x + y + z)[|x|..|x| + |y|] == y
    ensures x + y + z == x + (y + z)
  {
  }

  /** Joining distributes over concatenation. */
  lemma {:induction false} JoinAppend(parts: seq<string>, more: seq<string>)
    ensures Join(parts + more) == Join(parts) + Join(more)
    decreases |parts|
  {
    if parts == [] {
      assert parts + more == more;
    } else {
      assert (parts + more)[1..] == parts[1..] + more;
      JoinAppend(parts[1..], more);
    }
  }

  /** The entries of a concatenated page list are the concatenated entries. */
  lemma EntriesAppend(pages: seq<string>, more: seq<string>, lastmod: string)
    ensures Entries(pages + more, lastmod) == Entries(pages, lastmod) + Entries(more, lastmod)
  {
    assert EntryList(pages + more, lastmod) == EntryList(pages, lastmod) + EntryList(more, lastmod);
    JoinAppend(EntryList(pages, lastmod), EntryList(more, lastmod));
  }

  /** Where part k starts in the joined text. */
  function JoinOffset(parts: seq<string>, k: nat): nat
    requires k <= |parts|
  {
    |Join(parts[..k])|
  }

  /** Part k of a join sits between its offset and the next, and the last offset is the end. */
  lemma JoinAt(parts: seq<string>, k: nat)
    requires k < |parts|
    ensures && JoinOffset(parts, k + 1) == JoinOffset(parts, k) + |parts[k]|
            && JoinOffset(parts, k + 1) <= JoinOffset(parts, |parts|) == |Join(parts)|
            && Join(parts)[JoinOffset(parts, k)..JoinOffset(parts, k + 1)] == parts[k]
  {
    var before, part, after := parts[..k], parts[k], parts[k + 1..];
    assert parts[..k + 1] == before + [part];
    assert parts == before + [part] + after;
    JoinAppend(before, [part]);
    JoinAppend(before + [part], after);
    assert Join([part]) == part + Join([]);
    Middle(Join(before), part, Join(after));
    assert parts[..|parts|] == parts;
  }

  /** Where the entry of page k starts in the joined text. */
  function Offset(pages: seq<string>, k: nat, lastmod: string): nat
    requires k <= |pages|
  {
    JoinOffset(EntryList(pages, lastmod), k)
  }

  /**
   * The joined text is made of exactly one entry per page, in page order: the slice
   * between consecutive offsets is the entry of that page, and the last offset is the end.
   */
  lemma EntryAt(pages: seq<string>, k: nat, lastmod: string)
    requires k < |pages|
    ensures && Offset(pages, k + 1, lastmod) == Offset(pages, k, lastmod) + |UrlEntry(pages[k], lastmod)|
            && Offset(pages, k + 1, lastmod) <= Offset(pages, |pages|, lastmod) == |Entries(pages, lastmod)|
            && Entries(pages, lastmod)[Offset(pages, k, lastmod)..Offset(pages, k + 1, lastmod)]
               == UrlEntry(pages[k], lastmod)
  {
    JoinAt(EntryList(pages, lastmod), k);
  }

  /** The served sitemap: five entries, only the first (the home page) weighted 1.0. */
  lemma ServedPriorities(k: nat)
    requires k < |Pages|
    ensures |Pages| == 5
    ensures Priority(Pages[k]) == if k == 0 then "1.0" else "0.8"
  {
    if k > 0 {
      assert Pages[k][0] != Pages[0][0] || |Pages[k]| != 1;
    }
  }
}
