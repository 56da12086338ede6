/** The sitemap of the blog (src/pages/sitemap.xml.ts): a Sitemaps protocol
    0.9 document (sitemaps.org) with one `<url>` per published post and one
    for the home page, built by string concatenation. */
module Sitemap {
  import opened Js
  import opened NotionUtils
  import opened NotionData

  const SiteUrl: string := "https://adventure-blog.vercel.app"

  /** The text before the entries: the XML declaration and the opening
      `<urlset>` in the Sitemaps 0.9 namespace. */
  const Declaration: string := "<?xml version=\"1.0\" encoding=\"UTF-8\"?>"
  const UrlsetOpen: string := "<urlset xmlns=\"http://www.sitemaps.org/schemas/sitemap/0.9\">"
  const Header: string := Declaration + "\n   " + UrlsetOpen + "\n     "

  /** The text after the entries. */
  const Footer: string := "\n   </urlset>\n "

  /** The text of one entry around its post. */
  const EntryOpen: string := "\n       <url>\n           <loc>" + SiteUrl + "/"
  const EntryClose: string := "</loc>\n       </url>\n     "

  /** The `<url>` element of one post; the post is inserted as it is, with no
      XML escaping. */
  function Entry(post: string): string {
    EntryOpen + post + EntryClose
  }

  /** `pieces.join("")`. */
  function Join(pieces: seq<string>): string {
    if pieces == [] then "" else pieces[0] + Join(pieces[1..])
  }

  /** `posts.map(...)`: the entry of every post, in order. */
  function EntryList(posts: seq<string>): (entries: seq<string>)
    ensures |entries| == |posts|
    ensures forall i :: 0 <= i < |posts| ==> entries[i] == Entry(posts[i])
  {
    seq(|posts|, i requires 0 <= i < |posts| => Entry(posts[i]))
  }

  /** `posts.map(...).join("")`. */
  function Entries(posts: seq<string>): string {
    Join(EntryList(posts))
  }

  lemma {:induction false} JoinAppend(a: seq<string>, b: seq<string>)
    ensures Join(a + b) == Join(a) + Join(b)
  {
    if a == [] {
      assert a + b == b;
    } else {
      assert (a + b)[1..] == a[1..] + b;
      JoinAppend(a[1..], b);
    }
  }

  /** The entries of a non-empty list: the first post's, then the rest's. */
  lemma EntriesCons(posts: seq<string>)
    requires posts != []
    ensures Entries(posts) == Entry(posts[0]) + Entries(posts[1..])
  {
    assert EntryList(posts)[1..] == EntryList(posts[1..]);
  }

  /** The entries of a concatenation are the two parts' entries. */
  lemma EntriesAppend(a: seq<string>, b: seq<string>)
    ensures Entries(a + b) == Entries(a) + Entries(b)
  {
    assert EntryList(a + b) == EntryList(a) + EntryList(b);
    JoinAppend(EntryList(a), EntryList(b));
  }

  /** `generateSiteMap`. */
  function GenerateSiteMap(posts: seq<string>): (doc: string)
    ensures StartsWith(doc, Declaration) && StartsWith(doc, Header)
    ensures |doc| >= |Footer| && doc[|doc| - |Footer|..] == Footer
  {
    var doc := Header + Entries(posts) + Footer;
    assert doc[..|Header|] == Header;
    assert doc[..|Declaration|] == Declaration;
    assert doc[|doc| - |Footer|..] == Footer;
    doc
  }

  // ---------------------------------------------------------------------------
  // Reading the entries back

  /** The index of the first `<` in `s`, or `|s|`. */
  function IndexOfTag(s: string): (n: nat)
    ensures n <= |s|
    ensures '<' !in s[..n]
    ensures n < |s| ==> s[n] == '<'
  {
    if s == [] then 0
    else if s[0] == '<' then 0
    else
      var n := 1 + IndexOfTag(s[1..]);
      assert s[..n] == [s[0]] + s[1..][..n - 1];
      n
  }

  /** The posts of a run of `<url>` entries, each `<loc>` read up to the
      next tag; none when the text is not such a run. */
  function ParseEntries(s: string): Option<seq<string>>
    decreases |s|
  {
    if s == [] then Some([])
    else if !StartsWith(s, EntryOpen) then None
    else
      var rest := s[|EntryOpen|..];
      var n := IndexOfTag(rest);
      if !StartsWith(rest[n..], EntryClose) then None
      else match ParseEntries(rest[n + |EntryClose|..])
        case None => None
        case Some(posts) => Some([rest[..n]] + posts)
  }

  /** The posts of a whole sitemap document. */
  function ParseSiteMap(doc: string): Option<seq<string>> {
    if |doc| < |Header| + |Footer| || !StartsWith(doc, Header) || doc[|doc| - |Footer|..] != Footer then None
    else ParseEntries(doc[|Header|..|doc| - |Footer|])
  }

  /** The post is followed by the closing of its entry. */
  lemma EntryReadsBack(post: string, rest: string)
    requires '<' !in post
    ensures var s := Entry(post) + rest;
      var tail := s[|EntryOpen|..];
      && StartsWith(s, EntryOpen)
      && IndexOfTag(tail) == |post|
      && tail[..|post|] == post
      && StartsWith(tail[|post|..], EntryClose)
      && tail[|post| + |EntryClose|..] == rest
  {
    var s := Entry(post) + rest;
    var tail := s[|EntryOpen|..];
    assert s[..|EntryOpen|] == EntryOpen;
    assert tail == post + EntryClose + rest;
    assert tail[..|post|] == post;
    assert tail[|post|..] == EntryClose + rest;
    assert (EntryClose + rest)[..|EntryClose|] == EntryClose;
    assert tail[|post| + |EntryClose|..] == rest;
    IndexOfTagStops(post, EntryClose + rest);
  }

  /** Parsing an entry followed by more text reads the entry's post and
      then the rest. */
  lemma ParseEntryStep(post: string, rest: string)
    requires '<' !in post
    ensures ParseEntries(Entry(post) + rest) ==
      if ParseEntries(rest).Some? then Some([post] + ParseEntries(rest).value) else None
  {
    EntryReadsBack(post, rest);
  }

  lemma {:induction false} IndexOfTagStops(a: string, b: string)
    requires '<' !in a && |b| > 0 && b[0] == '<'
    ensures IndexOfTag(a + b) == |a|
  {
    if a != [] {
      assert (a + b)[1..] == a[1..] + b;
      IndexOfTagStops(a[1..], b);
    } else {
      assert a + b == b;
    }
  }

  /** Every post without a `<` is read back: the entries are exactly one
      `<url>` per post, in order. */
  lemma {:induction false} EntriesRoundTrip(posts: seq<string>)
    requires forall i :: 0 <= i < |posts| ==> '<' !in posts[i]
    ensures ParseEntries(Entries(posts)) == Some(posts)
  {
    if posts != [] {
      EntriesCons(posts);
      ParseEntryStep(posts[0], Entries(posts[1..]));
      EntriesRoundTrip(posts[1..]);
      assert [posts[0]] + posts[1..] == posts;
    }
  }

  /** The whole document reads back the posts it was built from. */
  lemma SiteMapRoundTrip(posts: seq<string>)
    requires forall i :: 0 <= i < |posts| ==> '<' !in posts[i]
    ensures ParseSiteMap(GenerateSiteMap(posts)) == Some(posts)
  {
    var doc := GenerateSiteMap(posts);
    assert doc == Header + Entries(posts) + Footer;
    assert doc[..|Header|] == Header;
    assert doc[|Header|..|doc| - |Footer|] == Entries(posts);
    EntriesRoundTrip(posts);
  }

  /** The entry of the post at `i` sits between the entries of the posts
      before it and those after it. */
  lemma EntryAt(posts: seq<string>, i: nat)
    requires i < |posts|
    ensures Entries(posts) == Entries(posts[..i]) + Entry(posts[i]) + Entries(posts[i + 1..])
  {
    assert posts == posts[..i] + posts[i..];
    EntriesAppend(posts[..i], posts[i..]);
    EntriesCons(posts[i..]);
    assert posts[i..][1..] == posts[i + 1..];
    var x, y, z := Entries(posts[..i]), Entry(posts[i]), Entries(posts[i + 1..]);
    assert x + (y + z) == x + y + z;
  }

  /** No posts, no `<url>` element: the document is the header and the
      footer. */
  lemma EmptySiteMap()
    ensures GenerateSiteMap([]) == Header + Footer
    ensures ParseSiteMap(GenerateSiteMap([])) == Some([])
  {
    SiteMapRoundTrip([]);
  }

  // ---------------------------------------------------------------------------
  // The path list of getServerSideProps

  /** JavaScript truthiness of a row's cell (`undefined` when absent). */
  predicate Truthy(cell: Option<Cell>) {
    match cell
    case None => false
    case Some(IdCell(id)) => id != ""
    case Some(TimeCell(t)) => t != 0
    case Some(DecodedCell(Str(s))) => s != ""
    case Some(DecodedCell(Bool(b))) => b
    case Some(DecodedCell(Num(n))) => n.Some? && n.value != 0.0
    case Some(_) => true
  }

  /** A row's cell under `name`. */
  function CellOf(row: Row, name: string): Option<Cell> {
    if name in row then Some(row[name]) else None
  }

  /** The filter `(page) => page.Published`. */
  function IsPublished(): Row -> bool {
    (r: Row) => Truthy(CellOf(r, "Published"))
  }

  /** The ids of the published rows, in table order, then `""` for the home
      page; `toText` is the string conversion of the template literal. */
  function PostPaths(rows: seq<Row>, toText: Option<Cell> -> string): (paths: seq<string>)
    ensures |paths| >= 1 && paths[|paths| - 1] == ""
  {
    if rows == [] then [""]
    else if Truthy(CellOf(rows[0], "Published")) then [toText(CellOf(rows[0], "id"))] + PostPaths(rows[1..], toText)
    else PostPaths(rows[1..], toText)
  }

  /** The paths are the published rows' ids, each exactly where its row is
      among the published ones, and the home page last. */
  lemma {:induction false} PostPathsArePublished(rows: seq<Row>, toText: Option<Cell> -> string)
    ensures var paths := PostPaths(rows, toText);
      var published := Filter(rows, IsPublished());
      && |paths| == |published| + 1
      && forall i :: 0 <= i < |published| ==> paths[i] == toText(CellOf(published[i], "id"))
  {
    if rows != [] {
      PostPathsArePublished(rows[1..], toText);
      var keep := IsPublished();
      assert rows == [rows[0]] + rows[1..];
      FilterAppend([rows[0]], rows[1..], keep);
      assert Filter([rows[0]], keep) == if keep(rows[0]) then [rows[0]] else [] by {
        assert [rows[0]][1..] == [];
      }
    }
  }

  /** The last entry of the sitemap is the home page, the site URL and a
      slash. */
  lemma HomePageLast(rows: seq<Row>, toText: Option<Cell> -> string)
    ensures var paths := PostPaths(rows, toText);
      Entries(paths) == Entries(paths[..|paths| - 1]) + Entry("")
  {
    var paths := PostPaths(rows, toText);
    EntriesAppend(paths[..|paths| - 1], [""]);
    assert paths[..|paths| - 1] + [""] == paths;
  }
}
