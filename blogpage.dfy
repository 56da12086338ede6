/** The image URL mapper of the blog's page renderer
    (src/components/BlogPage.tsx): every image is served through the proxy of
    notion.so, signed with the block it belongs to. */
module BlogPage {
  import opened Js
  import opened Url

  /** What the mapper reads of the renderer's block: its id and the table of
      its parent. */
  datatype ImageBlock = ImageBlock(id: string, parentTable: string)

  /** The `table` parameter: a block whose parent is a space is looked up in
      the block table, any other in its parent's table. */
  function ProxyTable(parentTable: string): (table: string)
    ensures parentTable == "space" ==> table == "block"
    ensures parentTable != "space" ==> table == parentTable
    ensures table != "space"
  {
    if parentTable == "space" then "block" else parentTable
  }

  /** Page covers are public, so their URLs are never signed. */
  predicate IsPageCover(image: string) {
    Includes(image, "/images/page-cover/")
  }

  /** The URL `mapImageUrl` returns, as a value: the proxied path on notion.so,
      and, for an image of a block that is not a page cover, the query
      `table`, `id`, `cache=v2` in that order. */
  function ImageUrl(image: string, block: Option<ImageBlock>, encodeURIComponent: string -> string): Url {
    var base := NotionOrigin + ProxyPath(image, encodeURIComponent);
    if block.Some? && !IsPageCover(image) then
      Url(base, [("table", ProxyTable(block.value.parentTable)), ("id", block.value.id), ("cache", "v2")])
    else Url(base, [])
  }

  /** `mapImageUrl`: a fresh URL whose search parameters are set in place. */
  method MapImageUrl(image: string, block: Option<ImageBlock>, encodeURIComponent: string -> string) returns (url: Url)
    ensures url == ImageUrl(image, block, encodeURIComponent)
  {
    var searchParams := new SearchParams();
    if block.Some? && !IsPageCover(image) {
      var table := ProxyTable(block.value.parentTable);
      searchParams.Set("table", table);
      searchParams.Set("id", block.value.id);
      searchParams.Set("cache", "v2");
      ThreeSets("table", table, "id", block.value.id, "cache", "v2");
    }
    url := Url(NotionOrigin + ProxyPath(image, encodeURIComponent), searchParams.list);
  }

  /** What the mapper promises: the URL is on notion.so with the proxy path;
      an image without a block, or a page cover, gets no query; any other has
      each of `table`, `id` and `cache` exactly once, with the block's table,
      the block's id and `v2`. */
  lemma ImageUrlShape(image: string, block: Option<ImageBlock>, encodeURIComponent: string -> string)
    ensures var url := ImageUrl(image, block, encodeURIComponent);
      && StartsWith(url.base, NotionOrigin)
      && url.base[|NotionOrigin|..] == ProxyPath(image, encodeURIComponent)
      && (block.None? || IsPageCover(image) ==> url.query == [])
      && (block.Some? && !IsPageCover(image) ==>
            && Named(url.query, "table") == [("table", ProxyTable(block.value.parentTable))]
            && Named(url.query, "id") == [("id", block.value.id)]
            && Named(url.query, "cache") == [("cache", "v2")]
            && |url.query| == 3)
  {
    var url := ImageUrl(image, block, encodeURIComponent);
    assert (NotionOrigin + ProxyPath(image, encodeURIComponent))[..|NotionOrigin|] == NotionOrigin;
    if block.Some? && !IsPageCover(image) {
      var table := ProxyTable(block.value.parentTable);
      var q1 := SetParam([], "table", table);
      var q2 := SetParam(q1, "id", block.value.id);
      ThreeSets("table", table, "id", block.value.id, "cache", "v2");
      SetParamReplaces([], "table", table);
      SetParamReplaces(q1, "id", block.value.id);
      SetParamReplaces(q2, "cache", "v2");
    }
  }
}
