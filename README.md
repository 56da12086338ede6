# adventure-blog core, modelled in Dafny

This project models the data layer of a hiking blog that is rendered from a Notion workspace.

**Notion value decoding.** `getNotionValue` turns a Notion property (a list of decorated text runs) into a plain value according to the column type. Notion page ids are normalised to UUIDs. Text runs are concatenated, and tags get their Tailwind colours (module `NotionUtils`).

**Deterministic colour.** `Vibrate` maps a string or number key to a colour. It hashes the key like Java's `String.hashCode`, draws three values from a Halton sequence or a prime walk, and shapes them by a colour profile into an `hsl(...)` string (module `DeterministicColor`).

**Notion client.** Module `NotionData` covers:
- the user lookup;
- `getTableData`, which turns a collection's row blocks into table rows;
- `fetchPage`, which crawls the block tree of a page until every child of an expanded block is present, then attaches its table to every collection view.

**Image URLs.** The page renderer's `mapImageUrl` sends images through the image proxy of notion.so, signed with their block (module `BlogPage`). The URL search parameters are a small `URLSearchParams` class (module `Url`).

**Sitemap.** The sitemap page builds a Sitemaps 0.9 document with one `<url>` per published post and one for the home page (module `Sitemap`).

JavaScript's run-time behaviour is written out where the code depends on it (module `Js`):
- a dereference of a missing value throws, modelled as `Outcome.Thrown(TypeError)`;
- `%` truncates;
- `&`, `<<` and `>>>` wrap to 32 bits.

Every network request (Notion's `loadPageChunk`, `syncRecordValues`, `queryCollection` and `getRecordValues`) is a function-typed parameter. `Number(...)`, `encodeURIComponent` and number formatting are parameters too.

Each finding under "## Findings" appears in both forms: the code as written and a corrected definition. `Vibrate` and `fetchPage` follow the code as written. `GetTableData` takes the relation marker as a parameter: `RelationMarkerAsWritten` gives the source, and `RelationMarker` gives the corrected decoder.

## Model

| member | source | states |
|---|---|---|
| NotionUtils.IdToUuidStripsBack | src/utils/utils.ts:9-13 | the five groups of the UUID are consecutive pieces of the raw id, so removing the dashes gives back any dash-free id |
| NotionUtils.UuidLayout | src/utils/utils.ts:9-13 | a 32-character raw id becomes 36 characters, with dashes exactly at positions 8, 13, 18 and 23 |
| NotionUtils.ParsePageId | src/utils/utils.ts:15-20 | the result is undefined exactly for the empty id |
| NotionUtils.ParsePageIdIdempotent | src/utils/utils.ts:15-20 | parsing an already parsed id gives the same id |
| NotionUtils.ParsePageIdShape | src/utils/utils.ts:15-20 | an id with at least 32 non-dash characters becomes a 36-character UUID, dashes at 8/13/18/23, made of its last 32 non-dash characters in order |
| NotionUtils.FoldTextIsTexts | src/utils/utils.ts:81-83 | the reduce from any prefix is that prefix followed by every run's text in order |
| NotionUtils.TextContentConcatenates | src/utils/utils.ts:81-83 | no runs give "", one run gives its text, and the text of a concatenation is the concatenation of the texts |
| NotionUtils.TextsAppend | src/utils/utils.ts:81-83 | the texts of two run lists are appended |
| NotionUtils.SplitCommas | src/utils/utils.ts:47-48 | `split(",")` always returns at least one piece |
| NotionUtils.SplitCommasInverse | src/utils/utils.ts:47-48 | joining the pieces with commas gives the string back; no piece holds a comma; there is one piece more than there are commas |
| NotionUtils.SplitJoin | src/utils/utils.ts:47-48 | joining the pieces with commas gives the input |
| NotionUtils.SplitNoComma | src/utils/utils.ts:47-48 | no piece holds a comma |
| NotionUtils.SplitCount | src/utils/utils.ts:47-48 | the number of pieces is the number of commas plus one |
| NotionUtils.FileOf | src/utils/utils.ts:58-73 | a file record exists exactly when the first mark's payload is a string |
| NotionUtils.DecodeText | src/utils/utils.ts:28-29 | `text` and `title` are the runs' texts concatenated in order, "" for no runs |
| NotionUtils.DecodeCheckbox | src/utils/utils.ts:34-35 | true exactly when the first run's text is "Yes"; with no run it throws |
| NotionUtils.DecodeSingleValue | src/utils/utils.ts:42-46 | `select`, `email`, `phone_number` and `url` give the first run's text whatever its marks, and throw with no run (`val[0]![0]`, the helper FirstText) |
| NotionUtils.DecodeMultiSelect | src/utils/utils.ts:47-48 | the first run's text cut at every comma: the pieces join back to it, hold no comma, and number the commas plus one |
| NotionUtils.DecodeNumber | src/utils/utils.ts:49-50 | `Number` of the first run's text; with no run it throws |
| NotionUtils.DecodeDate | src/utils/utils.ts:36-39 | succeeds exactly when the first run has a first mark whose payload is present when tagged "d"; a non-empty result is that date object's start; any other tag gives "" |
| NotionUtils.DecodePerson | src/utils/utils.ts:30-33 | keeps the runs with marks, in order; succeeds iff every kept run has a first mark; then gives one id per kept run, its first payload (helpers FirstPayload for `v[1]![0]![1]` and PersonRule for the branch) |
| NotionUtils.DecodeRelation | src/utils/utils.ts:51-54 | keeps exactly the runs whose text is the mention glyph "‣", in order; succeeds iff each has a first mark; then gives its payload (helper RelationRule for the branch) |
| NotionUtils.DecodeFile | src/utils/utils.ts:55-74 | one record per run with marks, in order: name is the run's text, raw URL the payload, URL on notion.so under the image proxy with exactly the query `table=block`, `id=<row id>`, `cache=v2`; fails iff a payload is missing or not a string (helpers FileOf and FileRule) |
| NotionUtils.DecodeUnsupported | src/utils/utils.ts:75-77 | every other column type decodes to the string "Not supported" |
| NotionUtils.RelationAsWrittenDropsMentions | src/utils/utils.ts:51-54 | the decoder as written turns a relation holding one page mention into no ids; the corrected one keeps the page id |
| NotionUtils.AsWrittenDiffersOnlyOnRelation | src/utils/utils.ts:22-79 | the as-written and corrected decoders agree on every column type but `relation` |
| NotionUtils.TagColorPairsOneHue | src/utils/utils.ts:85-100 | every tag gets a 200 background and a 700 text of one hue: red, violet, blue, green, orange for the five known tags, neutral otherwise |
| NotionUtils.TagColorsDistinct | src/utils/utils.ts:85-100 | the five known tags get five different classes, none of them the fallback's |
| NotionUtils.TagInitial | src/utils/utils.ts:87-96 | the hue of each known tag starts with its own letter (r, v, b, g, o) |
| DeterministicColor.Hash | src/utils/deterministic-color.ts:71-81 | the hash is always a 32-bit signed integer |
| DeterministicColor.HashStepIsTimes31 | src/utils/deterministic-color.ts:77-78 | one loop step, `(hash << 5) - hash + c` then `hash & hash`, is `31 * hash + c` wrapped to 32 bits |
| DeterministicColor.Times31Congruent | src/utils/deterministic-color.ts:77-78 | multiplying by 31 keeps a multiple of 2^32 one |
| DeterministicColor.HashIsJavaHashCode | src/utils/deterministic-color.ts:70-81 | the hash is Java's `String.hashCode`: the polynomial in 31 over the code units, wrapped to 32 bits |
| DeterministicColor.HashCode | src/utils/deterministic-color.ts:71-81 | the loop computes the hash; it is a 32-bit integer and 0 for the empty key |
| DeterministicColor.Seed | src/utils/deterministic-color.ts:86-92 | a non-numeric string key becomes its 32-bit hash |
| DeterministicColor.RadicalInverseBounds | src/utils/deterministic-color.ts:103-113 | each Halton component lies in [0, 1), and is 0 for key 0 |
| DeterministicColor.HaltonStep | src/utils/deterministic-color.ts:107-111 | one round of the inner loop keeps the result the loop will reach |
| DeterministicColor.DivDecreases | src/utils/deterministic-color.ts:109 | `Math.floor(i / b)` is below a positive `i`, so the inner loop ends |
| DeterministicColor.RadicalInverseDigits | src/utils/deterministic-color.ts:104-112 | the inner loop computes the radical inverse of the key in the base |
| DeterministicColor.HaltonComponents | src/utils/deterministic-color.ts:99-113 | the outer loop gives one radical inverse per base 3, 5, 7, in order |
| DeterministicColor.PrimeWalkPeriodic | src/utils/deterministic-color.ts:119-133 | for a non-negative key the prime walk repeats every 359·101·103 = 3,734,677 keys |
| DeterministicColor.DefaultProfiles | src/utils/deterministic-color.ts:57 | the table's names are those of the two profile tables |
| DeterministicColor.DefaultProfilesExact | src/utils/deterministic-color.ts:41-57 | the two tables do not overlap; the table holds the nine names, each with its own profile, and every profile has min ≤ max |
| DeterministicColor.ProfileRegistry.constructor | src/utils/deterministic-color.ts:57 | the registry starts with the merged default table |
| DeterministicColor.InitSelectsRequestedProfile | src/utils/deterministic-color.ts:158-173 | no choice selects "default"; a name is kept as given and leaves the table alone; a tuple is stored under "user", which is selected, and nothing else changes |
| DeterministicColor.UserProfilePersists | src/utils/deterministic-color.ts:170 | a stored "user" profile survives a later call with a named or no profile |
| DeterministicColor.Init | src/utils/deterministic-color.ts:158-173 | `_init` sets the resolved options and updates the shared profile table in place |
| DeterministicColor.FinalHue | src/utils/deterministic-color.ts:141-147 | the hue lies in [0, 360) whatever the scale and the centre |
| DeterministicColor.SpreadBounds | src/utils/deterministic-color.ts:143-149 | with a random number in [0, 100) and 0 ≤ min ≤ max, saturation and lightness fall in [min, max] |
| DeterministicColor.RandomsBounds | src/utils/deterministic-color.ts:94-134 | the second and third random numbers lie in [0, 100) for Halton or for a non-negative key |
| DeterministicColor.HslComponentsBounds | src/utils/deterministic-color.ts:83-156 | throws (a TypeError) exactly when the profile is unknown; otherwise the hue is in [0, 360); for the Halton generator or a non-negative seed, and a profile with 0 ≤ min ≤ max, saturation and lightness lie within the profile's ranges (a negative prime-walk seed can leave them: see Findings) |
| DeterministicColor.PrimeWalkNegativeKeyLeavesRange | src/utils/deterministic-color.ts:131-145 | as written, key -1 with the prime walk and the `pastel` profile gives a saturation below the profile's minimum 60; the corrected components give one within it |
| DeterministicColor.RandomsCorrectedBounds | src/utils/deterministic-color.ts:94-134 | with non-negative remainders in the prime walk, the second and third random numbers lie in [0, 100) for every seed and generator |
| DeterministicColor.HslComponentsCorrectedBounds | src/utils/deterministic-color.ts:83-156 | the corrected components throw a TypeError exactly for an unknown profile; otherwise the hue is in [0, 360) and, for every key, saturation and lightness lie within ordered profile ranges |
| DeterministicColor.NumericStringSameAsNumber | src/utils/deterministic-color.ts:86-89 | a numeric string gives the colour of its number |
| DeterministicColor.KeySeed | src/utils/deterministic-color.ts:86-92 | the key conversion computes the seed |
| DeterministicColor.GeneratorRandoms | src/utils/deterministic-color.ts:94-134 | the generator branch computes the three random numbers |
| DeterministicColor.ComputeHue | src/utils/deterministic-color.ts:136-147 | the centred, scaled hue, lifted into [0, 360) |
| DeterministicColor.ComputeSpread | src/utils/deterministic-color.ts:143-149 | the saturation or lightness computation |
| DeterministicColor.GetHslComponents | src/utils/deterministic-color.ts:83-156 | `_getHslComponents` computes the components, or throws for an unknown profile |
| DeterministicColor.ColorOutput | src/utils/deterministic-color.ts:175-187 | "Color profile not found" exactly when the profile is unknown; a string exactly for hsl, husl and huslp |
| DeterministicColor.VibrateOutcomes | src/utils/deterministic-color.ts:188-191 | after `_init` the not-found error cannot happen; an unknown profile is a TypeError and nothing else is; an hsl profile gives `hsl(h,s%,l%)` with h in [0, 360) |
| DeterministicColor.Vibrate | src/utils/deterministic-color.ts:67-207 | `_init` then `_getColor`: the profile table is updated as `_init` says, and the result is the colour of the key |
| NotionData.UsersOf | src/utils/notion.ts:115-127 | one user per record, in order: id, first name, last name, photo copied, full name is given + " " + family (NotionUsers applies it to the results, and gives no users when the response has none) |
| NotionData.FullNameSplits | src/utils/notion.ts:121 | when the given name has no space, the full name splits back into first and last name |
| NotionData.TableBlocks | src/utils/notion.ts:195-198 | succeeds exactly when every listed id is in the block map (a TypeError otherwise), and gives the blocks in order |
| NotionData.RowBlocks | src/utils/notion.ts:200-203 | only blocks with properties whose parent is the collection remain, never more than there were |
| NotionData.RowBlocksAppend | src/utils/notion.ts:200-203 | the filter distributes over concatenation |
| NotionData.RowBlocksSingle | src/utils/notion.ts:200-203 | a single block is kept exactly when it is a row of the collection |
| NotionData.ColumnsThrown | src/utils/notion.ts:210-220 | a column that throws ends its row with that error |
| NotionData.RowsThrown | src/utils/notion.ts:207-224 | a row that throws ends the table with that error |
| NotionData.BuildRow | src/utils/notion.ts:208-221 | the column loop builds the row the specification function defines, decoding with the given relation marker |
| NotionData.GetTableData | src/utils/notion.ts:180-227 | the method computes the table the specification function defines; with `RelationMarkerAsWritten` it is the source as written, with `RelationMarker` the corrected decoder |
| NotionData.ColumnsContents | src/utils/notion.ts:208-220 | the row keeps its id unless a column is named "id"; every other key is a column whose property is present |
| NotionData.ColumnValue | src/utils/notion.ts:210-220 | a uniquely named column with a present property holds that property's cell, decoded with the given relation marker |
| NotionData.RelationCellAsWritten | src/utils/notion.ts:214 | as written, a non-raw relation cell holding a page mention decodes to no ids; with the corrected marker it holds the page id |
| NotionData.RowsOfEach | src/utils/notion.ts:207-224 | one row per kept block, in order, each its block's row |
| NotionData.RawRowsSucceed | src/utils/notion.ts:213 | in raw mode no row can fail |
| NotionData.RawColumnsSucceed | src/utils/notion.ts:213 | in raw mode no column can fail |
| NotionData.TableShape | src/utils/notion.ts:180-227 | a listed id missing from the map is a TypeError; raw mode with every id present succeeds; the table carries the schema, one row per kept block, each with its `created_time`, and its id unless a column is named "id" |
| NotionData.Pending | src/utils/notion.ts:263-273 | the next request lists only ids that are not present yet |
| NotionData.PendingEmptyIffClosed | src/utils/notion.ts:275-277 | the loop stops exactly when every child of an expanded block is present |
| NotionData.OtherPagesSkipped | src/utils/notion.ts:267-270 | children found only under other page blocks are never requested |
| NotionData.Merge | src/utils/notion.ts:283 | the keys are the union; new blocks override, old ones stay otherwise |
| NotionData.Crawl | src/utils/notion.ts:260-284 | the `while (true)` loop reaches the state of the crawl function |
| NotionData.CrawlKeepsKeys | src/utils/notion.ts:255-284 | the crawl never loses a block it started with |
| NotionData.CrawlClosed | src/utils/notion.ts:260-284 | a finished crawl is closed: every child of an expanded block is present |
| NotionData.CrawlStalls | src/utils/notion.ts:260-284 | if Notion never answers, a crawl with requests pending never finishes |
| NotionData.CrawlStallsOnMissing | src/utils/notion.ts:260-284 | if Notion never returns one pending child (nor a new version of the block listing it), the crawl never finishes, whatever else it returns |
| NotionData.Restrict | src/utils/notion.ts:279-281 | a store's answer holds exactly the requested ids it knows, with its blocks |
| NotionData.CrawlFinishes | src/utils/notion.ts:260-284 | if Notion answers from a closed store that agrees with the start, the crawl finishes within as many rounds as the store has missing blocks |
| NotionData.CrawlStep | src/utils/notion.ts:275-277 | with nothing pending the crawl stops at once, finished |
| NotionData.Lookup | src/utils/notion.ts:329-332 | a view is found exactly when some entry has its id, and is that entry's value |
| NotionData.ViewTypes | src/utils/notion.ts:329-332 | one looked-up view per view id, in order |
| NotionData.EnrichedBlockErrors | src/utils/notion.ts:305-338 | enriching a view only throws TypeErrors; when it succeeds it keeps the block's value and sets its collection (`Object.values(...)[0]` is the helper FirstValue) |
| NotionData.EnrichBlock | src/utils/notion.ts:306-338 | the loop body computes the enriched view |
| NotionData.Enrich | src/utils/notion.ts:305-339 | the loop over the collection views computes the enrichment of the whole map |
| NotionData.EnrichAllShape | src/utils/notion.ts:297-339 | fails, with a TypeError, exactly when a view fails, and always when a view id is not a key; otherwise it keeps every key and value, gives each view its collection, and changes nothing else |
| NotionData.ViewsAreKeys | src/utils/notion.ts:297-303 | in a map keyed by block id, the pending collections are exactly the collection-view keys |
| NotionData.FetchPage | src/utils/notion.ts:246-342 | the method computes the page the specification function defines |
| NotionData.FetchPageShape | src/utils/notion.ts:246-342 | there is a result exactly when the crawl finishes; the crawled map holds the page's own blocks and is closed; without a collection it is returned as is; errors are TypeErrors; a result keeps every key and value and changes only collection views |
| Url.ProxyPath | src/components/BlogPage.tsx:16-20 | the proxy path always starts with "/image": a path starting with it is kept, any other is encoded under "/image/" |
| Url.ProxyPathIdempotent | src/components/BlogPage.tsx:16-20 | proxying a proxied path changes nothing |
| Url.Named | src/components/BlogPage.tsx:24-26 | the pairs under one name are pairs of the list |
| Url.Without | src/components/BlogPage.tsx:24-26 | removing a name leaves no pair under it |
| Url.NamedWithout | src/components/BlogPage.tsx:24-26 | removing one name leaves the pairs under every other name |
| Url.SetParamReplaces | src/components/BlogPage.tsx:24-26 | after `set`, exactly one pair has the name, with the new value; every other name's pairs are unchanged |
| Url.SetParamAbsent | src/components/BlogPage.tsx:24-26 | setting a new name appends the pair |
| Url.ThreeSets | src/components/BlogPage.tsx:24-26 | three sets of distinct names on empty parameters give exactly those three pairs, in order |
| Url.SearchParams.constructor | src/components/BlogPage.tsx:16-20 | a new URL has no search parameters |
| Url.SearchParams.Set | src/components/BlogPage.tsx:24-26 | `searchParams.set` updates the list in place |
| BlogPage.ProxyTable | src/components/BlogPage.tsx:23 | the table is never "space": a space parent is signed against the block table, any other parent table is kept |
| BlogPage.MapImageUrl | src/components/BlogPage.tsx:15-30 | the mapper builds the URL the specification function defines |
| BlogPage.ImageUrlShape | src/components/BlogPage.tsx:15-30 | the URL is on notion.so under the proxy path; without a block, or for a page cover, there is no query; otherwise `table`, `id` and `cache` appear once each, with the table, the block id and v2 |
| Sitemap.EntryList | src/pages/sitemap.xml.ts:12-19 | one entry per post, in order |
| Sitemap.JoinAppend | src/pages/sitemap.xml.ts:20 | `join("")` distributes over concatenation |
| Sitemap.EntriesCons | src/pages/sitemap.xml.ts:12-20 | the entries are the first post's entry, then the rest's entries |
| Sitemap.EntriesAppend | src/pages/sitemap.xml.ts:12-20 | the entries of two post lists are appended |
| Sitemap.GenerateSiteMap | src/pages/sitemap.xml.ts:9-23 | the document starts with the XML declaration and the `<urlset>` header and ends with the closing `</urlset>` |
| Sitemap.IndexOfTag | src/pages/sitemap.xml.ts:16 | finds the first `<`, with none before it |
| Sitemap.EntryReadsBack | src/pages/sitemap.xml.ts:14-18 | a post without `<` reads back from its `<loc>` up to `</loc>` |
| Sitemap.ParseEntryStep | src/pages/sitemap.xml.ts:14-18 | reading an entry yields its post, then the rest |
| Sitemap.IndexOfTagStops | src/pages/sitemap.xml.ts:16 | the first `<` after tag-free text is where that text ends |
| Sitemap.EntriesRoundTrip | src/pages/sitemap.xml.ts:12-20 | the entries read back as exactly the posts, in order |
| Sitemap.SiteMapRoundTrip | src/pages/sitemap.xml.ts:9-23 | the whole document reads back as the posts it was built from |
| Sitemap.EntryAt | src/pages/sitemap.xml.ts:12-20 | each post's entry lies between the entries of the posts before it and those after it |
| Sitemap.EmptySiteMap | src/pages/sitemap.xml.ts:10-22 | no posts give just the header and the footer, which read back as no posts |
| Sitemap.PostPaths | src/pages/sitemap.xml.ts:35 | the last path is always "", the home page |
| Sitemap.PostPathsArePublished | src/pages/sitemap.xml.ts:32 | the paths are the ids of the published rows in table order, then the home page |
| Sitemap.HomePageLast | src/pages/sitemap.xml.ts:32-35 | the last entry of the sitemap is the home page |

## Left out

- The network requests, through `fetchNotionData`, are parameters. The model assumes that each one answers the same request with the same result. Authentication and time-outs are not modelled.
- NotionData.Crawl and NotionData.CrawlFrom take a round bound, `fuel`. The source loops until nothing is pending, and loops forever when Notion never returns a pending child (NotionData.CrawlStallsOnMissing). A crawl that runs out of rounds gives no result (`None`). NotionData.CrawlFinishes states when the bound is enough.
- NotionData.Pending is a set, while the source builds an array. Request order and duplicate ids are not modelled; the response is a map whatever the order.
- JavaScript object key order is not modelled: `Object.values(...)[0]` reads the first entry of an ordered list of entries. Block maps are Dafny maps.
- `getTableData` and `fetchPage` are async and sequential. Concurrency is not modelled.
- In `fetchPage`, the pending collections are the value ids of the collection-view blocks. A view whose value id is not its key throws a TypeError in the model. That matches the source's unguarded dereference of `allBlocks[b]`.
- `fetchTable` (src/utils/notion.ts:229-244) is not modelled. The sitemap path list takes the rows as input.
- The template-literal stringification of a row's id is a parameter (`toText`), because cells are not strings.
- src/utils/types.ts is not part of this model. Its types are written out as datatypes.
- `console.log` in the decoder's default branch is I/O and is not modelled. So are `res.setHeader`, `res.write` and `res.end` on the sitemap page.
- Sitemap.SiteMapRoundTrip: requires posts without `<`, because the source inserts post ids with no XML escaping.
- The colour arithmetic uses exact reals, not IEEE doubles. The `hsl(...)` text uses `String(number)` as a formatting parameter.
- DeterministicColor.Seed: numeric keys are integers. Fractional, infinite and NaN numbers are not modelled, and `Number(key)` is a parameter that returns an integer or nothing.
- DeterministicColor.PrimeWalkPeriodic: `primeWalkHueDistance` is an integer in the model, while the source accepts any number; the period of 3,734,677 keys holds only for integer distances.
- The `hsluvToHex` and `hpluvToHex` conversions of the `husl` and `huslp` profiles are an external library. They are a parameter of DeterministicColor.ColorOutput.
- DeterministicColor.Init: an option the caller passes explicitly as `undefined` is modelled as absent. In the source, `{...defaults, ...options}` would copy the `undefined`.
- Url.SetParam is a function on the pair list, and NotionUtils.FileUrl uses it as a value. The source mutates a local `URL` object, which nothing else aliases.
- URL parsing and `URL.toString()` are not modelled. A URL is its origin-and-path string plus its query list. So the "exactly the query `table`, `id`, `cache`" of NotionUtils.DecodeFile and BlogPage.ImageUrlShape holds only for image paths without "?", since the source parses a "?" in the path as a query of its own.
- Only the `id` and `parent_table` of the renderer's block are read (BlogPage.ImageBlock). The rest of the renderer is not modelled.

## Findings

| source | as written | input that shows it | evidently intended | confidence | as-written member | corrected member |
|---|---|---|---|---|---|---|
| src/utils/utils.ts:53 | the `relation` filter compares the run's text with "â€£", the UTF-8 bytes of "‣" read as Windows-1252 | a relation whose one run is the page mention "‣" with a page-id mark decodes to no ids | compare with the mention glyph "‣" (U+2023), which keeps the mentioned page ids | not executed | NotionUtils.RelationAsWrittenDropsMentions | NotionUtils.DecodeRelation |
| src/utils/deterministic-color.ts:131-133 | the prime walk takes JavaScript's truncating `%` of the key's products, which is negative for a negative key, and lines 143-149 then map it into the profile range | key -1 with the prime walk and the `pastel` profile: `-13 % 101` is -13, the second random number about -12.87, and the saturation about 54.85, below the profile's minimum 60 | random numbers in [0, 100) for every key, as in the Halton branch, so that saturation and lightness stay within the profile's ranges | not executed | DeterministicColor.PrimeWalkNegativeKeyLeavesRange | DeterministicColor.HslComponentsCorrectedBounds |
