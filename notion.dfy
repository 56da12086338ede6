/*
 * The Notion data layer of the blog (src/utils/notion.ts): the crawl that
 * fetches a page's block tree until every referenced child is present, the
 * enrichment of collection views with their table data, the assembly of table
 * rows, and the mapping of user records.
 *
 * Every call to Notion's HTTP API is an oracle: a function-typed field of
 * `Oracles`, which the model calls where the source awaits a request. The
 * record shapes are the fields the code reads (src/utils/types.ts is not part
 * of this model).
 */
module NotionData {
  import opened Js
  import opened NotionUtils

  // ---------------------------------------------------------------------------
  // fetchNotionUsers

  /** A `notion_user` record as returned by `getRecordValues` (its `value`). */
  datatype UserRecord = UserRecord(id: string, givenName: string, familyName: string, profilePhoto: string)

  /** The user object the blog builds; `lastLame` is the source's own name
      for the family-name field. */
  datatype User = User(id: string, firstName: string, lastLame: string, fullName: string, profilePhoto: string)

  /** The user objects of a list of records, one per record, in order. */
  function UsersOf(records: seq<UserRecord>): (users: seq<User>)
    ensures |users| == |records|
    ensures forall i :: 0 <= i < |users| ==>
      && users[i].id == records[i].id
      && users[i].firstName == records[i].givenName
      && users[i].lastLame == records[i].familyName
      && users[i].fullName == records[i].givenName + " " + records[i].familyName
      && users[i].profilePhoto == records[i].profilePhoto
  {
    if records == [] then []
    else
      var u := records[0];
      [User(u.id, u.givenName, u.familyName, u.givenName + " " + u.familyName, u.profilePhoto)] + UsersOf(records[1..])
  }

  /** `fetchNotionUsers` after the request: `results` is `None` when the
      response or its `results` is missing, and then there are no users. */
  function NotionUsers(results: Option<seq<UserRecord>>): (users: seq<User>)
    ensures results.None? ==> users == []
    ensures results.Some? ==> users == UsersOf(results.value)
  {
    if results.Some? then UsersOf(results.value) else []
  }

  /** The full name of every user is the first name, a space and the family
      name, so both parts can be read back from it when the first name has no
      space. */
  lemma FullNameSplits(records: seq<UserRecord>, i: nat)
    requires i < |records| && ' ' !in records[i].givenName
    ensures var u := UsersOf(records)[i];
      u.fullName[..|u.firstName|] == u.firstName
      && u.fullName[|u.firstName|] == ' '
      && u.fullName[|u.firstName| + 1..] == u.lastLame
  {
  }

  // ---------------------------------------------------------------------------
  // Blocks, collections and rows

  /** One table cell of a row: the block id, a raw property, a decoded
      property, the users of a `person` column, or the creation time. */
  datatype Cell =
    | IdCell(id: string)
    | RawCell(runs: seq<Run>)
    | DecodedCell(value: Decoded)
    | UsersCell(users: seq<User>)
    | TimeCell(time: int)

  /** A row: column name to cell. */
  type Row = map<string, Cell>

  /** A schema column: the name rows use and the Notion type tag. */
  datatype Column = Column(name: string, kind: string)

  /** A collection schema: property key to column, in key order. */
  type Schema = seq<(string, Column)>

  /** A collection view record (its `value`). */
  datatype ViewValue = ViewValue(id: string, kind: string)

  /** The `collection` a collection-view block gets from the enrichment. */
  datatype CollectionInfo = CollectionInfo(title: string, schema: Schema, types: seq<Option<ViewValue>>, data: seq<Row>)

  /** The `value` of a block record. */
  datatype BlockValue = BlockValue(
    id: string,
    kind: string,
    content: Option<seq<string>>,
    parentId: string,
    properties: Option<map<string, seq<Run>>>,
    createdTime: int,
    viewIds: Option<seq<string>>)

  /** A block record; `collection` is only ever set by the enrichment. */
  datatype Block = Block(value: Option<BlockValue>, collection: Option<CollectionInfo>)

  /** A collection record (its `value`). */
  datatype CollectionValue = CollectionValue(id: string, name: string, schema: Schema)

  /** The record map of a `loadPageChunk` response; objects whose key order
      matters are lists of entries. */
  datatype RecordMap = RecordMap(
    block: Option<map<string, Block>>,
    collection: Option<seq<(string, CollectionValue)>>,
    collectionView: Option<seq<(string, ViewValue)>>)

  datatype PageChunk = PageChunk(recordMap: Option<RecordMap>)

  /** A `queryCollection` response: the row ids in result order and their
      blocks. */
  datatype TableResponse = TableResponse(blockIds: seq<string>, block: map<string, Block>)

  /** The four Notion requests: `fetchPageById` (given `undefined` when the id
      does not parse), `fetchBlocks` (its `recordMap.block`), `fetchTableData`
      and `fetchNotionUsers` (its `results`). */
  datatype Oracles = Oracles(
    fetchPageById: Option<string> -> PageChunk,
    fetchBlocks: set<string> -> map<string, Block>,
    fetchTableData: (string, string) -> TableResponse,
    fetchUsers: Cell -> Option<seq<UserRecord>>)

  // ---------------------------------------------------------------------------
  // getTableData

  /** `table.recordMap.block[id]!` for every id: a missing block is
      `undefined`, and the filter's `b.value` then throws. */
  function TableBlocks(ids: seq<string>, block: map<string, Block>): (r: Outcome<seq<Block>>)
    ensures r.Ok? <==> forall i :: 0 <= i < |ids| ==> ids[i] in block
    ensures r.Thrown? ==> r.error == TypeError
    ensures r.Ok? ==> |r.value| == |ids| && forall i :: 0 <= i < |ids| ==> r.value[i] == block[ids[i]]
  {
    if ids == [] then Ok([])
    else if ids[0] !in block then Thrown(TypeError)
    else match TableBlocks(ids[1..], block)
      case Thrown(e) => Thrown(e)
      case Ok(rest) => Ok([block[ids[0]]] + rest)
  }

  /** The row filter: a value, properties, and the collection as parent. */
  predicate IsRowOf(b: Block, collectionId: string) {
    b.value.Some? && b.value.value.properties.Some? && b.value.value.parentId == collectionId
  }

  /** The values of the blocks that pass the row filter, in order. */
  function RowBlocks(blocks: seq<Block>, collectionId: string): (rows: seq<BlockValue>)
    ensures |rows| <= |blocks|
    ensures forall i :: 0 <= i < |rows| ==> rows[i].properties.Some? && rows[i].parentId == collectionId
  {
    if blocks == [] then []
    else if IsRowOf(blocks[0], collectionId) then [blocks[0].value.value] + RowBlocks(blocks[1..], collectionId)
    else RowBlocks(blocks[1..], collectionId)
  }

  /** The filter keeps the order: filtering a concatenation concatenates the
      filtered parts. */
  lemma {:induction false} RowBlocksAppend(a: seq<Block>, b: seq<Block>, collectionId: string)
    ensures RowBlocks(a + b, collectionId) == RowBlocks(a, collectionId) + RowBlocks(b, collectionId)
  {
    if a == [] {
      assert a + b == b;
    } else {
      assert (a + b)[1..] == a[1..] + b;
      RowBlocksAppend(a[1..], b, collectionId);
    }
  }

  /** A single block is kept exactly when it passes the filter. */
  lemma RowBlocksSingle(b: Block, collectionId: string)
    ensures RowBlocks([b], collectionId) == if IsRowOf(b, collectionId) then [b.value.value] else []
  {
    assert [b][1..] == [];
  }

  /** The cell of one present property: the raw runs when `raw` is set, else
      the value `getNotionValue` decodes, with `marker` as the text of a
      relation run (the source as written passes `RelationMarkerAsWritten`);
      a `person` column then holds the users fetched for that cell (the cell
      is always truthy there: both the runs and the decoded id list are
      arrays). */
  function ColumnCell(val: seq<Run>, col: Column, rowId: string, raw: bool, marker: string, js: Runtime,
                      fetchUsers: Cell -> Option<seq<UserRecord>>): Outcome<Cell>
  {
    var cell :=
      if raw then Ok(RawCell(val))
      else match DecodeWith(marker, val, col.kind, rowId, js)
        case Thrown(e) => Thrown(e)
        case Ok(d) => Ok(DecodedCell(d));
    match cell
    case Thrown(e) => Thrown(e)
    case Ok(c) => if col.kind == "person" then Ok(UsersCell(NotionUsers(fetchUsers(c)))) else Ok(c)
  }

  /** One column written into a row: only when the block has that property. */
  function WriteColumn(row: Row, v: BlockValue, entry: (string, Column), raw: bool, marker: string, js: Runtime,
                       fetchUsers: Cell -> Option<seq<UserRecord>>): Outcome<Row>
    requires v.properties.Some?
  {
    var (key, col) := entry;
    if key !in v.properties.value then Ok(row)
    else match ColumnCell(v.properties.value[key], col, v.id, raw, marker, js, fetchUsers)
      case Thrown(e) => Thrown(e)
      case Ok(c) => Ok(row[col.name := c])
  }

  /** The row after the columns of `schema`, written in order onto `{ id }`. */
  function ColumnsOf(v: BlockValue, schema: Schema, raw: bool, marker: string, js: Runtime,
                     fetchUsers: Cell -> Option<seq<UserRecord>>): Outcome<Row>
    requires v.properties.Some?
    decreases |schema|
  {
    if schema == [] then Ok(map["id" := IdCell(v.id)])
    else match ColumnsOf(v, schema[..|schema| - 1], raw, marker, js, fetchUsers)
      case Thrown(e) => Thrown(e)
      case Ok(row) => WriteColumn(row, v, schema[|schema| - 1], raw, marker, js, fetchUsers)
  }

  /** The finished row: the columns, then `created_time`. */
  function RowOf(v: BlockValue, schema: Schema, raw: bool, marker: string, js: Runtime,
                 fetchUsers: Cell -> Option<seq<UserRecord>>): Outcome<Row>
    requires v.properties.Some?
  {
    match ColumnsOf(v, schema, raw, marker, js, fetchUsers)
    case Thrown(e) => Thrown(e)
    case Ok(row) => Ok(row["created_time" := TimeCell(v.createdTime)])
  }

  /** The rows of the kept blocks, in order; the first failing row fails all. */
  function RowsOf(kept: seq<BlockValue>, schema: Schema, raw: bool, marker: string, js: Runtime,
                  fetchUsers: Cell -> Option<seq<UserRecord>>): Outcome<seq<Row>>
    requires forall i :: 0 <= i < |kept| ==> kept[i].properties.Some?
    decreases |kept|
  {
    if kept == [] then Ok([])
    else match RowsOf(kept[..|kept| - 1], schema, raw, marker, js, fetchUsers)
      case Thrown(e) => Thrown(e)
      case Ok(rows) =>
        match RowOf(kept[|kept| - 1], schema, raw, marker, js, fetchUsers)
        case Thrown(e) => Thrown(e)
        case Ok(row) => Ok(rows + [row])
  }

  /** The result of `getTableData`: the rows and the collection's schema. */
  datatype Table = Table(rows: seq<Row>, schema: Schema)

  /** `getTableData` as a value. */
  function TableOf(collection: CollectionValue, collectionViewId: string, raw: bool, marker: string, oracles: Oracles, js: Runtime): Outcome<Table> {
    var table := oracles.fetchTableData(collection.id, collectionViewId);
    match TableBlocks(table.blockIds, table.block)
    case Thrown(e) => Thrown(e)
    case Ok(blocks) =>
      match RowsOf(RowBlocks(blocks, collection.id), collection.schema, raw, marker, js, oracles.fetchUsers)
      case Thrown(e) => Thrown(e)
      case Ok(rows) => Ok(Table(rows, collection.schema))
  }

  /** A column that throws ends the row: a failing prefix fails the row. */
  lemma {:induction false} ColumnsThrown(v: BlockValue, schema: Schema, i: nat, raw: bool, marker: string, js: Runtime,
                                         fetchUsers: Cell -> Option<seq<UserRecord>>)
    requires v.properties.Some? && i <= |schema|
    requires ColumnsOf(v, schema[..i], raw, marker, js, fetchUsers).Thrown?
    ensures RowOf(v, schema, raw, marker, js, fetchUsers) == Thrown(ColumnsOf(v, schema[..i], raw, marker, js, fetchUsers).error)
    decreases |schema| - i
  {
    if i == |schema| {
      assert schema[..i] == schema;
    } else {
      assert schema[..i + 1][..i] == schema[..i];
      ColumnsThrown(v, schema, i + 1, raw, marker, js, fetchUsers);
    }
  }

  /** A row that throws ends the table: a failing prefix fails every row. */
  lemma {:induction false} RowsThrown(kept: seq<BlockValue>, i: nat, schema: Schema, raw: bool, marker: string, js: Runtime,
                                      fetchUsers: Cell -> Option<seq<UserRecord>>)
    requires forall k :: 0 <= k < |kept| ==> kept[k].properties.Some?
    requires i <= |kept| && RowsOf(kept[..i], schema, raw, marker, js, fetchUsers).Thrown?
    ensures RowsOf(kept, schema, raw, marker, js, fetchUsers) == Thrown(RowsOf(kept[..i], schema, raw, marker, js, fetchUsers).error)
    decreases |kept| - i
  {
    if i == |kept| {
      assert kept[..i] == kept;
    } else {
      assert kept[..i + 1][..i] == kept[..i];
      RowsThrown(kept, i + 1, schema, raw, marker, js, fetchUsers);
    }
  }

  /** The inner loop of `getTableData` for one kept block. */
  method BuildRow(v: BlockValue, schema: Schema, raw: bool, marker: string, js: Runtime,
                  fetchUsers: Cell -> Option<seq<UserRecord>>) returns (r: Outcome<Row>)
    requires v.properties.Some?
    ensures r == RowOf(v, schema, raw, marker, js, fetchUsers)
  {
    var row: Row := map["id" := IdCell(v.id)];
    for i := 0 to |schema|
      invariant ColumnsOf(v, schema[..i], raw, marker, js, fetchUsers) == Ok(row)
    {
      assert schema[..i + 1][..i] == schema[..i];
      assert ColumnsOf(v, schema[..i + 1], raw, marker, js, fetchUsers) == WriteColumn(row, v, schema[i], raw, marker, js, fetchUsers);
      var (key, col) := schema[i];
      if key in v.properties.value {
        var val := v.properties.value[key];
        var cell: Cell;
        if raw {
          cell := RawCell(val);
        } else {
          var decoded := DecodeWith(marker, val, col.kind, v.id, js);
          if decoded.Thrown? {
            ColumnsThrown(v, schema, i + 1, raw, marker, js, fetchUsers);
            return Thrown(decoded.error);
          }
          cell := DecodedCell(decoded.value);
        }
        ghost var before := row;
        assert ColumnCell(val, col, v.id, raw, marker, js, fetchUsers) ==
          Ok(if col.kind == "person" then UsersCell(NotionUsers(fetchUsers(cell))) else cell);
        row := row[col.name := cell];
        if col.kind == "person" {
          var users := NotionUsers(fetchUsers(cell));
          row := row[col.name := UsersCell(users)];
        }
        assert row == before[col.name := row[col.name]];
      }
    }
    assert schema[..|schema|] == schema;
    row := row["created_time" := TimeCell(v.createdTime)];
    r := Ok(row);
  }

  /** `getTableData`: the blocks of the result ids, the row filter, and then
      one row per kept block, pushed in order. `marker` is the relation text
      the decoder compares with: `RelationMarkerAsWritten` for the source as
      written, `RelationMarker` for the corrected decoder. */
  method GetTableData(collection: CollectionValue, collectionViewId: string, raw: bool, marker: string, oracles: Oracles, js: Runtime)
    returns (r: Outcome<Table>)
    ensures r == TableOf(collection, collectionViewId, raw, marker, oracles, js)
  {
    var table := oracles.fetchTableData(collection.id, collectionViewId);
    var tableArr := TableBlocks(table.blockIds, table.block);
    if tableArr.Thrown? {
      return Thrown(tableArr.error);
    }
    var tableData := RowBlocks(tableArr.value, collection.id);
    var rows: seq<Row> := [];
    for i := 0 to |tableData|
      invariant RowsOf(tableData[..i], collection.schema, raw, marker, js, oracles.fetchUsers) == Ok(rows)
    {
      assert tableData[..i + 1][..i] == tableData[..i];
      var row := BuildRow(tableData[i], collection.schema, raw, marker, js, oracles.fetchUsers);
      if row.Thrown? {
        RowsThrown(tableData, i + 1, collection.schema, raw, marker, js, oracles.fetchUsers);
        return Thrown(row.error);
      }
      rows := rows + [row.value];
    }
    assert tableData[..|tableData|] == tableData;
    r := Ok(Table(rows, collection.schema));
  }

  /** Every row starts as `{ id }`: the id survives unless a column is named
      "id", and a column is in the row exactly when its property is present
      (names other than "id"). */
  lemma {:induction false} ColumnsContents(v: BlockValue, schema: Schema, raw: bool, marker: string, js: Runtime,
                                           fetchUsers: Cell -> Option<seq<UserRecord>>)
    requires v.properties.Some?
    requires ColumnsOf(v, schema, raw, marker, js, fetchUsers).Ok?
    ensures var row := ColumnsOf(v, schema, raw, marker, js, fetchUsers).value;
      && ((forall j :: 0 <= j < |schema| ==> schema[j].1.name != "id") ==> "id" in row && row["id"] == IdCell(v.id))
      && (forall name :: name in row && name != "id" ==>
            exists j :: 0 <= j < |schema| && schema[j].1.name == name && schema[j].0 in v.properties.value)
    decreases |schema|
  {
    if schema != [] {
      var prefix := schema[..|schema| - 1];
      ColumnsContents(v, prefix, raw, marker, js, fetchUsers);
      var row := ColumnsOf(v, prefix, raw, marker, js, fetchUsers).value;
      var last := schema[|schema| - 1];
      var row' := ColumnsOf(v, schema, raw, marker, js, fetchUsers).value;
      forall name | name in row' && name != "id"
        ensures exists j :: 0 <= j < |schema| && schema[j].1.name == name && schema[j].0 in v.properties.value
      {
        if name in row {
          var j :| 0 <= j < |prefix| && prefix[j].1.name == name && prefix[j].0 in v.properties.value;
          assert schema[j] == prefix[j];
        } else {
          assert schema[|schema| - 1].1.name == name;
        }
      }
      if forall j :: 0 <= j < |schema| ==> schema[j].1.name != "id" {
        forall j | 0 <= j < |prefix| ensures prefix[j].1.name != "id" {
          assert prefix[j] == schema[j];
        }
      }
    }
  }

  /** A column whose name no other column shares holds, when its property is
      present, the cell built from that property. */
  lemma {:induction false} ColumnValue(v: BlockValue, schema: Schema, j: nat, raw: bool, marker: string, js: Runtime,
                                       fetchUsers: Cell -> Option<seq<UserRecord>>)
    requires v.properties.Some? && j < |schema|
    requires forall k :: 0 <= k < |schema| && k != j ==> schema[k].1.name != schema[j].1.name
    requires schema[j].0 in v.properties.value
    requires ColumnsOf(v, schema, raw, marker, js, fetchUsers).Ok?
    ensures var cell := ColumnCell(v.properties.value[schema[j].0], schema[j].1, v.id, raw, marker, js, fetchUsers);
      && cell.Ok?
      && schema[j].1.name in ColumnsOf(v, schema, raw, marker, js, fetchUsers).value
      && ColumnsOf(v, schema, raw, marker, js, fetchUsers).value[schema[j].1.name] == cell.value
    decreases |schema|
  {
    var prefix := schema[..|schema| - 1];
    if j < |schema| - 1 {
      forall k | 0 <= k < |prefix| && k != j ensures prefix[k].1.name != prefix[j].1.name {
        assert prefix[k] == schema[k];
      }
      ColumnValue(v, prefix, j, raw, marker, js, fetchUsers);
    }
  }

  /** The rows of a successful table are the rows of the kept blocks, one
      each and in order. */
  lemma {:induction false} RowsOfEach(kept: seq<BlockValue>, schema: Schema, raw: bool, marker: string, js: Runtime,
                                      fetchUsers: Cell -> Option<seq<UserRecord>>)
    requires forall i :: 0 <= i < |kept| ==> kept[i].properties.Some?
    requires RowsOf(kept, schema, raw, marker, js, fetchUsers).Ok?
    ensures var rows := RowsOf(kept, schema, raw, marker, js, fetchUsers).value;
      |rows| == |kept| && forall i :: 0 <= i < |kept| ==> RowOf(kept[i], schema, raw, marker, js, fetchUsers) == Ok(rows[i])
    decreases |kept|
  {
    if kept != [] {
      var prefix := kept[..|kept| - 1];
      RowsOfEach(prefix, schema, raw, marker, js, fetchUsers);
      forall i | 0 <= i < |prefix| ensures prefix[i] == kept[i] { }
    }
  }

  /** With `raw` set nothing is decoded, so no row can throw. */
  lemma {:induction false} RawRowsSucceed(kept: seq<BlockValue>, schema: Schema, marker: string, js: Runtime,
                                          fetchUsers: Cell -> Option<seq<UserRecord>>)
    requires forall i :: 0 <= i < |kept| ==> kept[i].properties.Some?
    ensures RowsOf(kept, schema, true, marker, js, fetchUsers).Ok?
    decreases |kept|
  {
    if kept != [] {
      RawRowsSucceed(kept[..|kept| - 1], schema, marker, js, fetchUsers);
      RawColumnsSucceed(kept[|kept| - 1], schema, marker, js, fetchUsers);
    }
  }

  lemma {:induction false} RawColumnsSucceed(v: BlockValue, schema: Schema, marker: string, js: Runtime,
                                             fetchUsers: Cell -> Option<seq<UserRecord>>)
    requires v.properties.Some?
    ensures ColumnsOf(v, schema, true, marker, js, fetchUsers).Ok?
    decreases |schema|
  {
    if schema != [] {
      RawColumnsSucceed(v, schema[..|schema| - 1], marker, js, fetchUsers);
    }
  }

  /** The table of the source as written decodes a page mention in a
      relation column to no ids; with the glyph Notion uses, the id is kept. */
  lemma RelationCellAsWritten(pageId: string, col: Column, rowId: string, js: Runtime,
                              fetchUsers: Cell -> Option<seq<UserRecord>>)
    requires col.kind == "relation"
    ensures var mention := [Run(RelationMarker, Some([Mark("p", Text(pageId))]))];
      && ColumnCell(mention, col, rowId, false, RelationMarkerAsWritten, js, fetchUsers) == Ok(DecodedCell(Payloads([])))
      && ColumnCell(mention, col, rowId, false, RelationMarker, js, fetchUsers) == Ok(DecodedCell(Payloads([Text(pageId)])))
  {
    RelationAsWrittenDropsMentions(pageId, rowId, js);
  }

  /** What `getTableData` promises: it throws a `TypeError` exactly when a
      result id has no block (in raw mode; decoding can throw otherwise),
      and a table has one row per kept block, in result order, each carrying
      the block's creation time, its id (unless a column is named "id", or
      "created_time") and its schema. */
  lemma TableShape(collection: CollectionValue, collectionViewId: string, raw: bool, marker: string, oracles: Oracles, js: Runtime)
    ensures var response := oracles.fetchTableData(collection.id, collectionViewId);
      var t := TableOf(collection, collectionViewId, raw, marker, oracles, js);
      && ((exists i :: 0 <= i < |response.blockIds| && response.blockIds[i] !in response.block) ==> t == Thrown(TypeError))
      && (raw && (forall i :: 0 <= i < |response.blockIds| ==> response.blockIds[i] in response.block) ==> t.Ok?)
      && (t.Ok? ==>
            var kept := RowBlocks(TableBlocks(response.blockIds, response.block).value, collection.id);
            && t.value.schema == collection.schema
            && |t.value.rows| == |kept|
            && forall i :: 0 <= i < |kept| ==>
                 && "created_time" in t.value.rows[i]
                 && t.value.rows[i]["created_time"] == TimeCell(kept[i].createdTime)
                 && ((forall j :: 0 <= j < |collection.schema| ==> collection.schema[j].1.name != "id")
                       ==> "id" in t.value.rows[i] && t.value.rows[i]["id"] == IdCell(kept[i].id)))
  {
    var response := oracles.fetchTableData(collection.id, collectionViewId);
    var blocks := TableBlocks(response.blockIds, response.block);
    if blocks.Ok? {
      var kept := RowBlocks(blocks.value, collection.id);
      if raw {
        RawRowsSucceed(kept, collection.schema, marker, js, oracles.fetchUsers);
      }
      var rows := RowsOf(kept, collection.schema, raw, marker, js, oracles.fetchUsers);
      if rows.Ok? {
        RowsOfEach(kept, collection.schema, raw, marker, js, oracles.fetchUsers);
        forall i | 0 <= i < |kept|
          ensures (forall j :: 0 <= j < |collection.schema| ==> collection.schema[j].1.name != "id")
                    ==> "id" in rows.value[i] && rows.value[i]["id"] == IdCell(kept[i].id)
        {
          ColumnsContents(kept[i], collection.schema, raw, marker, js, oracles.fetchUsers);
        }
      }
    }
  }

  // ---------------------------------------------------------------------------
  // fetchPage: the crawl

  /** A block whose children the crawl fetches: it has a value with content,
      and it is not a page other than the requested one. */
  predicate Expands(b: Block, key: string, pageId: Option<string>) {
    && b.value.Some?
    && b.value.value.content.Some?
    && (b.value.value.kind != "page" || pageId == Some(key))
  }

  /** The ids the next round requests: children of expanding blocks that are
      not present yet. */
  function Pending(blocks: map<string, Block>, pageId: Option<string>): (pending: set<string>)
    ensures forall id :: id in pending ==> id !in blocks
  {
    set k, id | k in blocks && Expands(blocks[k], k, pageId) && id in blocks[k].value.value.content.value && id !in blocks :: id
  }

  /** Every child of every expanding block is present. */
  predicate Closed(blocks: map<string, Block>, pageId: Option<string>) {
    forall k, id :: k in blocks && Expands(blocks[k], k, pageId) && id in blocks[k].value.value.content.value ==> id in blocks
  }

  /** The loop stops exactly when the tree is closed. */
  lemma PendingEmptyIffClosed(blocks: map<string, Block>, pageId: Option<string>)
    ensures Pending(blocks, pageId) == {} <==> Closed(blocks, pageId)
  {
    if !Closed(blocks, pageId) {
      var k, id :| k in blocks && Expands(blocks[k], k, pageId) && id in blocks[k].value.value.content.value && id !in blocks;
      assert id in Pending(blocks, pageId);
    }
  }

  /** The children of a page other than the requested one are never
      requested on its account: an id that only such pages (or blocks without
      content) list is not pending. */
  lemma OtherPagesSkipped(blocks: map<string, Block>, pageId: Option<string>, id: string)
    requires forall k :: (k in blocks && blocks[k].value.Some? && blocks[k].value.value.content.Some?
                          && id in blocks[k].value.value.content.value) ==>
                 blocks[k].value.value.kind == "page" && pageId != Some(k)
    ensures id !in Pending(blocks, pageId)
  {
  }

  /** `{ ...allBlocks, ...newBlocks }`: every key of both, a fetched block
      replacing the entry it shares an id with. */
  function Merge(allBlocks: map<string, Block>, newBlocks: map<string, Block>): (r: map<string, Block>)
    ensures r.Keys == allBlocks.Keys + newBlocks.Keys
    ensures forall k :: k in newBlocks ==> r[k] == newBlocks[k]
    ensures forall k :: k in allBlocks && k !in newBlocks ==> r[k] == allBlocks[k]
  {
    allBlocks + newBlocks
  }

  /** The crawl loop with at most `fuel` fetch rounds: the final blocks, and
      whether the loop reached its `break` (false when the rounds ran out). */
  function CrawlFrom(pageId: Option<string>, blocks: map<string, Block>, fetch: set<string> -> map<string, Block>, fuel: nat)
    : (map<string, Block>, bool)
    decreases fuel
  {
    var pending := Pending(blocks, pageId);
    if pending == {} then (blocks, true)
    else if fuel == 0 then (blocks, false)
    else CrawlFrom(pageId, Merge(blocks, fetch(pending)), fetch, fuel - 1)
  }

  /** The `while (true)` loop of `fetchPage`; `fuel` bounds its rounds. */
  method Crawl(pageId: Option<string>, blocks: map<string, Block>, fetch: set<string> -> map<string, Block>, fuel: nat)
    returns (all: map<string, Block>, done: bool)
    ensures (all, done) == CrawlFrom(pageId, blocks, fetch, fuel)
  {
    all := blocks;
    var rounds := fuel;
    while true
      invariant CrawlFrom(pageId, all, fetch, rounds) == CrawlFrom(pageId, blocks, fetch, fuel)
      decreases rounds
    {
      var pendingBlocks := Pending(all, pageId);
      if pendingBlocks == {} {
        return all, true;
      }
      if rounds == 0 {
        return all, false;
      }
      var newBlocks := fetch(pendingBlocks);
      all := Merge(all, newBlocks);
      rounds := rounds - 1;
    }
  }

  /** The crawl never drops a block. */
  lemma {:induction false} CrawlKeepsKeys(pageId: Option<string>, blocks: map<string, Block>,
                                          fetch: set<string> -> map<string, Block>, fuel: nat)
    ensures blocks.Keys <= CrawlFrom(pageId, blocks, fetch, fuel).0.Keys
    decreases fuel
  {
    var pending := Pending(blocks, pageId);
    if pending != {} && fuel > 0 {
      CrawlKeepsKeys(pageId, Merge(blocks, fetch(pending)), fetch, fuel - 1);
    }
  }

  /** A finished crawl is closed: every child of every expanding block is in
      the result. */
  lemma {:induction false} CrawlClosed(pageId: Option<string>, blocks: map<string, Block>,
                                       fetch: set<string> -> map<string, Block>, fuel: nat)
    ensures var (all, done) := CrawlFrom(pageId, blocks, fetch, fuel);
      done ==> Closed(all, pageId)
    decreases fuel
  {
    var pending := Pending(blocks, pageId);
    if pending == {} {
      PendingEmptyIffClosed(blocks, pageId);
    } else if fuel > 0 {
      CrawlClosed(pageId, Merge(blocks, fetch(pending)), fetch, fuel - 1);
    }
  }

  /** When Notion returns none of the requested blocks, the loop never
      finishes: each round requests the same ids again. */
  lemma {:induction false} CrawlStalls(pageId: Option<string>, blocks: map<string, Block>,
                                       fetch: set<string> -> map<string, Block>, fuel: nat)
    requires forall s :: fetch(s) == map[]
    requires Pending(blocks, pageId) != {}
    ensures CrawlFrom(pageId, blocks, fetch, fuel) == (blocks, false)
    decreases fuel
  {
    if fuel > 0 {
      var pending := Pending(blocks, pageId);
      assert Merge(blocks, fetch(pending)) == blocks;
      CrawlStalls(pageId, blocks, fetch, fuel - 1);
    }
  }

  /** One missing child is enough: when Notion never returns a pending child
      (nor a new version of the block that lists it), the loop never
      finishes, whatever else it returns. */
  lemma {:induction false} CrawlStallsOnMissing(pageId: Option<string>, blocks: map<string, Block>,
                                                fetch: set<string> -> map<string, Block>, fuel: nat,
                                                parent: string, id: string)
    requires parent in blocks && Expands(blocks[parent], parent, pageId)
    requires id in blocks[parent].value.value.content.value && id !in blocks
    requires forall s :: id !in fetch(s) && parent !in fetch(s)
    ensures !CrawlFrom(pageId, blocks, fetch, fuel).1
    decreases fuel
  {
    assert id in Pending(blocks, pageId);
    if fuel > 0 {
      var next := Merge(blocks, fetch(Pending(blocks, pageId)));
      assert next[parent] == blocks[parent];
      CrawlStallsOnMissing(pageId, next, fetch, fuel - 1, parent, id);
    }
  }

  /** The blocks of `store` that `ids` names: what a faithful `fetchBlocks`
      returns. */
  function Restrict(store: map<string, Block>, ids: set<string>): (r: map<string, Block>)
    ensures r.Keys == ids * store.Keys
    ensures forall k :: k in r ==> r[k] == store[k]
  {
    map k | k in ids && k in store :: store[k]
  }

  /** A store of blocks that holds every child of its own expanding blocks. */
  predicate StoreClosed(store: map<string, Block>, pageId: Option<string>) {
    Closed(store, pageId)
  }

  /** The crawl finishes when Notion answers from a finite store that holds
      every child: each round adds at least one block of the store, so the
      number of missing store blocks bounds the rounds. */
  /** `fetch` answers every request from `store`. */
  ghost predicate AnswersFrom(fetch: set<string> -> map<string, Block>, store: map<string, Block>) {
    forall s :: fetch(s) == Restrict(store, s)
  }

  /** Every block present is the store's block. */
  predicate Agrees(blocks: map<string, Block>, store: map<string, Block>) {
    forall k :: k in blocks ==> k in store && blocks[k] == store[k]
  }

  lemma {:induction false} CrawlFinishes(pageId: Option<string>, blocks: map<string, Block>, store: map<string, Block>,
                                         fetch: set<string> -> map<string, Block>, fuel: nat)
    requires AnswersFrom(fetch, store) && Agrees(blocks, store) && StoreClosed(store, pageId)
    requires fuel >= |store.Keys - blocks.Keys|
    ensures CrawlFrom(pageId, blocks, fetch, fuel).1
    decreases fuel
  {
    var pending := Pending(blocks, pageId);
    CrawlStep(pageId, blocks, fetch, fuel);
    if pending != {} {
      PendingInStore(pageId, blocks, store);
      var fetched := fetch(pending);
      assert fetched == Restrict(store, pending);
      NextInStore(blocks, store, pending, fetched);
      var next := Merge(blocks, fetched);
      var rounds: nat := fuel - 1;
      CrawlFinishes(pageId, next, store, fetch, rounds);
      CrawlStepTo(pageId, blocks, fetch, fuel, next, rounds);
    }
  }

  /** One round, with the next state named. */
  lemma CrawlStepTo(pageId: Option<string>, blocks: map<string, Block>, fetch: set<string> -> map<string, Block>,
                    fuel: nat, next: map<string, Block>, rounds: nat)
    requires Pending(blocks, pageId) != {} && fuel == rounds + 1
    requires next == Merge(blocks, fetch(Pending(blocks, pageId)))
    ensures CrawlFrom(pageId, blocks, fetch, fuel) == CrawlFrom(pageId, next, fetch, rounds)
  {
  }

  /** The ids a round requests are store blocks not yet present. */
  lemma PendingInStore(pageId: Option<string>, blocks: map<string, Block>, store: map<string, Block>)
    requires Agrees(blocks, store) && StoreClosed(store, pageId)
    ensures Pending(blocks, pageId) <= store.Keys - blocks.Keys
  {
    forall id | id in Pending(blocks, pageId) ensures id in store && id !in blocks {
      var k :| k in blocks && Expands(blocks[k], k, pageId) && id in blocks[k].value.value.content.value && id !in blocks;
      assert Expands(store[k], k, pageId);
    }
  }

  /** A round that requests some missing store blocks gets all of them, so
      fewer store blocks are missing afterwards. */
  lemma NextInStore(blocks: map<string, Block>, store: map<string, Block>, pending: set<string>, fetched: map<string, Block>)
    requires Agrees(blocks, store)
    requires pending != {} && pending <= store.Keys - blocks.Keys
    requires fetched == Restrict(store, pending)
    ensures Agrees(Merge(blocks, fetched), store)
    ensures |store.Keys - Merge(blocks, fetched).Keys| < |store.Keys - blocks.Keys|
  {
    NextAgrees(blocks, store, pending, fetched);
    NextSmaller(blocks, store, pending, fetched);
  }

  lemma NextAgrees(blocks: map<string, Block>, store: map<string, Block>, pending: set<string>, fetched: map<string, Block>)
    requires Agrees(blocks, store)
    requires fetched == Restrict(store, pending)
    ensures Agrees(Merge(blocks, fetched), store)
  {
  }

  lemma NextSmaller(blocks: map<string, Block>, store: map<string, Block>, pending: set<string>, fetched: map<string, Block>)
    requires pending != {} && pending <= store.Keys - blocks.Keys
    requires fetched.Keys == pending
    ensures |store.Keys - Merge(blocks, fetched).Keys| < |store.Keys - blocks.Keys|
  {
    var next := Merge(blocks, fetched);
    assert next.Keys == blocks.Keys + pending;
    var id :| id in pending;
    var before := store.Keys - blocks.Keys;
    var after := store.Keys - next.Keys;
    assert after <= before;
    assert id in before && id !in after;
    ProperSubsetSmaller(after, before);
  }

  lemma ProperSubsetSmaller(a: set<string>, b: set<string>)
    requires a <= b && exists x :: x in b && x !in a
    ensures |a| < |b|
  {
    var x :| x in b && x !in a;
    assert b == a + (b - a);
    assert x in b - a;
  }

  /** The crawl stops at once on a closed tree. */
  lemma CrawlStep(pageId: Option<string>, blocks: map<string, Block>, fetch: set<string> -> map<string, Block>, fuel: nat)
    ensures Pending(blocks, pageId) == {} ==> CrawlFrom(pageId, blocks, fetch, fuel) == (blocks, true)
  {
  }

  // ---------------------------------------------------------------------------
  // fetchPage: the collection views

  /** The first value of an object given as its entries, for
      `o[Object.keys(o)[0]]`: none when the object is missing or empty. */
  function FirstValue<T>(entries: Option<seq<(string, T)>>): (r: Option<T>)
    ensures r.Some? <==> entries.Some? && |entries.value| > 0
    ensures r.Some? ==> r.value == entries.value[0].1
  {
    if entries.Some? && |entries.value| > 0 then Some(entries.value[0].1) else None
  }

  /** `o[key]` on an object given as its entries. */
  function Lookup<T>(entries: seq<(string, T)>, key: string): (r: Option<T>)
    ensures r.None? <==> forall i :: 0 <= i < |entries| ==> entries[i].0 != key
    ensures r.Some? ==> exists i :: 0 <= i < |entries| && entries[i] == (key, r.value)
  {
    if entries == [] then None
    else if entries[0].0 == key then Some(entries[0].1)
    else Lookup(entries[1..], key)
  }

  /** The `types` of an enriched block: one entry per view id, the view when
      the page has it. */
  function ViewTypes(viewIds: seq<string>, views: seq<(string, ViewValue)>): (types: seq<Option<ViewValue>>)
    ensures |types| == |viewIds|
    ensures forall i :: 0 <= i < |viewIds| ==> types[i] == Lookup(views, viewIds[i])
  {
    seq(|viewIds|, i requires 0 <= i < |viewIds| => Lookup(views, viewIds[i]))
  }

  /** The blocks of the first round: the page's `recordMap.block`, or none. */
  function BaseBlocks(page: PageChunk): map<string, Block> {
    if page.recordMap.Some? && page.recordMap.value.block.Some? then page.recordMap.value.block.value else map[]
  }

  /** The page has a first collection and a first collection view. */
  predicate HasCollection(page: PageChunk) {
    && page.recordMap.Some?
    && FirstValue(page.recordMap.value.collection).Some?
    && FirstValue(page.recordMap.value.collectionView).Some?
  }

  /** `pendingCollections`: the value ids of the collection-view blocks. */
  function CollectionViewIds(blocks: map<string, Block>): set<string> {
    set k | k in blocks && blocks[k].value.Some? && blocks[k].value.value.kind == "collection_view" :: blocks[k].value.value.id
  }

  /** One round of the `for` loop for collection view `b`, whose current
      entry in the block map is `current`: its collection page, the raw rows
      of its first collection through its first view, and the block with its
      `collection` set. Every missing piece is a `TypeError`. The table is
      read raw, so the decoder (here the one as written) is never consulted. */
  function EnrichedBlock(current: Option<Block>, b: string, oracles: Oracles, js: Runtime): Outcome<Block> {
    var collPage := oracles.fetchPageById(Some(b));
    if collPage.recordMap.None? || collPage.recordMap.value.collection.None?
       || collPage.recordMap.value.collectionView.None? then Thrown(TypeError)
    else
      var coll := FirstValue(collPage.recordMap.value.collection);
      var collView := FirstValue(collPage.recordMap.value.collectionView);
      if coll.None? || collView.None? then Thrown(TypeError)
      else match TableOf(coll.value, collView.value.id, true, RelationMarkerAsWritten, oracles, js)
        case Thrown(e) => Thrown(e)
        case Ok(t) =>
          if current.None? || current.value.value.None? || current.value.value.value.viewIds.None? then Thrown(TypeError)
          else
            var views := collPage.recordMap.value.collectionView.value;
            Ok(Block(current.value.value, Some(CollectionInfo(coll.value.name, t.schema,
                                                              ViewTypes(current.value.value.value.viewIds.value, views), t.rows))))
  }

  /** Enrichment only ever throws `TypeError`s: the table is read raw, so
      only a missing block can fail it. */
  lemma EnrichedBlockErrors(current: Option<Block>, b: string, oracles: Oracles, js: Runtime)
    ensures var r := EnrichedBlock(current, b, oracles, js);
      r.Thrown? ==> r.error == TypeError
    ensures var r := EnrichedBlock(current, b, oracles, js);
      r.Ok? ==> current.Some? && r.value.value == current.value.value && r.value.collection.Some?
  {
    var collPage := oracles.fetchPageById(Some(b));
    if collPage.recordMap.Some? && collPage.recordMap.value.collection.Some? && collPage.recordMap.value.collectionView.Some? {
      var coll := FirstValue(collPage.recordMap.value.collection);
      var collView := FirstValue(collPage.recordMap.value.collectionView);
      if coll.Some? && collView.Some? {
        TableShape(coll.value, collView.value.id, true, RelationMarkerAsWritten, oracles, js);
      }
    }
  }

  /** The block map at `b`, as the loop reads it. */
  function At(blocks: map<string, Block>, b: string): Option<Block> {
    if b in blocks then Some(blocks[b]) else None
  }

  /** The loop over `pendingCollections` as a value: a `TypeError` when any
      collection view fails, else every view enriched and every other block
      as it was. */
  function EnrichAll(blocks: map<string, Block>, ids: set<string>, oracles: Oracles, js: Runtime): Outcome<map<string, Block>> {
    if exists b :: b in ids && EnrichedBlock(At(blocks, b), b, oracles, js).Thrown? then Thrown(TypeError)
    else Ok(map k | k in blocks :: if k in ids then EnrichedBlock(At(blocks, k), k, oracles, js).value else blocks[k])
  }

  /** The body of the `for` loop of `fetchPage`. */
  method EnrichBlock(current: Option<Block>, b: string, oracles: Oracles, js: Runtime) returns (r: Outcome<Block>)
    ensures r == EnrichedBlock(current, b, oracles, js)
  {
    var collPage := oracles.fetchPageById(Some(b));
    if collPage.recordMap.None? || collPage.recordMap.value.collection.None?
       || collPage.recordMap.value.collectionView.None? {
      return Thrown(TypeError);
    }
    var coll := FirstValue(collPage.recordMap.value.collection);
    var collView := FirstValue(collPage.recordMap.value.collectionView);
    if coll.None? || collView.None? {
      return Thrown(TypeError);
    }
    var table := GetTableData(coll.value, collView.value.id, true, RelationMarkerAsWritten, oracles, js);
    if table.Thrown? {
      return Thrown(table.error);
    }
    if current.None? || current.value.value.None? || current.value.value.value.viewIds.None? {
      return Thrown(TypeError);
    }
    var views := collPage.recordMap.value.collectionView.value;
    var types := ViewTypes(current.value.value.value.viewIds.value, views);
    r := Ok(current.value.(collection := Some(CollectionInfo(coll.value.name, table.value.schema, types, table.value.rows))));
  }

  /** The `for` loop of `fetchPage` over the collection views; each view is
      read and written once, so the order of the loop does not matter. */
  method Enrich(blocks: map<string, Block>, ids: set<string>, oracles: Oracles, js: Runtime)
    returns (r: Outcome<map<string, Block>>)
    ensures r == EnrichAll(blocks, ids, oracles, js)
  {
    var allBlocks := blocks;
    var remaining := ids;
    while remaining != {}
      invariant remaining <= ids
      invariant allBlocks.Keys == blocks.Keys
      invariant forall k :: k in ids - remaining ==> EnrichedBlock(At(blocks, k), k, oracles, js).Ok?
      invariant forall k :: k in blocks ==>
        allBlocks[k] == if k in ids - remaining then EnrichedBlock(At(blocks, k), k, oracles, js).value else blocks[k]
      decreases remaining
    {
      var b :| b in remaining;
      assert At(allBlocks, b) == At(blocks, b);
      var enriched := EnrichBlock(At(allBlocks, b), b, oracles, js);
      if enriched.Thrown? {
        EnrichedBlockErrors(At(blocks, b), b, oracles, js);
        assert b in ids && EnrichedBlock(At(blocks, b), b, oracles, js).Thrown?;
        return Thrown(enriched.error);
      }
      EnrichedBlockErrors(At(blocks, b), b, oracles, js);
      allBlocks := allBlocks[b := enriched.value];
      remaining := remaining - {b};
    }
    assert ids - remaining == ids;
    assert allBlocks == map k | k in blocks :: if k in ids then EnrichedBlock(At(blocks, k), k, oracles, js).value else blocks[k];
    r := Ok(allBlocks);
  }

  /** `fetchPage` as a value: `None` when the crawl did not finish within
      `fuel` rounds. */
  function FetchPageOf(pageIdText: string, oracles: Oracles, js: Runtime, fuel: nat): Option<Outcome<map<string, Block>>> {
    var pageId := ParsePageId(pageIdText);
    var page := oracles.fetchPageById(pageId);
    var (allBlocks, done) := CrawlFrom(pageId, BaseBlocks(page), oracles.fetchBlocks, fuel);
    if !done then None
    else if HasCollection(page) then Some(EnrichAll(allBlocks, CollectionViewIds(allBlocks), oracles, js))
    else Some(Ok(allBlocks))
  }

  /** `fetchPage`: the page, the crawl, and the enrichment of every
      collection view when the page itself has a collection and a view. */
  method FetchPage(pageIdText: string, oracles: Oracles, js: Runtime, fuel: nat)
    returns (r: Option<Outcome<map<string, Block>>>)
    ensures r == FetchPageOf(pageIdText, oracles, js, fuel)
  {
    var pageId := ParsePageId(pageIdText);
    var page := oracles.fetchPageById(pageId);
    var baseBlocks := BaseBlocks(page);
    var allBlocks, done := Crawl(pageId, baseBlocks, oracles.fetchBlocks, fuel);
    if !done {
      return None;
    }
    if HasCollection(page) {
      var pendingCollections := CollectionViewIds(allBlocks);
      var enriched := Enrich(allBlocks, pendingCollections, oracles, js);
      return Some(enriched);
    }
    r := Some(Ok(allBlocks));
  }

  /** Each block keyed by its own value id, as Notion's record maps are. */
  predicate KeyedById(blocks: map<string, Block>) {
    forall k :: k in blocks && blocks[k].value.Some? ==> blocks[k].value.value.id == k
  }

  /** What the enrichment promises: it fails (with a `TypeError`) exactly
      when some collection view fails, and a view whose id is not a key of
      the map always fails; otherwise it keeps every key and every block's
      value, gives every view its collection, and changes nothing else. In a
      map keyed by id, the views are exactly the collection-view blocks. */
  lemma EnrichAllShape(blocks: map<string, Block>, ids: set<string>, oracles: Oracles, js: Runtime)
    ensures var r := EnrichAll(blocks, ids, oracles, js);
      && (r.Thrown? <==> exists b :: b in ids && EnrichedBlock(At(blocks, b), b, oracles, js).Thrown?)
      && (r.Thrown? ==> r.error == TypeError)
      && (!(ids <= blocks.Keys) ==> r.Thrown?)
      && (r.Ok? ==>
            && r.value.Keys == blocks.Keys
            && forall k :: k in blocks ==>
                 && r.value[k].value == blocks[k].value
                 && (k in ids ==> r.value[k].collection.Some?)
                 && (k !in ids ==> r.value[k] == blocks[k]))
  {
    var r := EnrichAll(blocks, ids, oracles, js);
    if !(ids <= blocks.Keys) {
      var b :| b in ids && b !in blocks;
      EnrichedBlockErrors(None, b, oracles, js);
      assert EnrichedBlock(At(blocks, b), b, oracles, js).Thrown?;
    }
    if r.Ok? {
      forall k | k in blocks && k in ids
        ensures r.value[k].value == blocks[k].value && r.value[k].collection.Some?
      {
        EnrichedBlockErrors(At(blocks, k), k, oracles, js);
      }
    }
  }

  /** In a map keyed by id, the views the loop visits are the keys of the
      collection-view blocks. */
  lemma ViewsAreKeys(blocks: map<string, Block>)
    requires KeyedById(blocks)
    ensures CollectionViewIds(blocks) ==
      set k | k in blocks && blocks[k].value.Some? && blocks[k].value.value.kind == "collection_view"
  {
  }

  /** What `fetchPage` promises, given enough rounds to finish: the result
      holds every block of the page's first chunk and is closed; without a
      collection it is the crawl's map; with one it is the crawl's map with
      only its collection views enriched, or a `TypeError`. */
  lemma FetchPageShape(pageIdText: string, oracles: Oracles, js: Runtime, fuel: nat)
    ensures var pageId := ParsePageId(pageIdText);
      var page := oracles.fetchPageById(pageId);
      var (all, done) := CrawlFrom(pageId, BaseBlocks(page), oracles.fetchBlocks, fuel);
      var r := FetchPageOf(pageIdText, oracles, js, fuel);
      && (r.Some? <==> done)
      && (done ==> BaseBlocks(page).Keys <= all.Keys && Closed(all, pageId))
      && (done && !HasCollection(page) ==> r == Some(Ok(all)))
      && (r.Some? && r.value.Thrown? ==> r.value.error == TypeError)
      && (r.Some? && r.value.Ok? ==>
            && r.value.value.Keys == all.Keys
            && forall k :: k in all ==>
                 && r.value.value[k].value == all[k].value
                 && (r.value.value[k] != all[k] ==> k in CollectionViewIds(all)))
  {
    var pageId := ParsePageId(pageIdText);
    var page := oracles.fetchPageById(pageId);
    var (all, done) := CrawlFrom(pageId, BaseBlocks(page), oracles.fetchBlocks, fuel);
    CrawlKeepsKeys(pageId, BaseBlocks(page), oracles.fetchBlocks, fuel);
    CrawlClosed(pageId, BaseBlocks(page), oracles.fetchBlocks, fuel);
    EnrichAllShape(all, CollectionViewIds(all), oracles, js);
  }
}
