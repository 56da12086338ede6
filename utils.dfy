/** The Notion property decoder and page-id helpers of src/utils/utils.ts.

    Notion stores a property value as a list of "decorated" runs: tuples
    `[text]` or `[text, marks]`, where each mark is `[tag]` or `[tag, payload]`.
    `GetNotionValue` turns such a list into a typed value, one rule per column
    type. Every `!` in the source is an unchecked dereference: where it meets
    `undefined` the JavaScript throws a TypeError, and so does the model. */
module NotionUtils {
  import opened Js
  import opened Url

  /** The second element of a mark tuple: absent, a string (a link, a user or
      page id, a file path) or a date object. */
  datatype Payload = NoPayload | Text(s: string) | DateObject(startDate: string)

  datatype Mark = Mark(tag: string, payload: Payload)

  /** One decorated run; `marks == None` is the one-element tuple `[text]`. */
  datatype Run = Run(text: string, marks: Option<seq<Mark>>)

  /** A file attachment as the `file` column yields it. */
  datatype FileRef = FileRef(name: string, url: Url, rawUrl: string)

  /** The values `getNotionValue` can return. `Num(None)` is NaN. */
  datatype Decoded =
    | Str(s: string)
    | Bool(b: bool)
    | Num(n: Option<real>)
    | Strings(pieces: seq<string>)
    | Payloads(ids: seq<Payload>)
    | Files(files: seq<FileRef>)

  /** The JavaScript built-ins the decoder calls but that are not modelled:
      `encodeURIComponent` (ECMA-262 6th edition, section 18.2.6.5) and
      `Number(text)` (None for NaN). */
  datatype Runtime = Runtime(encodeURIComponent: string -> string, toNumber: string -> Option<real>)

  // ---------------------------------------------------------------------------
  // Page ids

  /** `idToUuid`: cuts a raw id into the 8-4-4-4-rest groups of a UUID. */
  function IdToUuid(path: string): string {
    Substr(path, 0, 8) + "-" + Substr(path, 8, 4) + "-" + Substr(path, 12, 4) + "-" +
    Substr(path, 16, 4) + "-" + SubstrFrom(path, 20)
  }

  /** The five groups of `IdToUuid` are the raw id cut into consecutive pieces,
      so removing the dashes gives a dash-free id back. */
  lemma IdToUuidStripsBack(r: string)
    requires '-' !in r
    ensures RemoveAll(IdToUuid(r), '-') == r
  {
    var g1, g2, g3, g4, g5 := Substr(r, 0, 8), Substr(r, 8, 4), Substr(r, 12, 4), Substr(r, 16, 4), SubstrFrom(r, 20);
    assert g1 + g2 + g3 + g4 + g5 == r by {
      if |r| <= 8 {
        assert g1 == r;
      } else if |r| <= 12 {
        assert g1 + g2 == r[..8] + r[8..];
      } else if |r| <= 16 {
        assert g1 + g2 + g3 == r[..8] + r[8..12] + r[12..];
      } else if |r| <= 20 {
        assert g1 + g2 + g3 + g4 == r[..8] + r[8..12] + r[12..16] + r[16..];
      } else {
        assert g1 + g2 + g3 + g4 + g5 == r[..8] + r[8..12] + r[12..16] + r[16..20] + r[20..];
      }
    }
    forall x | x in [g1, g2, g3, g4, g5] ensures '-' !in x {
      assert forall c :: c in x ==> c in r;
    }
    RemoveAllFive(g1, g2, g3, g4, g5);
  }

  lemma RemoveAllFive(g1: string, g2: string, g3: string, g4: string, g5: string)
    requires '-' !in g1 && '-' !in g2 && '-' !in g3 && '-' !in g4 && '-' !in g5
    ensures RemoveAll(g1 + "-" + g2 + "-" + g3 + "-" + g4 + "-" + g5, '-') == g1 + g2 + g3 + g4 + g5
  {
    var d := "-";
    assert RemoveAll(d, '-') == [];
    RemoveAllAbsent(g1, '-');
    RemoveAllAbsent(g2, '-');
    RemoveAllAbsent(g3, '-');
    RemoveAllAbsent(g4, '-');
    RemoveAllAbsent(g5, '-');
    var a := g1 + d;
    RemoveAllAppend(g1, d, '-');
    assert RemoveAll(a, '-') == g1;
    var b := a + g2 + d;
    RemoveAllAppend(a, g2, '-');
    RemoveAllAppend(a + g2, d, '-');
    assert RemoveAll(b, '-') == g1 + g2;
    var c := b + g3 + d;
    RemoveAllAppend(b, g3, '-');
    RemoveAllAppend(b + g3, d, '-');
    assert RemoveAll(c, '-') == g1 + g2 + g3;
    var e := c + g4 + d;
    RemoveAllAppend(c, g4, '-');
    RemoveAllAppend(c + g4, d, '-');
    assert RemoveAll(e, '-') == g1 + g2 + g3 + g4;
    RemoveAllAppend(e, g5, '-');
    assert e + g5 == g1 + "-" + g2 + "-" + g3 + "-" + g4 + "-" + g5;
  }

  /** `parsePageId`: `undefined` for the empty id; otherwise the last 32
      characters of the id without its dashes, regrouped as a UUID. */
  function ParsePageId(id: string): (r: Option<string>)
    ensures r.None? <==> id == ""
  {
    if id == "" then None
    else Some(IdToUuid(SliceLast(RemoveAll(id, '-'), 32)))
  }

  /** Parsing a parsed id changes nothing. */
  lemma ParsePageIdIdempotent(x: string)
    requires x != ""
    ensures ParsePageId(x).Some?
    ensures ParsePageId(ParsePageId(x).value) == ParsePageId(x)
  {
    var raw := SliceLast(RemoveAll(x, '-'), 32);
    var u := IdToUuid(raw);
    assert '-' !in raw by {
      var k :| 0 <= k <= |RemoveAll(x, '-')| && RemoveAll(x, '-')[k..] == raw;
    }
    IdToUuidStripsBack(raw);
    assert u != "" by {
      assert u[|Substr(raw, 0, 8)|] == '-';
    }
    assert SliceLast(raw, 32) == raw;
  }

  /** An id with at least 32 non-dash characters becomes a 36-character UUID
      with dashes exactly at 8, 13, 18 and 23, made of its last 32 non-dash
      characters in order. */
  lemma ParsePageIdShape(x: string)
    requires |RemoveAll(x, '-')| >= 32
    ensures ParsePageId(x).Some?
    ensures var u := ParsePageId(x).value;
      var stripped := RemoveAll(x, '-');
      && |u| == 36
      && (forall i :: 0 <= i < 36 ==> (u[i] == '-' <==> i in {8, 13, 18, 23}))
      && RemoveAll(u, '-') == stripped[|stripped| - 32..]
  {
    var stripped := RemoveAll(x, '-');
    assert |stripped| <= |x|;
    var raw := SliceLast(stripped, 32);
    assert raw == stripped[|stripped| - 32..];
    assert '-' !in raw by {
      assert forall c :: c in raw ==> c in stripped;
    }
    UuidLayout(raw);
    IdToUuidStripsBack(raw);
  }

  /** Where the dashes of a full-length UUID fall. */
  lemma UuidLayout(raw: string)
    requires |raw| == 32 && '-' !in raw
    ensures |IdToUuid(raw)| == 36
    ensures forall i :: 0 <= i < 36 ==> (IdToUuid(raw)[i] == '-' <==> i in {8, 13, 18, 23})
  {
    var u := IdToUuid(raw);
    var g1, g2, g3, g4, g5 := raw[..8], raw[8..12], raw[12..16], raw[16..20], raw[20..];
    assert u == g1 + "-" + g2 + "-" + g3 + "-" + g4 + "-" + g5;
    forall i | 0 <= i < 36 ensures u[i] == '-' <==> i in {8, 13, 18, 23} {
      if i < 8 { assert u[i] == raw[i]; }
      else if 8 < i < 13 { assert u[i] == raw[i - 1]; }
      else if 13 < i < 18 { assert u[i] == raw[i - 2]; }
      else if 18 < i < 23 { assert u[i] == raw[i - 3]; }
      else if 23 < i { assert u[i] == raw[i - 4]; }
    }
  }

  // ---------------------------------------------------------------------------
  // Text runs

  /** `getTextContent`: `reduce((prev, current) => prev + current[0], "")`. */
  function TextContent(runs: seq<Run>): string {
    FoldText("", runs)
  }

  function FoldText(prev: string, runs: seq<Run>): string
    decreases runs
  {
    if runs == [] then prev else FoldText(prev + runs[0].text, runs[1..])
  }

  /** The texts of the runs, one after the other. */
  function Texts(runs: seq<Run>): string {
    if runs == [] then "" else runs[0].text + Texts(runs[1..])
  }

  lemma {:induction false} FoldTextIsTexts(prev: string, runs: seq<Run>)
    ensures FoldText(prev, runs) == prev + Texts(runs)
    decreases runs
  {
    if runs != [] {
      FoldTextIsTexts(prev + runs[0].text, runs[1..]);
    }
  }

  /** The text content is the in-order concatenation of the runs' texts:
      nothing for no runs, one run's text for one run, and it splits over
      concatenated run lists. */
  lemma TextContentConcatenates(a: seq<Run>, b: seq<Run>)
    ensures TextContent([]) == ""
    ensures forall r :: TextContent([r]) == r.text
    ensures TextContent(a + b) == TextContent(a) + TextContent(b)
  {
    FoldTextIsTexts("", a + b);
    FoldTextIsTexts("", a);
    FoldTextIsTexts("", b);
    TextsAppend(a, b);
    forall r ensures TextContent([r]) == r.text {
      FoldTextIsTexts("", [r]);
    }
  }

  lemma {:induction false} TextsAppend(a: seq<Run>, b: seq<Run>)
    ensures Texts(a + b) == Texts(a) + Texts(b)
  {
    if a == [] {
      assert a + b == b;
    } else {
      assert (a + b)[1..] == a[1..] + b;
      TextsAppend(a[1..], b);
    }
  }

  // ---------------------------------------------------------------------------
  // String.prototype.split(",")

  /** `s.split(",")`: the pieces between commas, in order; `""` gives `[""]`. */
  function SplitCommas(s: string): (pieces: seq<string>)
    ensures |pieces| >= 1
  {
    if s == [] then [""]
    else
      var rest := SplitCommas(s[1..]);
      if s[0] == ',' then [""] + rest else [[s[0]] + rest[0]] + rest[1..]
  }

  /** `pieces.join(",")`. */
  function JoinCommas(pieces: seq<string>): string {
    if pieces == [] then ""
    else if |pieces| == 1 then pieces[0]
    else pieces[0] + "," + JoinCommas(pieces[1..])
  }

  function CountChar(s: string, c: char): nat {
    if s == [] then 0 else (if s[0] == c then 1 else 0) + CountChar(s[1..], c)
  }

  /** Splitting on commas loses nothing: joining the pieces with commas gives
      the text back, no piece holds a comma, and there is one piece more than
      there are commas. */
  lemma SplitCommasInverse(s: string)
    ensures JoinCommas(SplitCommas(s)) == s
    ensures forall p :: p in SplitCommas(s) ==> ',' !in p
    ensures |SplitCommas(s)| == CountChar(s, ',') + 1
  {
    SplitJoin(s);
    SplitNoComma(s);
    SplitCount(s);
  }

  lemma {:induction false} SplitJoin(s: string)
    ensures JoinCommas(SplitCommas(s)) == s
  {
    if s != [] {
      var rest := SplitCommas(s[1..]);
      SplitJoin(s[1..]);
      if s[0] == ',' {
        assert ([""] + rest)[1..] == rest;
      } else {
        var head := [s[0]] + rest[0];
        if |rest| == 1 {
          assert JoinCommas(rest) == rest[0];
        } else {
          assert JoinCommas(rest) == rest[0] + "," + JoinCommas(rest[1..]);
          assert ([head] + rest[1..])[1..] == rest[1..];
        }
      }
    }
  }

  lemma {:induction false} SplitNoComma(s: string)
    ensures forall p :: p in SplitCommas(s) ==> ',' !in p
  {
    if s != [] {
      var rest := SplitCommas(s[1..]);
      SplitNoComma(s[1..]);
      if s[0] != ',' {
        var head := [s[0]] + rest[0];
        assert rest[0] in rest;
        forall p | p in [head] + rest[1..] ensures ',' !in p {
          if p != head { assert p in rest; }
        }
      }
    }
  }

  lemma {:induction false} SplitCount(s: string)
    ensures |SplitCommas(s)| == CountChar(s, ',') + 1
  {
    if s != [] {
      SplitCount(s[1..]);
    }
  }

  // ---------------------------------------------------------------------------
  // getNotionValue

  /** The glyph Notion puts in the text of a page-mention run, "‣" (U+2023). */
  const RelationMarker: string := "\U{2023}"

  /** The literal that src/utils/utils.ts:53 compares with: the three characters
      U+00E2 U+20AC U+00A3, which is "‣" encoded as UTF-8 and read back as
      Windows-1252. */
  const RelationMarkerAsWritten: string := "\U{E2}\U{20AC}\U{A3}"

  /** `v[1]![0]![1]`: the payload of the run's first mark. */
  function FirstPayload(run: Run): (r: Outcome<Payload>)
    ensures r.Ok? <==> run.marks.Some? && run.marks.value != []
    ensures r.Ok? ==> r.value == run.marks.value[0].payload
  {
    match run.marks
    case None => Thrown(TypeError)
    case Some(marks) => if marks == [] then Thrown(TypeError) else Ok(marks[0].payload)
  }

  predicate HasMarks(run: Run) { run.marks.Some? }

  /** The `relation` filter `([symbol]) => symbol === marker`. */
  function TextIs(marker: string): Run -> bool {
    (v: Run) => v.text == marker
  }

  /** The URL a file attachment is served from: the proxied path on notion.so,
      with the query `table=block`, `id=<row id>`, `cache=v2` set in that order. */
  function FileUrl(rawUrl: string, rowId: string, js: Runtime): Url {
    var query := SetParam(SetParam(SetParam([], "table", "block"), "id", rowId), "cache", "v2");
    Url(NotionOrigin + ProxyPath(rawUrl, js.encodeURIComponent), query)
  }

  /** The file record of one attachment run; a payload that is not a string
      has no `startsWith`, so it throws. */
  function FileOf(run: Run, rowId: string, js: Runtime): (r: Outcome<FileRef>)
    ensures r.Ok? <==> FirstPayload(run).Ok? && FirstPayload(run).value.Text?
  {
    match FirstPayload(run)
    case Thrown(e) => Thrown(e)
    case Ok(p) =>
      if p.Text? then Ok(FileRef(run.text, FileUrl(p.s, rowId, js), p.s)) else Thrown(TypeError)
  }

  /** `val[0]![1]![0]!`, the first mark of the first run, for the `date` rule. */
  function DateOf(val: seq<Run>): Outcome<Decoded> {
    if val == [] then Thrown(TypeError)
    else match val[0].marks
      case None => Thrown(TypeError)
      case Some(marks) =>
        if marks == [] then Thrown(TypeError)
        else if marks[0].tag != "d" then Ok(Str(""))
        else match marks[0].payload
          case Text(_) => Ok(Str(""))
          case DateObject(start) => Ok(Str(start))
          case NoPayload => Thrown(TypeError)   // typeof undefined !== "string"; `undefined.start_date` throws
  }

  /** `val[0]![0]`, the text of the first run. */
  function FirstText(val: seq<Run>): (r: Outcome<string>)
    ensures r.Ok? <==> val != []
    ensures val != [] ==> r.value == val[0].text
  {
    if val == [] then Thrown(TypeError) else Ok(val[0].text)
  }

  /** The `file` callback for one row. */
  function FileOfRow(rowId: string, js: Runtime): Run -> Outcome<FileRef> {
    (v: Run) => FileOf(v, rowId, js)
  }

  function Wrap<T>(o: Outcome<T>, f: T -> Decoded): Outcome<Decoded> {
    match o
    case Thrown(e) => Thrown(e)
    case Ok(x) => Ok(f(x))
  }

  /** `getNotionValue(val, type, row)` with the glyph that marks a relation run
      as a parameter; `rowId` is `row.value.id`. */
  function DecodeWith(marker: string, val: seq<Run>, columnType: string, rowId: string, js: Runtime): Outcome<Decoded> {
    if columnType == "text" || columnType == "title" then
      Ok(Str(TextContent(val)))
    else if columnType == "person" then
      Wrap(MapOutcome(Filter(val, HasMarks), FirstPayload), xs => Payloads(xs))
    else if columnType == "checkbox" then
      Wrap(FirstText(val), t => Bool(t == "Yes"))
    else if columnType == "date" then
      DateOf(val)
    else if columnType in {"select", "email", "phone_number", "url"} then
      Wrap(FirstText(val), t => Str(t))
    else if columnType == "multi_select" then
      Wrap(FirstText(val), t => Strings(SplitCommas(t)))
    else if columnType == "number" then
      Wrap(FirstText(val), t => Num(js.toNumber(t)))
    else if columnType == "relation" then
      Wrap(MapOutcome(Filter(val, TextIs(marker)), FirstPayload), xs => Payloads(xs))
    else if columnType == "file" then
      Wrap(MapOutcome(Filter(val, HasMarks), FileOfRow(rowId, js)), fs => Files(fs))
    else
      Ok(Str("Not supported"))
  }

  /** `getNotionValue` exactly as written, comparing relation runs with the
      mis-encoded literal. */
  function GetNotionValueAsWritten(val: seq<Run>, columnType: string, rowId: string, js: Runtime): Outcome<Decoded> {
    DecodeWith(RelationMarkerAsWritten, val, columnType, rowId, js)
  }

  /** `getNotionValue` with the relation glyph Notion uses. */
  function GetNotionValue(val: seq<Run>, columnType: string, rowId: string, js: Runtime): Outcome<Decoded> {
    DecodeWith(RelationMarker, val, columnType, rowId, js)
  }

  // ---------------------------------------------------------------------------
  // What each rule yields

  const SupportedTypes: set<string> := {
    "text", "title", "person", "checkbox", "date", "select", "email", "phone_number",
    "url", "multi_select", "number", "relation", "file"
  }

  /** `text` and `title` are the runs' texts concatenated in order (`""` for
      no runs), whatever the marks. */
  lemma DecodeText(val: seq<Run>, columnType: string, rowId: string, js: Runtime)
    requires columnType in {"text", "title"}
    ensures GetNotionValue(val, columnType, rowId, js) == Ok(Str(Texts(val)))
    ensures val == [] ==> GetNotionValue(val, columnType, rowId, js) == Ok(Str(""))
  {
    FoldTextIsTexts("", val);
    assert "" + Texts(val) == Texts(val);
  }

  /** `checkbox` is true exactly when the first run's text is "Yes"; with no
      run, `val![0]![0]` throws. */
  lemma DecodeCheckbox(val: seq<Run>, rowId: string, js: Runtime)
    ensures val == [] ==> GetNotionValue(val, "checkbox", rowId, js) == Thrown(TypeError)
    ensures val != [] ==>
      GetNotionValue(val, "checkbox", rowId, js).Ok? &&
      (GetNotionValue(val, "checkbox", rowId, js).value == Bool(true) <==> val[0].text == "Yes")
  {
  }

  /** The single-value columns give the first run's text unchanged, whatever its
      marks; they throw when there is no run. */
  lemma DecodeSingleValue(val: seq<Run>, columnType: string, rowId: string, js: Runtime)
    requires columnType in {"select", "email", "phone_number", "url"}
    ensures val == [] ==> GetNotionValue(val, columnType, rowId, js) == Thrown(TypeError)
    ensures val != [] ==> GetNotionValue(val, columnType, rowId, js) == Ok(Str(val[0].text))
    ensures forall marks :: val != [] ==>
      GetNotionValue([val[0].(marks := marks)] + val[1..], columnType, rowId, js) ==
      GetNotionValue(val, columnType, rowId, js)
  {
  }

  /** `multi_select` splits the first run's text at every comma. */
  lemma DecodeMultiSelect(val: seq<Run>, rowId: string, js: Runtime)
    requires val != []
    ensures GetNotionValue(val, "multi_select", rowId, js).Ok?
    ensures var r := GetNotionValue(val, "multi_select", rowId, js).value;
      && r.Strings?
      && JoinCommas(r.pieces) == val[0].text
      && (forall p :: p in r.pieces ==> ',' !in p)
      && |r.pieces| == CountChar(val[0].text, ',') + 1
  {
    SplitCommasInverse(val[0].text);
  }

  /** `number` is `Number` of the first run's text. */
  lemma DecodeNumber(val: seq<Run>, rowId: string, js: Runtime)
    ensures val == [] ==> GetNotionValue(val, "number", rowId, js) == Thrown(TypeError)
    ensures val != [] ==> GetNotionValue(val, "number", rowId, js) == Ok(Num(js.toNumber(val[0].text)))
  {
  }

  /** `date` gives the date object's start exactly when the first mark of the
      first run is tagged "d" and carries an object; any other tag or a string
      payload gives `""`; a missing run, mark list, first mark or payload
      throws. */
  lemma DecodeDate(val: seq<Run>, rowId: string, js: Runtime)
    ensures var r := GetNotionValue(val, "date", rowId, js);
      r.Ok? <==>
        (val != [] && val[0].marks.Some? && val[0].marks.value != [] &&
         (val[0].marks.value[0].tag == "d" ==> !val[0].marks.value[0].payload.NoPayload?))
    ensures var r := GetNotionValue(val, "date", rowId, js);
      forall start :: r == Ok(Str(start)) && start != "" ==>
        val[0].marks.value[0].tag == "d" && val[0].marks.value[0].payload == DateObject(start)
    ensures var r := GetNotionValue(val, "date", rowId, js);
      r.Ok? ==> (r.value.Str? &&
                 (r.value.s == "" || (val[0].marks.value[0].tag == "d" && val[0].marks.value[0].payload.DateObject?)))
    ensures var r := GetNotionValue(val, "date", rowId, js);
      r.Ok? && val[0].marks.value[0].tag == "d" && val[0].marks.value[0].payload.DateObject? ==>
        r.value == Str(val[0].marks.value[0].payload.startDate)
  {
  }

  /** The `person` branch of the decoder, on its own. */
  lemma PersonRule(val: seq<Run>, rowId: string, js: Runtime)
    ensures var m := MapOutcome(Filter(val, HasMarks), FirstPayload);
      GetNotionValue(val, "person", rowId, js) == if m.Ok? then Ok(Payloads(m.value)) else Thrown(m.error)
  {
    assert "person" != "text" && "person" != "title";
  }

  /** The `relation` branch of the decoder, on its own. */
  lemma RelationRule(marker: string, val: seq<Run>, rowId: string, js: Runtime)
    ensures var m := MapOutcome(Filter(val, TextIs(marker)), FirstPayload);
      DecodeWith(marker, val, "relation", rowId, js) == if m.Ok? then Ok(Payloads(m.value)) else Thrown(m.error)
  {
    assert "relation" !in {"text", "title", "person", "checkbox", "date", "select", "email", "phone_number", "url", "multi_select", "number"};
  }

  /** The `file` branch of the decoder, on its own. */
  lemma FileRule(val: seq<Run>, rowId: string, js: Runtime)
    ensures var m := MapOutcome(Filter(val, HasMarks), FileOfRow(rowId, js));
      GetNotionValue(val, "file", rowId, js) == if m.Ok? then Ok(Files(m.value)) else Thrown(m.error)
  {
    assert "file" !in {"text", "title", "person", "checkbox", "date", "select", "email", "phone_number", "url", "multi_select", "number", "relation"};
  }

  /** `person` keeps the runs that carry marks, in order, and takes the payload
      of each one's first mark; it is never longer than the input and throws
      when a kept run has an empty mark list. */
  lemma DecodePerson(val: seq<Run>, rowId: string, js: Runtime)
    ensures var kept := Filter(val, HasMarks);
      var r := GetNotionValue(val, "person", rowId, js);
      && (forall i :: 0 <= i < |kept| ==> kept[i].marks.Some?)
      && (r.Ok? <==> forall i :: 0 <= i < |kept| ==> kept[i].marks.value != [])
      && (r.Ok? ==> (r.value.Payloads? && |r.value.ids| == |kept| <= |val| &&
                     forall i :: 0 <= i < |kept| ==> r.value.ids[i] == kept[i].marks.value[0].payload))
  {
    var kept := Filter(val, HasMarks);
    PersonRule(val, rowId, js);
    MapOutcomeOk(kept, FirstPayload);
    assert forall i :: 0 <= i < |kept| ==> kept[i] in kept;
  }

  /** `relation` keeps the runs whose text is exactly the marker glyph, in
      order, and takes the payload of each one's first mark. */
  lemma DecodeRelation(val: seq<Run>, rowId: string, js: Runtime)
    ensures var kept := Filter(val, TextIs(RelationMarker));
      var r := GetNotionValue(val, "relation", rowId, js);
      && (forall i :: 0 <= i < |kept| ==> kept[i].text == RelationMarker)
      && (r.Ok? <==> forall i :: 0 <= i < |kept| ==> kept[i].marks.Some? && kept[i].marks.value != [])
      && (r.Ok? ==> (r.value.Payloads? && |r.value.ids| == |kept| <= |val| &&
                     forall i :: 0 <= i < |kept| ==> r.value.ids[i] == kept[i].marks.value[0].payload))
  {
    var kept := Filter(val, TextIs(RelationMarker));
    RelationRule(RelationMarker, val, rowId, js);
    MapOutcomeOk(kept, FirstPayload);
    assert forall i :: 0 <= i < |kept| ==> kept[i] in kept;
  }

  /** `file` keeps the runs that carry marks, in order; each record keeps the
      run's text as its name and the payload as its raw URL, is served from the
      image proxy of notion.so, and has exactly the query `table=block`,
      `id=<row id>`, `cache=v2`. */
  lemma DecodeFile(val: seq<Run>, rowId: string, js: Runtime)
    ensures var kept := Filter(val, HasMarks);
      var r := GetNotionValue(val, "file", rowId, js);
      && (forall i :: 0 <= i < |kept| ==> kept[i].marks.Some?)
      && (r.Ok? <==> forall i :: 0 <= i < |kept| ==>
            kept[i].marks.value != [] && kept[i].marks.value[0].payload.Text?)
      && (r.Ok? ==> (r.value.Files? && |r.value.files| == |kept| <= |val| &&
                     forall i :: 0 <= i < |kept| ==>
                       var f := r.value.files[i];
                       var raw := kept[i].marks.value[0].payload.s;
                       && f.name == kept[i].text
                       && f.rawUrl == raw
                       && f.url.base == NotionOrigin + (if StartsWith(raw, "/image") then raw else "/image/" + js.encodeURIComponent(raw))
                       && f.url.query == [("table", "block"), ("id", rowId), ("cache", "v2")]))
  {
    var kept := Filter(val, HasMarks);
    FileRule(val, rowId, js);
    MapOutcomeOk(kept, FileOfRow(rowId, js));
    assert forall i :: 0 <= i < |kept| ==> kept[i] in kept;
    ThreeSets("table", "block", "id", rowId, "cache", "v2");
  }

  /** Every other column type is reported and decodes to the string "Not supported". */
  lemma DecodeUnsupported(val: seq<Run>, columnType: string, rowId: string, js: Runtime)
    requires columnType !in SupportedTypes
    ensures GetNotionValue(val, columnType, rowId, js) == Ok(Str("Not supported"))
    ensures GetNotionValueAsWritten(val, columnType, rowId, js) == Ok(Str("Not supported"))
  {
  }

  /** As written, a page mention (text "‣" with a page-id mark) is filtered out,
      so a `relation` column decodes to no ids; with the intended glyph the id
      is kept. */
  lemma RelationAsWrittenDropsMentions(pageId: string, rowId: string, js: Runtime)
    ensures var mention := Run(RelationMarker, Some([Mark("p", Text(pageId))]));
      && GetNotionValueAsWritten([mention], "relation", rowId, js) == Ok(Payloads([]))
      && GetNotionValue([mention], "relation", rowId, js) == Ok(Payloads([Text(pageId)]))
  {
    var mention := Run(RelationMarker, Some([Mark("p", Text(pageId))]));
    assert RelationMarker != RelationMarkerAsWritten by {
      assert |RelationMarker| == 1 && |RelationMarkerAsWritten| == 3;
    }
    assert Filter([mention], TextIs(RelationMarkerAsWritten)) == [];
    assert Filter([mention], TextIs(RelationMarker)) == [mention];
    assert FirstPayload([mention][0]) == Ok(Text(pageId));
    MapOutcomeOk([mention], FirstPayload);
    assert MapOutcome([mention], FirstPayload).value == [Text(pageId)];
  }

  /** The two decoders differ only on `relation`. */
  lemma AsWrittenDiffersOnlyOnRelation(val: seq<Run>, columnType: string, rowId: string, js: Runtime)
    requires columnType != "relation"
    ensures GetNotionValueAsWritten(val, columnType, rowId, js) == GetNotionValue(val, columnType, rowId, js)
  {
  }

  // ---------------------------------------------------------------------------
  // getTagColor

  /** The Tailwind colour a known trail tag is shown in. */
  function TagHue(tag: string): string {
    if tag == "Day Hike" then "red"
    else if tag == "Overnight" then "violet"
    else if tag == "Alpine" then "blue"
    else if tag == "Coastal" then "green"
    else if tag == "Multi-Day" then "orange"
    else "neutral"
  }

  /** `getTagColor`: the background and text classes of a tag. */
  function GetTagColor(tag: string): (classes: string) {
    if tag == "Day Hike" then "bg-red-200 text-red-700"
    else if tag == "Overnight" then "bg-violet-200 text-violet-700"
    else if tag == "Alpine" then "bg-blue-200 text-blue-700"
    else if tag == "Coastal" then "bg-green-200 text-green-700"
    else if tag == "Multi-Day" then "bg-orange-200 text-orange-700"
    else "bg-neutral-200 text-neutral-700"
  }

  /** The class pair of one Tailwind hue. */
  function TagClasses(hue: string): string {
    "bg-" + hue + "-200 text-" + hue + "-700"
  }

  /** Every tag gets a light (200) background and a dark (700) text of one
      and the same hue: the hue of the table above, neutral for unknown tags. */
  lemma TagColorPairsOneHue(tag: string)
    ensures GetTagColor(tag) == TagClasses(TagHue(tag))
  {
    if tag == "Day Hike" {
      RedPairs();
    } else if tag == "Overnight" {
      VioletPairs();
    } else if tag == "Alpine" {
      BluePairs();
    } else if tag == "Coastal" {
      GreenPairs();
    } else if tag == "Multi-Day" {
      OrangePairs();
    } else {
      assert TagClasses("neutral") == "bg-neutral-200 text-neutral-700";
    }
  }

  lemma RedPairs()
    ensures GetTagColor("Day Hike") == TagClasses(TagHue("Day Hike"))
  {
    assert TagClasses("red") == "bg-red-200 text-red-700";
  }

  lemma VioletPairs()
    ensures GetTagColor("Overnight") == TagClasses(TagHue("Overnight"))
  {
    assert TagClasses("violet") == "bg-violet-200 text-violet-700";
  }

  lemma BluePairs()
    ensures GetTagColor("Alpine") == TagClasses(TagHue("Alpine"))
  {
    assert TagClasses("blue") == "bg-blue-200 text-blue-700";
  }

  lemma GreenPairs()
    ensures GetTagColor("Coastal") == TagClasses(TagHue("Coastal"))
  {
    assert TagClasses("green") == "bg-green-200 text-green-700";
  }

  lemma OrangePairs()
    ensures GetTagColor("Multi-Day") == TagClasses(TagHue("Multi-Day"))
  {
    assert TagClasses("orange") == "bg-orange-200 text-orange-700";
  }

  const KnownTags: seq<string> := ["Day Hike", "Overnight", "Alpine", "Coastal", "Multi-Day"]

  /** The five known tags get five different colours, none of them the neutral
      one every other tag gets. */
  lemma TagColorsDistinct(i: nat, j: nat)
    requires i < |KnownTags| && j < |KnownTags| && i != j
    ensures GetTagColor(KnownTags[i]) != GetTagColor(KnownTags[j])
    ensures GetTagColor(KnownTags[i]) != GetTagColor("")
  {
    TagInitial(i);
    TagInitial(j);
    assert GetTagColor("") == "bg-neutral-200 text-neutral-700";
  }

  /** The hue of each known tag is told apart by its first letter, the
      fourth character of its classes. */
  lemma TagInitial(i: nat)
    requires i < |KnownTags|
    ensures |GetTagColor(KnownTags[i])| > 3 && GetTagColor(KnownTags[i])[3] == "rvbgo"[i]
  {
    if i == 0 {
      assert GetTagColor(KnownTags[0]) == "bg-red-200 text-red-700";
    } else if i == 1 {
      assert GetTagColor(KnownTags[1]) == "bg-violet-200 text-violet-700";
    } else if i == 2 {
      assert GetTagColor(KnownTags[2]) == "bg-blue-200 text-blue-700";
    } else if i == 3 {
      assert GetTagColor(KnownTags[3]) == "bg-green-200 text-green-700";
    } else {
      assert GetTagColor(KnownTags[4]) == "bg-orange-200 text-orange-700";
    }
  }
}
