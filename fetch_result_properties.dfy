/** What the normaliser promises: one page per entry in order, a truthy page number on
    every page, later field sources overriding earlier ones, and no exception on any
    payload whose pages can be walked. */
module NormalizerProperties {
  import opened Errors
  import opened Json
  import opened OcrBase
  import opened ResultNormalizer

  // ---------------------------------------------------------------------------
  // The page loop

  /** The page list has one page per entry, in entry order, numbered from `from + 1`. */
  lemma {:induction false} NormalizePagesShape(entries: seq<PageEntry>, from: nat)
    requires from <= |entries|
    ensures NormalizePages(entries, from).Ok? <==>
      forall i :: from <= i < |entries| ==> NormalizeEntry(i + 1, entries[i]).Ok?
    ensures NormalizePages(entries, from).Ok? ==>
      |NormalizePages(entries, from).value| == |entries| - from &&
      forall i :: 0 <= i < |entries| - from ==>
        NormalizePages(entries, from).value[i] == NormalizeEntry(from + i + 1, entries[from + i]).value
    decreases |entries| - from
  {
    if from < |entries| {
      NormalizePagesShape(entries, from + 1);
      var head := NormalizeEntry(from + 1, entries[from]);
      var rest := NormalizePages(entries, from + 1);
      if head.Ok? && rest.Ok? {
        var pages := NormalizePages(entries, from).value;
        assert pages == [head.value] + rest.value;
        forall i | 0 <= i < |entries| - from
          ensures pages[i] == NormalizeEntry(from + i + 1, entries[from + i]).value
        {
          if i > 0 {
            assert pages[i] == rest.value[i - 1];
            assert from + 1 + (i - 1) == from + i;
          }
        }
      }
    }
  }

  /** A successful normalisation is the page loop over the entries of the page source. */
  lemma NormalizeUnfolds(jobId: string, payload: Json)
    requires Normalize(jobId, payload).Ok?
    ensures payload.JObject?
    ensures PageEntries(PageSource(payload.members)).Ok?
    ensures NormalizePages(PageEntries(PageSource(payload.members)).value, 0).Ok?
    ensures Normalize(jobId, payload) ==
      Ok(OCRResult(jobId, NormalizePages(PageEntries(PageSource(payload.members)).value, 0).value, payload))
  {
  }

  /** A normalised result keeps the job id and the raw payload, and has exactly one page per
      entry the loop visits, the i-th page being that entry's page with number i + 1. */
  lemma NormalizeKeepsJobAndPayload(jobId: string, payload: Json)
    requires Normalize(jobId, payload).Ok?
    ensures payload.JObject?
    ensures PageEntries(PageSource(payload.members)).Ok?
    ensures var r := Normalize(jobId, payload).value;
      var entries := PageEntries(PageSource(payload.members)).value;
      r.jobId == jobId && r.rawProviderResponse == payload && |r.pages| == |entries| &&
      forall i :: 0 <= i < |entries| ==>
        NormalizeEntry(i + 1, entries[i]).Ok? && r.pages[i] == NormalizeEntry(i + 1, entries[i]).value
  {
    NormalizeUnfolds(jobId, payload);
    NormalizePagesShape(PageEntries(PageSource(payload.members)).value, 0);
  }

  /** The page for an entry: a truthy page number (its own or its position), text from
      `transcript` then `text`, the entry's `tables` when truthy and `[]` otherwise; a
      non-dict entry is an empty page at its position. */
  lemma NormalizedPageFields(idx: nat, e: PageEntry)
    requires idx >= 1
    requires NormalizeEntry(idx, e).Ok?
    ensures var p := NormalizeEntry(idx, e).value;
      Truthy(p.pageNumber) &&
      (Truthy(p.tables) || p.tables == JArray([])) &&
      (e.NonObject? ==> p == OCRPageResult(JInt(idx), JNull, JArray([]), map[], JNull)) &&
      (e.Obj? ==>
        p.pageNumber == (if Truthy(Get(e.members, "page_number")) then e.members["page_number"] else JInt(idx)) &&
        p.text == (if Truthy(Get(e.members, "transcript")) then e.members["transcript"] else Get(e.members, "text")) &&
        p.tables == Or(if "tables" in e.members then e.members["tables"] else JArray([]), JArray([])) &&
        p.confidence == Get(e.members, "confidence") &&
        p.fields == PageFields(e.members).value)
  {
  }

  /** Every page of a normalised result has a truthy page number, and a page without its own
      takes its 1-based position. */
  lemma PageNumbersAreTruthy(jobId: string, payload: Json)
    requires Normalize(jobId, payload).Ok?
    ensures forall i :: 0 <= i < |Normalize(jobId, payload).value.pages| ==>
      Truthy(Normalize(jobId, payload).value.pages[i].pageNumber)
  {
    NormalizeKeepsJobAndPayload(jobId, payload);
    var entries := PageEntries(PageSource(payload.members)).value;
    var pages := Normalize(jobId, payload).value.pages;
    forall i | 0 <= i < |pages| ensures Truthy(pages[i].pageNumber) {
      NormalizedPageFields(i + 1, entries[i]);
    }
  }

  // ---------------------------------------------------------------------------
  // Where the pages come from

  /** A truthy `results` is used even when `pages` is present. */
  lemma ResultsPreferredOverPages(m: map<string, Json>)
    requires Truthy(Get(m, "results"))
    ensures PageSource(m) == m["results"]
  {
  }

  /** A falsy `results` falls through to a truthy `pages`. */
  lemma PagesWhenResultsFalsy(m: map<string, Json>)
    requires !Truthy(Get(m, "results")) && Truthy(Get(m, "pages"))
    ensures PageSource(m) == m["pages"]
  {
  }

  /** The fetch's status codes: 202 is still processing, any other code but 200 is a failed
      fetch, and only a 200 answer with a JSON object body is normalised. */
  lemma FetchStatusCodes(jobId: string, response: Response)
    ensures response.status == 202 ==> FetchSpec(jobId, response) == Err(StillProcessing)
    ensures response.status != 200 && response.status != 202 ==>
              FetchSpec(jobId, response) == Err(FetchFailed(response.status))
    ensures response.status == 200 && !response.body.JObject? ==>
              FetchSpec(jobId, response) == Err(Malformed(PayloadNotObject))
    ensures FetchSpec(jobId, response).Ok? ==>
              response.status == 200 && response.body.JObject? &&
              FetchSpec(jobId, response) == Normalize(jobId, response.body)
  {
  }

  /** A payload with neither a page array nor a page key normalises to no pages. */
  lemma NoPageKeysNoPages(jobId: string, m: map<string, Json>)
    requires !Truthy(Get(m, "results")) && !Truthy(Get(m, "pages"))
    requires forall i :: 0 <= i < |PageKeys| ==> PageKeys[i] !in m
    ensures Normalize(jobId, JObject(m)) == Ok(OCRResult(jobId, [], JObject(m)))
  {
  }

  /** A payload with a page key but no page array is one page: the payload itself, page 1. */
  lemma ImplicitSinglePage(jobId: string, m: map<string, Json>, key: string)
    requires !Truthy(Get(m, "results")) && !Truthy(Get(m, "pages"))
    requires key in PageKeys && key in m
    requires PageFields(m).Ok?
    ensures Normalize(jobId, JObject(m)).Ok?
    ensures Normalize(jobId, JObject(m)).value.pages == [NormalizeEntry(1, Obj(m)).value]
  {
    var i :| 0 <= i < |PageKeys| && PageKeys[i] == key;
    assert HasPageKey(m);
    assert PageSource(m) == JArray([JObject(m)]);
    var entries := PageEntries(PageSource(m)).value;
    assert |entries| == 1 && entries[0] == Obj(m);
    assert entries == [Obj(m)];
    assert NormalizeEntry(1, Obj(m)).Ok?;
    var page := NormalizeEntry(1, Obj(m)).value;
    assert NormalizePages(entries, 1) == Ok([]);
    assert [page] + [] == [page];
    assert NormalizePages(entries, 0) == Ok([page]);
  }

  /** A page source that cannot be iterated is an error, not an empty result. */
  lemma NonIterablePageSource(jobId: string, m: map<string, Json>, n: int)
    requires n != 0
    requires Get(m, "results") == JInt(n)
    ensures Normalize(jobId, JObject(m)) == Err(Malformed(NotIterable))
  {
  }

  // ---------------------------------------------------------------------------
  // Fields: the entry loops

  /** The entry writes `k` into the fields dict. */
  predicate WritesKey(e: Json, k: Json) {
    e.JObject? && Truthy(Get(e.members, "key")) && Get(e.members, "key") == k
  }

  /** The entry at `i` is the last one that writes `k`. */
  predicate LastWriter(entries: seq<Json>, i: int, k: Json) {
    0 <= i < |entries| && WritesKey(entries[i], k) &&
    forall j :: i < j < |entries| ==> !WritesKey(entries[j], k)
  }

  /** Every entry is a dict whose truthy key is hashable. */
  predicate WalkableEntries(entries: seq<Json>) {
    forall i :: 0 <= i < |entries| ==>
      entries[i].JObject? && (Truthy(Get(entries[i].members, "key")) ==> Hashable(Get(entries[i].members, "key")))
  }

  /** The entry loop raises exactly when some entry is not a dict or has an unhashable key. */
  lemma {:induction false} ApplyEntriesSucceeds(fields: map<Json, Json>, entries: seq<Json>)
    ensures ApplyEntries(fields, entries).Ok? <==> WalkableEntries(entries)
    decreases |entries|
  {
    if entries != [] {
      var e := entries[0];
      assert forall i :: 1 <= i < |entries| ==> entries[i] == entries[1..][i - 1];
      if e.JObject? {
        var key := Get(e.members, "key");
        ApplyEntriesSucceeds(fields, entries[1..]);
        if Truthy(key) && Hashable(key) {
          ApplyEntriesSucceeds(fields[key := Get(e.members, "value")], entries[1..]);
        }
      }
    }
  }

  /** The fields dict after the entry loop: a key is present when it was before or some entry
      writes it; the last entry that writes a key decides its value; an unwritten key keeps
      its value. */
  lemma {:induction false} ApplyEntriesLastWins(fields: map<Json, Json>, entries: seq<Json>, k: Json)
    requires ApplyEntries(fields, entries).Ok?
    ensures k in ApplyEntries(fields, entries).value <==>
      k in fields || exists i :: 0 <= i < |entries| && WritesKey(entries[i], k)
    ensures forall i :: LastWriter(entries, i, k) ==>
      k in ApplyEntries(fields, entries).value &&
      ApplyEntries(fields, entries).value[k] == Get(entries[i].members, "value")
    ensures (forall i :: 0 <= i < |entries| ==> !WritesKey(entries[i], k)) && k in fields ==>
      ApplyEntries(fields, entries).value[k] == fields[k]
    decreases |entries|
  {
    if entries != [] {
      var e := entries[0];
      var tail := entries[1..];
      var key := Get(e.members, "key");
      var next := if Truthy(key) then fields[key := Get(e.members, "value")] else fields;
      assert ApplyEntries(fields, entries) == ApplyEntries(next, tail);
      ApplyEntriesLastWins(next, tail, k);
      var r := ApplyEntries(fields, entries).value;
      assert forall j :: 0 <= j < |tail| ==> tail[j] == entries[j + 1];
      assert WritesKey(e, k) <==> Truthy(key) && key == k;
      // membership
      if k in r {
        if k !in fields && !WritesKey(e, k) {
          var j :| 0 <= j < |tail| && WritesKey(tail[j], k);
          assert WritesKey(entries[j + 1], k);
        }
      }
      if exists i :: 0 <= i < |entries| && WritesKey(entries[i], k) {
        var i :| 0 <= i < |entries| && WritesKey(entries[i], k);
        if i > 0 {
          assert WritesKey(tail[i - 1], k);
        }
      }
      // the last writer
      forall i | LastWriter(entries, i, k)
        ensures k in r && r[k] == Get(entries[i].members, "value")
      {
        if i == 0 {
          assert forall j :: 0 <= j < |tail| ==> !WritesKey(tail[j], k);
        } else {
          assert LastWriter(tail, i - 1, k);
        }
      }
    }
  }

  /** The entries of all extraction groups, in order. */
  function GroupEntries(groups: seq<Json>): Result<seq<Json>>
    decreases |groups|
  {
    if groups == [] then Ok([])
    else
      var first :- ElementsForGet(groups[0]);
      var rest :- GroupEntries(groups[1..]);
      Ok(first + rest)
  }

  /** Running the entry loop over `a + b` is running it over `a`, then over `b`. */
  lemma {:induction false} ApplyEntriesConcat(fields: map<Json, Json>, a: seq<Json>, b: seq<Json>)
    ensures ApplyEntries(fields, a + b) == ThenEntries(ApplyEntries(fields, a), b)
    decreases |a|
  {
    if a != [] {
      assert (a + b)[0] == a[0];
      assert (a + b)[1..] == a[1..] + b;
      var e := a[0];
      if e.JObject? {
        var key := Get(e.members, "key");
        if !Truthy(key) {
          ApplyEntriesConcat(fields, a[1..], b);
        } else if Hashable(key) {
          ApplyEntriesConcat(fields[key := Get(e.members, "value")], a[1..], b);
        }
      }
    } else {
      assert a + b == b;
    }
  }

  function ThenEntries(r: Result<map<Json, Json>>, b: seq<Json>): Result<map<Json, Json>> {
    if r.Err? then Err(r.error) else ApplyEntries(r.value, b)
  }

  /** The nested extraction loops are the entry loop over all groups' entries in order. */
  lemma {:induction false} ApplyGroupsFlattens(fields: map<Json, Json>, groups: seq<Json>)
    requires ApplyGroups(fields, groups).Ok?
    ensures GroupEntries(groups).Ok?
    ensures ApplyEntries(fields, GroupEntries(groups).value) == ApplyGroups(fields, groups)
    decreases |groups|
  {
    if groups != [] {
      var first := ElementsForGet(groups[0]).value;
      var next := ApplyEntries(fields, first).value;
      ApplyGroupsFlattens(next, groups[1..]);
      ApplyEntriesConcat(fields, first, GroupEntries(groups[1..]).value);
    }
  }

  /** The dict installed from `fields`, the `key_value_pairs` entries and the extraction
      entries of a page whose fields can be collected. */
  function InstalledFields(m: map<string, Json>): map<Json, Json> {
    if Truthy(Get(m, "fields")) && Install(Get(m, "fields")).Ok? then Install(Get(m, "fields")).value else map[]
  }

  function PairEntries(m: map<string, Json>): seq<Json> {
    if Truthy(Get(m, "key_value_pairs")) && ElementsForGet(Get(m, "key_value_pairs")).Ok?
    then ElementsForGet(Get(m, "key_value_pairs")).value else []
  }

  function ExtractionEntries(m: map<string, Json>): seq<Json> {
    var ex := Get(m, "extractions");
    if Truthy(ex) && GroupsOf(ex).Ok? && GroupEntries(GroupsOf(ex).value).Ok?
    then GroupEntries(GroupsOf(ex).value).value else []
  }

  /** A page's fields are the entry loop over pairs then extractions, started from `fields`. */
  lemma PageFieldsAsOneLoop(m: map<string, Json>)
    requires PageFields(m).Ok?
    ensures PageFields(m) == ApplyEntries(InstalledFields(m), PairEntries(m) + ExtractionEntries(m))
  {
    var afterPairs := ApplyEntries(InstalledFields(m), PairEntries(m)).value;
    var ex := Get(m, "extractions");
    var groups := if Truthy(ex) then GroupsOf(ex).value else [];
    ApplyGroupsFlattens(afterPairs, groups);
    ApplyEntriesConcat(InstalledFields(m), PairEntries(m), ExtractionEntries(m));
  }

  /** The last writer of `b` is the last writer of `a + b`. */
  lemma LastWriterOfSuffix(a: seq<Json>, b: seq<Json>, i: int, k: Json)
    requires LastWriter(b, i, k)
    ensures LastWriter(a + b, |a| + i, k)
  {
    var all := a + b;
    assert all[|a| + i] == b[i];
    forall j | |a| + i < j < |all| ensures !WritesKey(all[j], k) {
      assert all[j] == b[j - |a|];
    }
  }

  /** When `b` does not write `k`, the last writer of `a` is the last writer of `a + b`. */
  lemma LastWriterOfPrefix(a: seq<Json>, b: seq<Json>, i: int, k: Json)
    requires LastWriter(a, i, k)
    requires forall j :: 0 <= j < |b| ==> !WritesKey(b[j], k)
    ensures LastWriter(a + b, i, k)
  {
    var all := a + b;
    assert all[i] == a[i];
    forall j | i < j < |all| ensures !WritesKey(all[j], k) {
      if j < |a| { assert all[j] == a[j]; } else { assert all[j] == b[j - |a|]; }
    }
  }

  /** A key written by neither part is not written by the concatenation. */
  lemma NoWriterInConcat(a: seq<Json>, b: seq<Json>, k: Json)
    requires forall j :: 0 <= j < |a| ==> !WritesKey(a[j], k)
    requires forall j :: 0 <= j < |b| ==> !WritesKey(b[j], k)
    ensures forall j :: 0 <= j < |a + b| ==> !WritesKey((a + b)[j], k)
  {
    forall j | 0 <= j < |a + b| ensures !WritesKey((a + b)[j], k) {
      if j < |a| { assert (a + b)[j] == a[j]; } else { assert (a + b)[j] == b[j - |a|]; }
    }
  }

  /** No extraction writes `k`. */
  predicate NoExtractionWrites(m: map<string, Json>, k: Json) {
    forall j :: 0 <= j < |ExtractionEntries(m)| ==> !WritesKey(ExtractionEntries(m)[j], k)
  }

  /** No key-value pair writes `k`. */
  predicate NoPairWrites(m: map<string, Json>, k: Json) {
    forall j :: 0 <= j < |PairEntries(m)| ==> !WritesKey(PairEntries(m)[j], k)
  }

  /** An extraction overrides everything: the last extraction that writes a key decides it. */
  lemma ExtractionsWin(m: map<string, Json>, k: Json, i: int)
    requires PageFields(m).Ok?
    requires LastWriter(ExtractionEntries(m), i, k)
    ensures k in PageFields(m).value
    ensures PageFields(m).value[k] == Get(ExtractionEntries(m)[i].members, "value")
  {
    PageFieldsAsOneLoop(m);
    LastWriterOfSuffix(PairEntries(m), ExtractionEntries(m), i, k);
    ApplyEntriesLastWins(InstalledFields(m), PairEntries(m) + ExtractionEntries(m), k);
    assert (PairEntries(m) + ExtractionEntries(m))[|PairEntries(m)| + i] == ExtractionEntries(m)[i];
  }

  /** Without an extraction for a key, the last key-value pair that writes it decides it. */
  lemma PairsBeatFields(m: map<string, Json>, k: Json, i: int)
    requires PageFields(m).Ok?
    requires NoExtractionWrites(m, k)
    requires LastWriter(PairEntries(m), i, k)
    ensures k in PageFields(m).value
    ensures PageFields(m).value[k] == Get(PairEntries(m)[i].members, "value")
  {
    PageFieldsAsOneLoop(m);
    LastWriterOfPrefix(PairEntries(m), ExtractionEntries(m), i, k);
    ApplyEntriesLastWins(InstalledFields(m), PairEntries(m) + ExtractionEntries(m), k);
    assert (PairEntries(m) + ExtractionEntries(m))[i] == PairEntries(m)[i];
  }

  /** A key written by no pair and no extraction is present exactly when the `fields` dict
      has it, with that value. */
  lemma FieldsDictOtherwise(m: map<string, Json>, k: Json)
    requires PageFields(m).Ok?
    requires NoExtractionWrites(m, k) && NoPairWrites(m, k)
    ensures k in PageFields(m).value <==> k in InstalledFields(m)
    ensures k in InstalledFields(m) ==> PageFields(m).value[k] == InstalledFields(m)[k]
  {
    PageFieldsAsOneLoop(m);
    NoWriterInConcat(PairEntries(m), ExtractionEntries(m), k);
    ApplyEntriesLastWins(InstalledFields(m), PairEntries(m) + ExtractionEntries(m), k);
  }

  // ---------------------------------------------------------------------------
  // Payloads the normaliser walks without raising

  /** A page dict whose field sources have the shapes the provider documents. */
  predicate WalkablePage(m: map<string, Json>) {
    var f := Get(m, "fields");
    var kv := Get(m, "key_value_pairs");
    var ex := Get(m, "extractions");
    (Truthy(f) ==> f.JObject?) &&
    (Truthy(kv) ==> kv.JArray? && WalkableEntries(kv.items)) &&
    (Truthy(ex) ==>
       ex.JArray? && forall g :: 0 <= g < |ex.items| ==> ex.items[g].JArray? && WalkableEntries(ex.items[g].items))
  }

  lemma {:induction false} ApplyGroupsSucceeds(fields: map<Json, Json>, groups: seq<Json>)
    requires forall g :: 0 <= g < |groups| ==> groups[g].JArray? && WalkableEntries(groups[g].items)
    ensures ApplyGroups(fields, groups).Ok?
    decreases |groups|
  {
    if groups != [] {
      ApplyEntriesSucceeds(fields, groups[0].items);
      var next := ApplyEntries(fields, groups[0].items).value;
      assert forall g :: 0 <= g < |groups[1..]| ==> groups[1..][g] == groups[g + 1];
      ApplyGroupsSucceeds(next, groups[1..]);
    }
  }

  /** Fields of a walkable page are always collected. */
  lemma WalkablePageNeverRaises(m: map<string, Json>)
    requires WalkablePage(m)
    ensures PageFields(m).Ok?
  {
    var installed := if Truthy(Get(m, "fields")) then Install(Get(m, "fields")).value else map[];
    var kv := Get(m, "key_value_pairs");
    var pairs := if Truthy(kv) then kv.items else [];
    ApplyEntriesSucceeds(installed, pairs);
    var ex := Get(m, "extractions");
    var groups := if Truthy(ex) then ex.items else [];
    ApplyGroupsSucceeds(ApplyEntries(installed, pairs).value, groups);
  }

  /** A payload whose page array holds walkable dicts, or anything that is not a dict, always
      normalises, with one page per element. */
  lemma WalkablePayloadNeverRaises(jobId: string, m: map<string, Json>)
    requires PageSource(m).JArray?
    requires forall i :: 0 <= i < |PageSource(m).items| ==>
      PageSource(m).items[i].JObject? ==> WalkablePage(PageSource(m).items[i].members)
    ensures Normalize(jobId, JObject(m)).Ok?
    ensures |Normalize(jobId, JObject(m)).value.pages| == |PageSource(m).items|
  {
    var items := PageSource(m).items;
    var entries := PageEntries(PageSource(m)).value;
    forall i | 0 <= i < |entries| ensures NormalizeEntry(i + 1, entries[i]).Ok? {
      if items[i].JObject? {
        WalkablePageNeverRaises(items[i].members);
      }
    }
    NormalizePagesShape(entries, 0);
  }

  // ---------------------------------------------------------------------------
  // Examples

  /** A one-entry page list is that entry's page, numbered 1. */
  lemma SingleEntryPages(e: PageEntry)
    requires NormalizeEntry(1, e).Ok?
    ensures NormalizePages([e], 0) == Ok([NormalizeEntry(1, e).value])
  {
    var page := NormalizeEntry(1, e).value;
    assert NormalizePages([e], 1) == Ok([]);
    assert [page] + [] == [page];
  }

  /** `{"results": [{"transcript": "hello", "page_number": 5}]}`: one page, number 5. */
  lemma TranscriptExample(jobId: string)
    ensures var payload := JObject(map["results" := JArray([JObject(map["transcript" := JString("hello"), "page_number" := JInt(5)])])]);
      Normalize(jobId, payload) ==
        Ok(OCRResult(jobId, [OCRPageResult(JInt(5), JString("hello"), JArray([]), map[], JNull)], payload))
  {
    var page := map["transcript" := JString("hello"), "page_number" := JInt(5)];
    var m := map["results" := JArray([JObject(page)])];
    assert PageSource(m) == JArray([JObject(page)]);
    var entries := PageEntries(PageSource(m)).value;
    assert entries == [Obj(page)];
    assert PageFields(page) == Ok(map[]);
    assert NormalizeEntry(1, Obj(page)) == Ok(OCRPageResult(JInt(5), JString("hello"), JArray([]), map[], JNull));
    SingleEntryPages(Obj(page));
  }

  /** `{"text": "hi"}`: the payload itself is page 1. */
  lemma TopLevelTextExample(jobId: string)
    ensures Normalize(jobId, JObject(map["text" := JString("hi")])) ==
      Ok(OCRResult(jobId, [OCRPageResult(JInt(1), JString("hi"), JArray([]), map[], JNull)], JObject(map["text" := JString("hi")])))
  {
    var m := map["text" := JString("hi")];
    assert PageKeys[0] in m;
    assert PageSource(m) == JArray([JObject(m)]);
    var entries := PageEntries(PageSource(m)).value;
    assert entries == [Obj(m)];
    assert PageFields(m) == Ok(map[]);
    assert NormalizeEntry(1, Obj(m)) == Ok(OCRPageResult(JInt(1), JString("hi"), JArray([]), map[], JNull));
    SingleEntryPages(Obj(m));
  }

  /** `fields.update({name: v})` on an empty dict gives `{name: v}`. */
  lemma InstallSingleton(name: string, v: Json)
    ensures Install(JObject(map[name := v])) == Ok(map[JString(name) := v])
  {
    var installed := Install(JObject(map[name := v])).value;
    assert JString(name) in installed && installed[JString(name)] == v;
    forall k | k in installed ensures k == JString(name) { }
    assert installed == map[JString(name) := v];
  }

  /** A key-value pair overrides the `fields` dict: `name: before` then `name -> after`
      gives `name: after`. */
  lemma PairOverridesFieldsDict(m: map<string, Json>, name: string, before: Json, after: Json)
    requires name != ""
    requires Get(m, "fields") == JObject(map[name := before])
    requires Get(m, "key_value_pairs") == JArray([JObject(map["key" := JString(name), "value" := after])])
    requires !Truthy(Get(m, "extractions"))
    ensures PageFields(m) == Ok(map[JString(name) := after])
  {
    InstallSingleton(name, before);
    var pair := JObject(map["key" := JString(name), "value" := after]);
    var installed := map[JString(name) := before];
    assert Get(pair.members, "key") == JString(name);
    assert Get(pair.members, "value") == after;
    assert ApplyEntries(installed, [pair]) == ApplyEntries(installed[JString(name) := after], [pair][1..]);
    assert installed[JString(name) := after] == map[JString(name) := after];
  }

  /** An extraction entry that is not a dict makes the whole fetch raise. */
  lemma BadExtractionExample()
    ensures PageFields(map["extractions" := JArray([JArray([JInt(3)])])]) == Err(Malformed(EntryNotObject))
  {
  }
}
