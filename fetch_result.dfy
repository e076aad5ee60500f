/** `fetch_result`: the status-code checks and the tolerant normaliser that turns the
    provider's payload into an ordered list of pages. The functions state what the
    normaliser computes; the method `FetchResult` computes it with the source's loops. */
module ResultNormalizer {
  import opened Errors
  import opened Json
  import opened OcrBase

  /** The top-level keys that make a payload without a page array one implicit page. */
  const PageKeys: seq<string> := ["text", "transcript", "tables", "key_value_pairs", "extractions", "fields"]

  predicate HasPageKey(m: map<string, Json>) {
    exists i :: 0 <= i < |PageKeys| && PageKeys[i] in m
  }

  /** `pages_payload`: `results`, else `pages`, else `[]`; an empty result with a page key
      present becomes the payload itself as the only page. */
  function PageSource(m: map<string, Json>): Json {
    var src := Or(Or(Get(m, "results"), Get(m, "pages")), JArray([]));
    if !Truthy(src) && HasPageKey(m) then JArray([JObject(m)]) else src
  }

  /** An element the page loop visits: a dict, or anything else. */
  datatype PageEntry = Obj(members: map<string, Json>) | NonObject

  function EntryOf(v: Json): PageEntry {
    if v.JObject? then Obj(v.members) else NonObject
  }

  /** What `enumerate(pages_payload)` visits: the elements of a list, the characters of a
      string or the keys of a dict (strings too, so only their number matters); numbers and
      booleans are not iterable. */
  function PageEntries(src: Json): (r: Result<seq<PageEntry>>)
    ensures src.JArray? ==>
      r.Ok? && |r.value| == |src.items| && forall i :: 0 <= i < |src.items| ==> r.value[i] == EntryOf(src.items[i])
  {
    match src
    case JArray(items) => Ok(seq(|items|, i requires 0 <= i < |items| => EntryOf(items[i])))
    case JString(s) => Ok(seq(|s|, _ => NonObject))
    case JObject(m) => Ok(seq(|m|, _ => NonObject))
    case _ => Err(Malformed(NotIterable))
  }

  /** What a `for x in v:` loop visits when it calls `x.get(...)` on each element: the
      elements of a list, the characters of a string; a non-empty dict yields its keys,
      which are strings, so the first `.get` fails. */
  function ElementsForGet(v: Json): Result<seq<Json>> {
    match v
    case JArray(items) => Ok(items)
    case JString(s) => Ok(seq(|s|, i requires 0 <= i < |s| => JString([s[i]])))
    case JObject(m) => if m == map[] then Ok([]) else Err(Malformed(EntryNotObject))
    case _ => Err(Malformed(NotIterable))
  }

  /** What `for extraction_group in v:` visits: list elements, string characters, or dict
      keys; only the empty key of a dict can be iterated without a failing `.get`. */
  function GroupsOf(v: Json): Result<seq<Json>> {
    match v
    case JArray(items) => Ok(items)
    case JString(s) => Ok(seq(|s|, i requires 0 <= i < |s| => JString([s[i]])))
    case JObject(m) =>
      if m.Keys <= {""} then Ok(if "" in m then [JString("")] else [])
      else Err(Malformed(EntryNotObject))
    case _ => Err(Malformed(NotIterable))
  }

  /** `fields.update(v)` on an empty dict with a truthy `v`: the dict's string keys and values. */
  function Install(v: Json): (r: Result<map<Json, Json>>)
    ensures r.Ok? <==> v.JObject?
    ensures r.Ok? ==> forall k :: k in r.value <==> k.JString? && k.s in v.members
    ensures r.Ok? ==> forall k :: k in v.members ==> r.value[JString(k)] == v.members[k]
  {
    if v.JObject? then Ok(map k | k in v.members :: JString(k) := v.members[k])
    else Err(Malformed(FieldsNotMapping))
  }

  /** The entries loop: each entry must be a dict; a truthy `key` must be hashable and
      `fields[key] = entry.get("value")`; a falsy key is skipped. */
  function ApplyEntries(fields: map<Json, Json>, entries: seq<Json>): Result<map<Json, Json>>
    decreases |entries|
  {
    if entries == [] then Ok(fields)
    else
      var e := entries[0];
      if !e.JObject? then Err(Malformed(EntryNotObject))
      else
        var key := Get(e.members, "key");
        if !Truthy(key) then ApplyEntries(fields, entries[1..])
        else if !Hashable(key) then Err(Malformed(UnhashableKey))
        else ApplyEntries(fields[key := Get(e.members, "value")], entries[1..])
  }

  /** The nested extraction loops: every group in order, every entry of a group in order. */
  function ApplyGroups(fields: map<Json, Json>, groups: seq<Json>): Result<map<Json, Json>>
    decreases |groups|
  {
    if groups == [] then Ok(fields)
    else
      var entries :- ElementsForGet(groups[0]);
      var next :- ApplyEntries(fields, entries);
      ApplyGroups(next, groups[1..])
  }

  /** Continue the extraction loops with the rest of the groups once a group has been applied. */
  function ThenGroups(r: Result<map<Json, Json>>, groups: seq<Json>): Result<map<Json, Json>> {
    if r.Err? then Err(r.error) else ApplyGroups(r.value, groups)
  }

  /** The `fields` of one page dict: the `fields` dict, then `key_value_pairs`, then `extractions`. */
  function PageFields(m: map<string, Json>): Result<map<Json, Json>> {
    var installed :- if Truthy(Get(m, "fields")) then Install(Get(m, "fields")) else Ok(map[]);
    var pairs :- if Truthy(Get(m, "key_value_pairs")) then ElementsForGet(Get(m, "key_value_pairs")) else Ok([]);
    var afterPairs :- ApplyEntries(installed, pairs);
    var groups :- if Truthy(Get(m, "extractions")) then GroupsOf(Get(m, "extractions")) else Ok([]);
    ApplyGroups(afterPairs, groups)
  }

  /** `page_number`: the entry's own when truthy, otherwise its 1-based position. */
  function PageNumber(idx: nat, m: map<string, Json>): Json {
    if Truthy(Get(m, "page_number")) then Get(m, "page_number") else JInt(idx)
  }

  /** The page the loop appends for the entry at 1-based position `idx`. */
  function NormalizeEntry(idx: nat, e: PageEntry): Result<OCRPageResult> {
    match e
    case NonObject => Ok(NewPageResult(JInt(idx), JNull, JArray([]), Some(map[]), JNull))
    case Obj(m) =>
      var fields :- PageFields(m);
      Ok(NewPageResult(PageNumber(idx, m), Or(Get(m, "transcript"), Get(m, "text")),
                       if "tables" in m then m["tables"] else JArray([]),
                       Some(fields), Get(m, "confidence")))
  }

  /** The pages for the entries from position `from` (0-based) on. */
  function NormalizePages(entries: seq<PageEntry>, from: nat): Result<seq<OCRPageResult>>
    requires from <= |entries|
    decreases |entries| - from
  {
    if from == |entries| then Ok([])
    else
      var page :- NormalizeEntry(from + 1, entries[from]);
      var rest :- NormalizePages(entries, from + 1);
      Ok([page] + rest)
  }

  /** The normalised result of a 200 response's payload. */
  function Normalize(jobId: string, payload: Json): Result<OCRResult> {
    if !payload.JObject? then Err(Malformed(PayloadNotObject))
    else
      var entries :- PageEntries(PageSource(payload.members));
      var pages :- NormalizePages(entries, 0);
      Ok(OCRResult(jobId, pages, payload))
  }

  /** `fetch_result(job)` as a function of the provider's response. */
  function FetchSpec(jobId: string, response: Response): Result<OCRResult> {
    if response.status == 202 then Err(StillProcessing)
    else if response.status != 200 then Err(FetchFailed(response.status))
    else Normalize(jobId, response.body)
  }

  /** `pages` prefixed to the rest of the result, if the rest succeeds. */
  function Prefixed(pages: seq<OCRPageResult>, rest: Result<seq<OCRPageResult>>): Result<seq<OCRPageResult>> {
    if rest.Err? then Err(rest.error) else Ok(pages + rest.value)
  }

  /** The loop over `key_value_pairs`, and the inner loop over one extraction group. */
  method ApplyEntriesLoop(fields0: map<Json, Json>, entries: seq<Json>) returns (r: Result<map<Json, Json>>)
    ensures r == ApplyEntries(fields0, entries)
  {
    var fields := fields0;
    var i := 0;
    while i < |entries|
      invariant 0 <= i <= |entries|
      invariant ApplyEntries(fields, entries[i..]) == ApplyEntries(fields0, entries)
    {
      var kv := entries[i];
      assert entries[i..][0] == kv && entries[i..][1..] == entries[i + 1..];
      if !kv.JObject? {
        return Err(Malformed(EntryNotObject));
      }
      var key := Get(kv.members, "key");
      if Truthy(key) {
        if !Hashable(key) {
          return Err(Malformed(UnhashableKey));
        }
        fields := fields[key := Get(kv.members, "value")];
      }
      i := i + 1;
    }
    return Ok(fields);
  }

  /** The outer loop over the extraction groups. */
  method ApplyGroupsLoop(fields0: map<Json, Json>, groups: seq<Json>) returns (r: Result<map<Json, Json>>)
    ensures r == ApplyGroups(fields0, groups)
  {
    var fields := fields0;
    var g := 0;
    while g < |groups|
      invariant 0 <= g <= |groups|
      invariant ApplyGroups(fields, groups[g..]) == ApplyGroups(fields0, groups)
    {
      assert groups[g..][0] == groups[g] && groups[g..][1..] == groups[g + 1..];
      var elements := ElementsForGet(groups[g]);
      if elements.Err? {
        return Err(elements.error);
      }
      var next := ApplyEntriesLoop(fields, elements.value);
      if next.Err? {
        return Err(next.error);
      }
      fields := next.value;
      g := g + 1;
    }
    return Ok(fields);
  }

  /** The three field sources of one page dict, in the source's order. */
  method CollectFields(m: map<string, Json>) returns (r: Result<map<Json, Json>>)
    ensures r == PageFields(m)
  {
    var fields: map<Json, Json> := map[];
    var given := Get(m, "fields");
    if Truthy(given) {
      if !given.JObject? {
        return Err(Malformed(FieldsNotMapping));
      }
      fields := fields + Install(given).value;
    }
    assert fields == (if Truthy(given) then Install(given).value else map[]);

    var pairs: seq<Json> := [];
    var pairsValue := Get(m, "key_value_pairs");
    if Truthy(pairsValue) {
      var elements := ElementsForGet(pairsValue);
      if elements.Err? {
        return Err(elements.error);
      }
      pairs := elements.value;
    }
    var afterPairs := ApplyEntriesLoop(fields, pairs);
    if afterPairs.Err? {
      return Err(afterPairs.error);
    }

    var groups: seq<Json> := [];
    var groupsValue := Get(m, "extractions");
    if Truthy(groupsValue) {
      var found := GroupsOf(groupsValue);
      if found.Err? {
        return Err(found.error);
      }
      groups := found.value;
    }
    r := ApplyGroupsLoop(afterPairs.value, groups);
  }

  /** One iteration of the page loop: the page for the entry at 1-based position `idx`. */
  method NormalizePage(idx: nat, e: PageEntry) returns (r: Result<OCRPageResult>)
    ensures r == NormalizeEntry(idx, e)
  {
    match e {
      case NonObject =>
        return Ok(NewPageResult(JInt(idx), JNull, JArray([]), Some(map[]), JNull));
      case Obj(m) =>
        var pageNumber := if Truthy(Get(m, "page_number")) then Get(m, "page_number") else JInt(idx);
        var text := Or(Get(m, "transcript"), Get(m, "text"));
        var tables := if "tables" in m then m["tables"] else JArray([]);
        var fields := CollectFields(m);
        if fields.Err? {
          return Err(fields.error);
        }
        return Ok(NewPageResult(pageNumber, text, tables, Some(fields.value), Get(m, "confidence")));
    }
  }

  /** One step of the page loop: an entry that raises ends it, a normalised page joins
      those already gathered. */
  lemma NormalizeStep(entries: seq<PageEntry>, from: nat, page: Result<OCRPageResult>, gathered: seq<OCRPageResult>)
    requires from < |entries|
    requires page == NormalizeEntry(from + 1, entries[from])
    ensures page.Err? ==> Prefixed(gathered, NormalizePages(entries, from)) == Err(page.error)
    ensures page.Ok? ==> Prefixed(gathered, NormalizePages(entries, from)) ==
                         Prefixed(gathered + [page.value], NormalizePages(entries, from + 1))
  {
    var rest := NormalizePages(entries, from + 1);
    if page.Ok? && rest.Ok? {
      assert gathered + ([page.value] + rest.value) == (gathered + [page.value]) + rest.value;
    }
  }

  /** The page loop: `enumerate(pages_payload, start=1)`, appending one page per entry. */
  method NormalizeAll(entries: seq<PageEntry>) returns (r: Result<seq<OCRPageResult>>)
    ensures r == NormalizePages(entries, 0)
  {
    var pages: seq<OCRPageResult> := [];
    var idx := 0;
    if NormalizePages(entries, 0).Ok? {
      assert [] + NormalizePages(entries, 0).value == NormalizePages(entries, 0).value;
    }
    while idx < |entries|
      invariant 0 <= idx <= |entries|
      invariant Prefixed(pages, NormalizePages(entries, idx)) == NormalizePages(entries, 0)
      decreases |entries| - idx
    {
      var page := NormalizePage(idx + 1, entries[idx]);
      NormalizeStep(entries, idx, page, pages);
      if page.Err? {
        return Err(page.error);
      }
      pages := pages + [page.value];
      idx := idx + 1;
    }
    assert pages + [] == pages;
    return Ok(pages);
  }

  /** `fetch_result(job)`: 202 and every other non-200 code raise; a 200 payload is
      normalised page by page, in order. */
  method FetchResult(job: OCRJob, response: Response) returns (r: Result<OCRResult>)
    ensures r == FetchSpec(job.jobId, response)
  {
    if response.status == 202 {
      return Err(StillProcessing);
    }
    if response.status != 200 {
      return Err(FetchFailed(response.status));
    }
    var payload := response.body;
    if !payload.JObject? {
      return Err(Malformed(PayloadNotObject));
    }
    var pagesPayload := Or(Or(Get(payload.members, "results"), Get(payload.members, "pages")), JArray([]));
    if !Truthy(pagesPayload) && HasPageKey(payload.members) {
      pagesPayload := JArray([payload]);
    }
    assert pagesPayload == PageSource(payload.members);
    var found := PageEntries(pagesPayload);
    if found.Err? {
      return Err(found.error);
    }
    var pages := NormalizeAll(found.value);
    if pages.Err? {
      return Err(pages.error);
    }
    return Ok(OCRResult(job.jobId, pages.value, payload));
  }
}
