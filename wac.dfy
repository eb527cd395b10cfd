/** Willow Auto Correct (app/internal/wac.py): the query sent to the Typesense
    command index, the decision taken on its top hit, the deduplicating insert
    used for autolearning, and the "turn on/off" commands derived from Home
    Assistant's entities. Typesense itself is an oracle: its answer to a query
    is a `SearchResponse`, and the collection is a sequence of documents. */
module Wac {
  import opened Wrappers
  import opened Text

  // ---------------------------------------------------------------------
  // Search configuration and query

  /** The tunables `wac_search` takes: string distance, number of results, the
      three thresholds, the semantic mode ("hybrid", "on", anything else means
      token matching) and the embedding model. */
  datatype SearchConfig = SearchConfig(
    distance: int,
    numResults: int,
    tokenMatchThreshold: int,
    semantic: string,
    semanticModel: string,
    vectorDistanceThreshold: real,
    hybridScoreThreshold: real)

  /** The values used when the environment overrides none of them (wac.py:45-75). */
  const DefaultSearchConfig: SearchConfig :=
    SearchConfig(2, 1, 3, "hybrid", "all-MiniLM-L12-v2", 0.29, 0.85)

  /** The `wac_search_parameters` dictionary, one field per key; `filterBy` is
      None while the key is absent. */
  datatype SearchQuery = SearchQuery(
    q: string,
    queryBy: string,
    sortBy: string,
    textMatchType: string,
    prioritizeTokenPosition: bool,
    dropTokensThreshold: int,
    typoTokensThreshold: int,
    splitJoinTokens: string,
    numTypos: int,
    minLen1typo: int,
    minLen2typo: int,
    perPage: int,
    limitHits: int,
    prefix: bool,
    useCache: bool,
    excludeFields: string,
    searchCutoffMs: int,
    maxCandidates: int,
    filterBy: Option<string>)

  /** The query with every request-dependent key blanked. */
  function Blanked(p: SearchQuery): SearchQuery {
    p.(q := "", queryBy := "", numTypos := 0, perPage := 0, limitHits := 0, filterBy := None)
  }

  /** The keys that never depend on the request (the blanked ones left empty). */
  const FixedQuery: SearchQuery := SearchQuery(
    "", "", "_text_match:desc,rank:desc,accuracy:desc", "max_score", false, 1, 1, "fallback",
    0, 3, 6, 0, 0, false, false, "all-MiniLM-L12-v2,gte-small,multilingual-e5-small", 100, 4, None)

  /** The query dictionary, built and then updated in place. */
  method SearchParameters(command: string, exactMatch: bool, cfg: SearchConfig) returns (p: SearchQuery)
    ensures Blanked(p) == FixedQuery
    ensures p.q == command
    ensures cfg.semantic == "hybrid" ==> p.queryBy == "command," + cfg.semanticModel
    ensures cfg.semantic == "on" ==> p.queryBy == cfg.semanticModel
    ensures cfg.semantic != "hybrid" && cfg.semantic != "on" ==> p.queryBy == "command"
    ensures p.numTypos == cfg.distance
    ensures p.perPage == cfg.numResults && p.limitHits == cfg.numResults
    ensures p.filterBy.Some? <==> exactMatch
    ensures exactMatch ==> p.filterBy == Some("command:=" + command)
  {
    p := SearchQuery(
      command, "command", "_text_match:desc,rank:desc,accuracy:desc", "max_score", false, 1, 1, "fallback",
      cfg.distance, 3, 6, cfg.numResults, cfg.numResults, false, false,
      "all-MiniLM-L12-v2,gte-small,multilingual-e5-small", 100, 4, None);
    if exactMatch {
      p := p.(filterBy := Some("command:=" + command));
    }
    if cfg.semantic == "hybrid" {
      p := p.(queryBy := "command," + cfg.semanticModel);
    } else if cfg.semantic == "on" {
      p := p.(queryBy := cfg.semanticModel);
    }
  }

  // ---------------------------------------------------------------------
  // Search response and decision

  /** The fields of a hit that `wac_search` reads; None where the path is absent. */
  datatype Hit = Hit(
    id: Option<string>,
    textMatch: Option<int>,
    tokensMatched: Option<int>,
    command: Option<string>,
    source: Option<string>,
    vectorDistance: Option<real>,
    rankFusionScore: Option<real>)

  /** Typesense's answer to a query: the call raised, or a list of hits. */
  datatype SearchResponse = QueryFailed | Hits(hits: seq<Hit>)

  /** The five fields read together at wac.py:400-406 are all present. */
  predicate Extractable(h: Hit) {
    h.id.Some? && h.textMatch.Some? && h.tokensMatched.Some? && h.command.Some? && h.source.Some?
  }

  /** The response has a first hit whose fields can be read. */
  predicate HasTopHit(resp: SearchResponse) {
    resp.Hits? && |resp.hits| > 0 && Extractable(resp.hits[0])
  }

  /** The top hit goes to scoring: it exists and the exact-match shortcut does not apply. */
  predicate Scored(exactMatch: bool, resp: SearchResponse) {
    HasTopHit(resp) && !(exactMatch && resp.hits[0].command.value != "")
  }

  /** The threshold test of the configured mode. A missing vector distance or
      fusion score makes `json_get` raise inside the outer handler: no success. */
  function ScorePasses(cfg: SearchConfig, top: Hit): (b: bool)
    requires top.tokensMatched.Some?
    ensures cfg.semantic == "on" ==>
              (b <==> top.vectorDistance.Some? && top.vectorDistance.value <= cfg.vectorDistanceThreshold)
    ensures cfg.semantic == "hybrid" ==>
              (b <==> top.rankFusionScore.Some? && top.rankFusionScore.value >= cfg.hybridScoreThreshold)
    ensures cfg.semantic != "on" && cfg.semantic != "hybrid" ==>
              (b <==> top.tokensMatched.value >= cfg.tokenMatchThreshold)
  {
    if cfg.semantic == "on" then
      top.vectorDistance.Some? && top.vectorDistance.value <= cfg.vectorDistanceThreshold
    else if cfg.semantic == "hybrid" then
      top.rankFusionScore.Some? && top.rankFusionScore.value >= cfg.hybridScoreThreshold
    else
      top.tokensMatched.value >= cfg.tokenMatchThreshold
  }

  /** `(success, wac_command)` as returned by `wac_search`. */
  datatype SearchResult = SearchResult(success: bool, command: string)

  /** What `wac_search` returns for a given Typesense response. */
  function SearchOutcome(command: string, exactMatch: bool, cfg: SearchConfig, resp: SearchResponse): (r: SearchResult)
    // no usable top hit (call raised, no hits, a field missing): the input, unmatched
    ensures !HasTopHit(resp) ==> r == SearchResult(false, command)
    // otherwise the top hit's command is returned, matched or not
    ensures HasTopHit(resp) ==> r.command == resp.hits[0].command.value
    ensures HasTopHit(resp) && exactMatch && resp.hits[0].command.value != "" ==> r.success
    // threshold decision of each mode; each boundary value counts as a match
    ensures Scored(exactMatch, resp) && cfg.semantic == "on" ==>
              (r.success <==> resp.hits[0].vectorDistance.Some? &&
                              resp.hits[0].vectorDistance.value <= cfg.vectorDistanceThreshold)
    ensures Scored(exactMatch, resp) && cfg.semantic == "hybrid" ==>
              (r.success <==> resp.hits[0].rankFusionScore.Some? &&
                              resp.hits[0].rankFusionScore.value >= cfg.hybridScoreThreshold)
    ensures Scored(exactMatch, resp) && cfg.semantic != "on" && cfg.semantic != "hybrid" ==>
              (r.success <==> resp.hits[0].tokensMatched.value >= cfg.tokenMatchThreshold)
  {
    if !HasTopHit(resp) then
      SearchResult(false, command)
    else
      var top := resp.hits[0];
      if exactMatch && top.command.value != "" then SearchResult(true, top.command.value)
      else SearchResult(ScorePasses(cfg, top), top.command.value)
  }

  /** `wac_search` without `raw`: builds the query, then reassigns `success`
      and `wac_command` step by step as the response is read. */
  method WacSearch(command: string, exactMatch: bool, cfg: SearchConfig, resp: SearchResponse)
    returns (success: bool, wacCommand: string, query: SearchQuery)
    ensures SearchResult(success, wacCommand) == SearchOutcome(command, exactMatch, cfg, resp)
    ensures query.q == command && (query.filterBy.Some? <==> exactMatch)
  {
    success := false;
    wacCommand := command;
    // values that always lose, kept until the response overwrites them
    var tokensMatched := 0;
    var vectorDistance := 10.0;
    var hybridScore := 0.0;
    query := SearchParameters(command, exactMatch, cfg);
    if resp.QueryFailed? {
      return;
    }
    var hits := resp.hits;
    if |hits| == 0 || !Extractable(hits[0]) {
      return;
    }
    tokensMatched := hits[0].tokensMatched.value;
    wacCommand := hits[0].command.value;
    if exactMatch && wacCommand != "" {
      success := true;
      return;
    }
    if cfg.semantic == "on" {
      if hits[0].vectorDistance.None? {
        return;
      }
      vectorDistance := hits[0].vectorDistance.value;
      if vectorDistance <= cfg.vectorDistanceThreshold {
        success := true;
      }
    } else if cfg.semantic == "hybrid" {
      if hits[0].rankFusionScore.None? {
        return;
      }
      hybridScore := hits[0].rankFusionScore.value;
      if hybridScore >= cfg.hybridScoreThreshold {
        success := true;
      }
    } else {
      if tokensMatched >= cfg.tokenMatchThreshold {
        success := true;
      }
    }
  }

  // ---------------------------------------------------------------------
  // The command index and wac_add

  /** A document of the commands collection as `wac_add` writes it. */
  datatype Document = Document(command: string, rank: real, accuracy: real, source: string, timestamp: int)

  /** `learned`, and the collection after the call. */
  datatype AddResult = AddResult(learned: bool, index: seq<Document>)

  /** `wac_add`: an exact-match search first; on a match nothing is added,
      otherwise one document is created. `exact` is Typesense's answer to the
      exact-match query and `created` whether `documents.create` succeeded. */
  function WacAdd(index: seq<Document>, command: string, rank: real, source: string, timestamp: int,
                  cfg: SearchConfig, exact: SearchResponse, created: bool): (r: AddResult)
    ensures |index| <= |r.index| && r.index[..|index|] == index
    ensures r.learned <==> |r.index| == |index| + 1
    ensures !r.learned ==> r.index == index
    ensures r.learned ==> r.index[|index|] == Document(command, rank, 1.0, source, timestamp)
    ensures SearchOutcome(command, true, cfg, exact).success ==> !r.learned
    ensures !SearchOutcome(command, true, cfg, exact).success && created ==> r.learned
    ensures !created ==> !r.learned
  {
    var found := SearchOutcome(command, true, cfg, exact);
    if found.success then
      AddResult(false, index)
    else if !created then
      AddResult(false, index)
    else
      AddResult(true, index + [Document(command, rank, 1.0, source, timestamp)])
  }

  /** Some document of the collection holds command `c`. */
  ghost predicate Stored(index: seq<Document>, c: string) {
    exists i :: 0 <= i < |index| && index[i].command == c
  }

  /** No two documents hold the same command. */
  ghost predicate Distinct(index: seq<Document>) {
    forall i, j :: 0 <= i < j < |index| ==> index[i].command != index[j].command
  }

  /** `resp` is what Typesense answers to the exact-match query for `c`
      (`filter_by: command:=c`) when the collection is `index`: either the
      call fails, or it returns the documents holding `c`, and only those. */
  ghost predicate Reflects(resp: SearchResponse, index: seq<Document>, c: string) {
    resp.QueryFailed? ||
    ((|resp.hits| > 0 <==> Stored(index, c)) &&
     forall h :: h in resp.hits ==> Extractable(h) && h.command == Some(c))
  }

  /** A command the collection does not hold is learned when the insert succeeds. */
  lemma LearnFresh(index: seq<Document>, c: string, rank: real, source: string, timestamp: int,
                   cfg: SearchConfig, exact: SearchResponse)
    requires Reflects(exact, index, c) && !Stored(index, c)
    ensures WacAdd(index, c, rank, source, timestamp, cfg, exact, true).learned
  {
    assert !HasTopHit(exact);
  }

  /** A non-empty command the collection already holds is refused. */
  lemma RefuseStored(index: seq<Document>, c: string, rank: real, source: string, timestamp: int,
                     cfg: SearchConfig, exact: SearchResponse, created: bool)
    requires c != "" && Reflects(exact, index, c) && exact.Hits? && Stored(index, c)
    ensures WacAdd(index, c, rank, source, timestamp, cfg, exact, created) == AddResult(false, index)
  {
    assert exact.hits[0] in exact.hits;
  }

  /** Adding the same non-empty command twice learns it once: true, then false. */
  lemma LearnTwice(index: seq<Document>, c: string, rank: real, source: string, t1: int, t2: int,
                   cfg: SearchConfig, exact1: SearchResponse, exact2: SearchResponse, created2: bool)
    requires c != "" && !Stored(index, c) && Reflects(exact1, index, c)
    requires Reflects(exact2, WacAdd(index, c, rank, source, t1, cfg, exact1, true).index, c) && exact2.Hits?
    ensures WacAdd(index, c, rank, source, t1, cfg, exact1, true).learned
    ensures !WacAdd(WacAdd(index, c, rank, source, t1, cfg, exact1, true).index, c, rank, source, t2, cfg, exact2, created2).learned
  {
    LearnFresh(index, c, rank, source, t1, cfg, exact1);
    var after := WacAdd(index, c, rank, source, t1, cfg, exact1, true).index;
    assert after[|index|].command == c;
    RefuseStored(after, c, rank, source, t2, cfg, exact2, created2);
  }

  /** With a faithful exact search, autolearning never duplicates a non-empty command. */
  lemma AddKeepsDistinct(index: seq<Document>, c: string, rank: real, source: string, timestamp: int,
                         cfg: SearchConfig, exact: SearchResponse, created: bool)
    requires Distinct(index) && c != "" && Reflects(exact, index, c) && exact.Hits?
    ensures Distinct(WacAdd(index, c, rank, source, timestamp, cfg, exact, created).index)
  {
    var r := WacAdd(index, c, rank, source, timestamp, cfg, exact, created);
    if r.learned {
      if Stored(index, c) {
        RefuseStored(index, c, rank, source, timestamp, cfg, exact, created);
      }
      forall i, j | 0 <= i < j < |r.index| ensures r.index[i].command != r.index[j].command {
        if j == |index| {
          assert r.index[i] == index[i];
        } else {
          assert r.index[i] == index[i] && r.index[j] == index[j];
        }
      }
    }
  }

  /** As written, the empty command escapes the duplicate check: its exact hit
      has a falsy command, so it is scored like a fuzzy hit, and a low score
      lets a second copy in. */
  lemma EmptyCommandDuplicates()
    ensures var index := [Document("", 0.9, 1.0, "autolearn", 0)];
            var exact := Hits([Hit(Some("0"), Some(0), Some(0), Some(""), Some("autolearn"), None, Some(0.5))]);
            Reflects(exact, index, "") &&
            WacAdd(index, "", 0.9, "autolearn", 1, DefaultSearchConfig, exact, true).learned &&
            !Distinct(WacAdd(index, "", 0.9, "autolearn", 1, DefaultSearchConfig, exact, true).index)
  {
    var index := [Document("", 0.9, 1.0, "autolearn", 0)];
    assert Stored(index, "") by { assert index[0].command == ""; }
    var exact := Hits([Hit(Some("0"), Some(0), Some(0), Some(""), Some("autolearn"), None, Some(0.5))]);
    var r := WacAdd(index, "", 0.9, "autolearn", 1, DefaultSearchConfig, exact, true);
    assert r.index[0].command == r.index[1].command;
  }

  // ---------------------------------------------------------------------
  // Home Assistant entities

  datatype Attributes = Attributes(friendlyName: Option<string>)

  /** An element of Home Assistant's `/api/states`; `attributes` is None when absent. */
  datatype Entity = Entity(entityId: string, attributes: Option<Attributes>)

  /** The entity domains turned into commands. */
  const EntityTypes: seq<string> := ["cover.", "fan.", "light.", "switch."]

  const HomeAssistant: string := "Home Assistant"

  /** Why `add_ha_entities` raises: the configured endpoint is not Home
      Assistant, or a tracked entity has no attributes (`attr.get` on None). */
  datatype EntitiesError = EndpointRequired | MissingAttributes(entityId: string)

  /** The entity belongs to one of the tracked domains. */
  predicate Tracked(e: Entity) {
    exists t :: t in EntityTypes && StartsWith(e.entityId, t)
  }

  /** The lower-cased friendly name the entity contributes, when it contributes one. */
  function DeviceName(e: Entity): Option<string> {
    if Tracked(e) && e.attributes.Some? && e.attributes.value.friendlyName.Some?
    then Some(Lower(e.attributes.value.friendlyName.value))
    else None
  }

  /** `d` is the device name of some entity of the list. */
  ghost predicate IsDeviceName(entities: seq<Entity>, d: string) {
    exists k :: 0 <= k < |entities| && DeviceName(entities[k]) == Some(d)
  }

  /** Some tracked entity lacks its attributes. */
  ghost predicate Malformed(entities: seq<Entity>) {
    exists k :: 0 <= k < |entities| && Tracked(entities[k]) && entities[k].attributes.None?
  }

  /** The name entity `e` contributes when matched against domain prefix `t`. */
  function NameUnder(e: Entity, t: string): Option<string> {
    if StartsWith(e.entityId, t) && e.attributes.Some? && e.attributes.value.friendlyName.Some?
    then Some(Lower(e.attributes.value.friendlyName.value))
    else None
  }

  /** The names a list of entities contributes under prefix `t`. */
  ghost function NamesUnder(es: seq<Entity>, t: string): set<string>
    decreases |es|
  {
    if es == [] then {}
    else
      NamesUnder(es[..|es| - 1], t) +
        (match NameUnder(es[|es| - 1], t) case Some(d) => {d} case None => {})
  }

  /** The names a list of entities contributes under any prefix of `ts`. */
  ghost function NamesUnderAll(es: seq<Entity>, ts: seq<string>): set<string>
    decreases |ts|
  {
    if ts == [] then {} else NamesUnderAll(es, ts[..|ts| - 1]) + NamesUnder(es, ts[|ts| - 1])
  }

  lemma {:induction false} NamesUnderIff(es: seq<Entity>, t: string, d: string)
    ensures d in NamesUnder(es, t) <==> exists k :: 0 <= k < |es| && NameUnder(es[k], t) == Some(d)
  {
    if es != [] {
      var init := es[..|es| - 1];
      NamesUnderIff(init, t, d);
      if exists k :: 0 <= k < |init| && NameUnder(init[k], t) == Some(d) {
        var k :| 0 <= k < |init| && NameUnder(init[k], t) == Some(d);
        assert es[k] == init[k];
      }
      if exists k :: 0 <= k < |es| && NameUnder(es[k], t) == Some(d) {
        var k :| 0 <= k < |es| && NameUnder(es[k], t) == Some(d);
        if k < |init| { assert init[k] == es[k]; }
      }
    }
  }

  lemma {:induction false} NamesUnderAllIff(es: seq<Entity>, ts: seq<string>, d: string)
    ensures d in NamesUnderAll(es, ts) <==> exists j :: 0 <= j < |ts| && d in NamesUnder(es, ts[j])
  {
    if ts != [] {
      var init := ts[..|ts| - 1];
      NamesUnderAllIff(es, init, d);
      if d in NamesUnderAll(es, init) {
        var j :| 0 <= j < |init| && d in NamesUnder(es, init[j]);
        assert ts[j] == init[j];
      }
      if exists j :: 0 <= j < |ts| && d in NamesUnder(es, ts[j]) {
        var j :| 0 <= j < |ts| && d in NamesUnder(es, ts[j]);
        if j < |init| {
          assert init[j] == ts[j];
        }
      }
    }
  }

  lemma TrackedByIndex(e: Entity)
    ensures Tracked(e) <==> exists t :: 0 <= t < |EntityTypes| && StartsWith(e.entityId, EntityTypes[t])
  {
    if Tracked(e) {
      var p :| p in EntityTypes && StartsWith(e.entityId, p);
      var t :| 0 <= t < |EntityTypes| && EntityTypes[t] == p;
    }
  }

  /** The names collected over all tracked domains are exactly the device names. */
  lemma CollectedAreDeviceNames(entities: seq<Entity>, d: string)
    ensures d in NamesUnderAll(entities, EntityTypes) <==> IsDeviceName(entities, d)
  {
    NamesUnderAllIff(entities, EntityTypes, d);
    if d in NamesUnderAll(entities, EntityTypes) {
      var j :| 0 <= j < |EntityTypes| && d in NamesUnder(entities, EntityTypes[j]);
      NamesUnderIff(entities, EntityTypes[j], d);
      var k :| 0 <= k < |entities| && NameUnder(entities[k], EntityTypes[j]) == Some(d);
      TrackedByIndex(entities[k]);
      assert DeviceName(entities[k]) == Some(d);
    }
    if IsDeviceName(entities, d) {
      var k :| 0 <= k < |entities| && DeviceName(entities[k]) == Some(d);
      TrackedByIndex(entities[k]);
      var j :| 0 <= j < |EntityTypes| && StartsWith(entities[k].entityId, EntityTypes[j]);
      assert NameUnder(entities[k], EntityTypes[j]) == Some(d);
      NamesUnderIff(entities, EntityTypes[j], d);
    }
  }

  /** One pass of the collection loop of `add_ha_entities` over the entities,
      for one domain prefix: the names found are added to `devices`; an
      entity of the domain without attributes raises. */
  method CollectUnder(entities: seq<Entity>, prefix: string, devices: seq<string>)
    returns (r: Result<seq<string>, EntitiesError>)
    requires forall d :: d in devices ==> Lower(d) == d
    ensures r.Ok? <==> forall k :: 0 <= k < |entities| && StartsWith(entities[k].entityId, prefix) ==>
                                    entities[k].attributes.Some?
    ensures r.Err? ==> r.error.MissingAttributes?
    ensures r.Err? && r.error.MissingAttributes? ==>
              exists k :: 0 <= k < |entities| && StartsWith(entities[k].entityId, prefix) &&
                          entities[k].attributes.None? && entities[k].entityId == r.error.entityId
    ensures r.Ok? ==> forall d :: d in r.value ==> Lower(d) == d
    ensures r.Ok? ==> forall d :: d in r.value <==> d in devices || d in NamesUnder(entities, prefix)
  {
    var found := devices;
    for k := 0 to |entities|
      invariant forall d :: d in found ==> Lower(d) == d
      invariant forall d :: d in found <==> d in devices || d in NamesUnder(entities[..k], prefix)
      invariant forall k' :: 0 <= k' < k && StartsWith(entities[k'].entityId, prefix) ==> entities[k'].attributes.Some?
    {
      assert entities[..k + 1][..k] == entities[..k];
      assert entities[..k + 1][k] == entities[k];
      var entity := entities[k];
      if StartsWith(entity.entityId, prefix) {
        if entity.attributes.None? {
          return Err(MissingAttributes(entity.entityId));
        }
        var friendlyName := entity.attributes.value.friendlyName;
        if friendlyName.None? {
          continue;
        }
        LowerIdempotent(friendlyName.value);
        if friendlyName.value !in found {
          found := found + [Lower(friendlyName.value)];
        }
      }
    }
    assert entities[..|entities|] == entities;
    return Ok(found);
  }

  /** The device collection loop of `add_ha_entities` (wac.py:297-324): the
      lower-cased friendly names of the tracked entities, as a list that may
      hold repeats. */
  method HaDevices(commandEndpoint: string, entities: seq<Entity>) returns (r: Result<seq<string>, EntitiesError>)
    ensures commandEndpoint != HomeAssistant ==> r == Err(EndpointRequired)
    ensures commandEndpoint == HomeAssistant ==> (r.Err? <==> Malformed(entities))
    ensures r.Err? && r.error.MissingAttributes? ==>
              exists k :: 0 <= k < |entities| && Tracked(entities[k]) && entities[k].attributes.None? &&
                          entities[k].entityId == r.error.entityId
    ensures r.Ok? ==> forall d :: d in r.value <==> IsDeviceName(entities, d)
  {
    if commandEndpoint != HomeAssistant {
      return Err(EndpointRequired);
    }
    var devices: seq<string> := [];
    for t := 0 to |EntityTypes|
      invariant forall d :: d in devices ==> Lower(d) == d
      invariant forall d :: d in devices <==> d in NamesUnderAll(entities, EntityTypes[..t])
      invariant forall t', k :: 0 <= t' < t && 0 <= k < |entities| && StartsWith(entities[k].entityId, EntityTypes[t']) ==>
                  entities[k].attributes.Some?
    {
      var step := CollectUnder(entities, EntityTypes[t], devices);
      if step.Err? {
        assert EntityTypes[t] in EntityTypes;
        return step;
      }
      devices := step.value;
      assert EntityTypes[..t + 1][..t] == EntityTypes[..t];
    }
    assert EntityTypes[..|EntityTypes|] == EntityTypes;
    forall k | 0 <= k < |entities| && Tracked(entities[k]) ensures entities[k].attributes.Some? {
      TrackedByIndex(entities[k]);
    }
    forall d ensures d in devices <==> IsDeviceName(entities, d) {
      CollectedAreDeviceNames(entities, d);
    }
    return Ok(devices);
  }

  /** One `wac_add(command, rank=…, source=…)` call. */
  datatype AddCall = AddCall(command: string, rank: real, source: string)

  /** The calls made for the devices, in order: "turn on X" then "turn off X". */
  function DeviceCalls(devices: seq<string>): (calls: seq<AddCall>)
    ensures |calls| == 2 * |devices|
    ensures forall i :: 0 <= i < |devices| ==>
              calls[2 * i] == AddCall("turn on " + devices[i], 0.5, "ha_entities") &&
              calls[2 * i + 1] == AddCall("turn off " + devices[i], 0.5, "ha_entities")
  {
    if devices == [] then []
    else
      var last := devices[|devices| - 1];
      DeviceCalls(devices[..|devices| - 1]) +
        [AddCall("turn on " + last, 0.5, "ha_entities"), AddCall("turn off " + last, 0.5, "ha_entities")]
  }

  /** Typesense as seen by a run of `wac_add` calls: the answer to the
      exact-match query for a command against the current collection, and
      whether creating a document for it succeeds. */
  datatype Backend = Backend(
    exact: (seq<Document>, string) -> SearchResponse,
    create: (seq<Document>, string) -> bool)

  /** The collection after one `wac_add` call. */
  function Apply(index: seq<Document>, call: AddCall, cfg: SearchConfig, backend: Backend, timestamp: int): (r: seq<Document>)
    ensures |index| <= |r| <= |index| + 1 && r[..|index|] == index
    ensures |r| == |index| + 1 ==> r[|index|] == Document(call.command, call.rank, 1.0, call.source, timestamp)
  {
    WacAdd(index, call.command, call.rank, call.source, timestamp, cfg,
           backend.exact(index, call.command), backend.create(index, call.command)).index
  }

  /** The collection after a run of `wac_add` calls; no document is changed or removed. */
  function ApplyAdds(index: seq<Document>, calls: seq<AddCall>, cfg: SearchConfig, backend: Backend, timestamp: int): (r: seq<Document>)
    ensures |index| <= |r| <= |index| + |calls| && r[..|index|] == index
    decreases |calls|
  {
    if calls == [] then index
    else
      var before := ApplyAdds(index, calls[..|calls| - 1], cfg, backend, timestamp);
      Apply(before, calls[|calls| - 1], cfg, backend, timestamp)
  }

  /** Typesense answers every exact-match query faithfully and never fails it. */
  ghost predicate FaithfulExact(backend: Backend) {
    forall ix, c :: backend.exact(ix, c).Hits? && Reflects(backend.exact(ix, c), ix, c)
  }

  /** Against a faithful index whose inserts succeed, a run of non-empty
      commands leaves each of them stored, and never twice. */
  lemma {:induction false} ApplyAddsStoresOnce(index: seq<Document>, calls: seq<AddCall>, cfg: SearchConfig, backend: Backend, timestamp: int)
    requires FaithfulExact(backend) && (forall ix, c :: backend.create(ix, c))
    requires Distinct(index)
    requires forall i :: 0 <= i < |calls| ==> calls[i].command != ""
    ensures Distinct(ApplyAdds(index, calls, cfg, backend, timestamp))
    ensures forall i :: 0 <= i < |calls| ==> Stored(ApplyAdds(index, calls, cfg, backend, timestamp), calls[i].command)
  {
    if calls != [] {
      var init := calls[..|calls| - 1];
      var call := calls[|calls| - 1];
      ApplyAddsStoresOnce(index, init, cfg, backend, timestamp);
      var before := ApplyAdds(index, init, cfg, backend, timestamp);
      var exact := backend.exact(before, call.command);
      var r := WacAdd(before, call.command, call.rank, call.source, timestamp, cfg, exact, backend.create(before, call.command));
      AddKeepsDistinct(before, call.command, call.rank, call.source, timestamp, cfg, exact, backend.create(before, call.command));
      if !Stored(before, call.command) {
        LearnFresh(before, call.command, call.rank, call.source, timestamp, cfg, exact);
        assert r.index[|before|].command == call.command;
      }
      forall i | 0 <= i < |calls| ensures Stored(r.index, calls[i].command) {
        if i < |calls| - 1 {
          assert init[i] == calls[i];
          var j :| 0 <= j < |before| && before[j].command == calls[i].command;
          assert r.index[j] == before[j];
        } else if Stored(before, call.command) {
          var j :| 0 <= j < |before| && before[j].command == call.command;
          assert r.index[j] == before[j];
        }
      }
    }
  }

  /** Both commands of every device end up in the index, each once. */
  lemma DeviceCommandsStored(index: seq<Document>, devices: seq<string>, cfg: SearchConfig, backend: Backend, timestamp: int)
    requires FaithfulExact(backend) && (forall ix, c :: backend.create(ix, c))
    requires Distinct(index)
    ensures Distinct(ApplyAdds(index, DeviceCalls(devices), cfg, backend, timestamp))
    ensures forall i :: 0 <= i < |devices| ==>
              Stored(ApplyAdds(index, DeviceCalls(devices), cfg, backend, timestamp), "turn on " + devices[i]) &&
              Stored(ApplyAdds(index, DeviceCalls(devices), cfg, backend, timestamp), "turn off " + devices[i])
  {
    var calls := DeviceCalls(devices);
    forall i | 0 <= i < |calls| ensures calls[i].command != "" {
      var j := i / 2;
      assert j < |devices|;
      if i == 2 * j {
        assert calls[i].command == "turn on " + devices[j];
      } else {
        assert i == 2 * j + 1;
        assert calls[i].command == "turn off " + devices[j];
      }
      assert |calls[i].command| >= 8;
    }
    ApplyAddsStoresOnce(index, calls, cfg, backend, timestamp);
    forall i | 0 <= i < |devices|
      ensures Stored(ApplyAdds(index, calls, cfg, backend, timestamp), "turn on " + devices[i])
      ensures Stored(ApplyAdds(index, calls, cfg, backend, timestamp), "turn off " + devices[i])
    {
      assert calls[2 * i].command == "turn on " + devices[i];
      assert calls[2 * i + 1].command == "turn off " + devices[i];
    }
  }

  lemma DeviceCallsSnoc(devices: seq<string>, device: string)
    ensures DeviceCalls(devices + [device]) ==
              DeviceCalls(devices) + [AddCall("turn on " + device, 0.5, "ha_entities"),
                                      AddCall("turn off " + device, 0.5, "ha_entities")]
  {
    assert (devices + [device])[..|devices|] == devices;
  }

  lemma ApplyAddsSnoc2(index: seq<Document>, calls: seq<AddCall>, a: AddCall, b: AddCall,
                       cfg: SearchConfig, backend: Backend, timestamp: int)
    ensures ApplyAdds(index, calls + [a, b], cfg, backend, timestamp) ==
              Apply(Apply(ApplyAdds(index, calls, cfg, backend, timestamp), a, cfg, backend, timestamp), b, cfg, backend, timestamp)
  {
    assert calls + [a, b] == (calls + [a]) + [b];
    ApplyAddsSnoc(index, calls + [a], b, cfg, backend, timestamp);
    ApplyAddsSnoc(index, calls, a, cfg, backend, timestamp);
  }

  lemma ApplyAddsSnoc(index: seq<Document>, calls: seq<AddCall>, a: AddCall,
                      cfg: SearchConfig, backend: Backend, timestamp: int)
    ensures ApplyAdds(index, calls + [a], cfg, backend, timestamp) ==
              Apply(ApplyAdds(index, calls, cfg, backend, timestamp), a, cfg, backend, timestamp)
  {
    assert (calls + [a])[..|calls|] == calls;
  }

  /** The two `wac_add` calls for one more device extend the run. */
  lemma AddDeviceStep(index: seq<Document>, devices: seq<string>, device: string,
                      cfg: SearchConfig, backend: Backend, timestamp: int)
    ensures ApplyAdds(index, DeviceCalls(devices + [device]), cfg, backend, timestamp) ==
              Apply(Apply(ApplyAdds(index, DeviceCalls(devices), cfg, backend, timestamp),
                          AddCall("turn on " + device, 0.5, "ha_entities"), cfg, backend, timestamp),
                    AddCall("turn off " + device, 0.5, "ha_entities"), cfg, backend, timestamp)
  {
    DeviceCallsSnoc(devices, device);
    ApplyAddsSnoc2(index, DeviceCalls(devices), AddCall("turn on " + device, 0.5, "ha_entities"),
                   AddCall("turn off " + device, 0.5, "ha_entities"), cfg, backend, timestamp);
  }

  /** No device appears twice. */
  ghost predicate Unique(devices: seq<string>) {
    forall i, j :: 0 <= i < j < |devices| ==> devices[i] != devices[j]
  }

  /** `[*set(devices)]`: the distinct elements of a list, in the arbitrary
      order in which a Python set yields them. */
  method SetToList(names: seq<string>) returns (unique: seq<string>)
    ensures Unique(unique)
    ensures forall d :: d in unique <==> d in names
  {
    var left := set d | d in names;
    unique := [];
    while left != {}
      invariant Unique(unique)
      invariant forall d :: d in unique ==> d !in left
      invariant forall d :: d in unique || d in left <==> d in names
      decreases |left|
    {
      var d :| d in left;
      unique := unique + [d];
      left := left - {d};
    }
  }

  /** `add_ha_entities`: collect the device names, make them unique (in the
      arbitrary order of a Python set) and `wac_add` "turn on X" and
      "turn off X" for each. The states request is the `entities` oracle. */
  method AddHaEntities(commandEndpoint: string, entities: seq<Entity>, index: seq<Document>,
                       cfg: SearchConfig, backend: Backend, timestamp: int)
    returns (r: Result<seq<Document>, EntitiesError>)
    ensures commandEndpoint != HomeAssistant ==> r == Err(EndpointRequired)
    ensures commandEndpoint == HomeAssistant ==> (r.Err? <==> Malformed(entities))
    ensures r.Ok? ==> exists devices ::
              Unique(devices) && (forall d :: d in devices <==> IsDeviceName(entities, d)) &&
              r.value == ApplyAdds(index, DeviceCalls(devices), cfg, backend, timestamp)
  {
    var collected := HaDevices(commandEndpoint, entities);
    if collected.Err? {
      return Err(collected.error);
    }
    var devices := SetToList(collected.value);
    var ix := index;
    for i := 0 to |devices|
      invariant ix == ApplyAdds(index, DeviceCalls(devices[..i]), cfg, backend, timestamp)
    {
      var device := devices[i];
      var on := AddCall("turn on " + device, 0.5, "ha_entities");
      var off := AddCall("turn off " + device, 0.5, "ha_entities");
      ix := Apply(ix, on, cfg, backend, timestamp);
      ix := Apply(ix, off, cfg, backend, timestamp);
      AddDeviceStep(index, devices[..i], device, cfg, backend, timestamp);
      assert devices[..i + 1] == devices[..i] + [device];
    }
    assert devices[..|devices|] == devices;
    return Ok(ix);
  }
}
