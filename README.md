# Willow Application Server: command resolution

A Dafny model of how the Willow Application Server (WAS) resolves a spoken
command. A Willow device sends in its recognised text. The Home Assistant
WebSocket endpoint passes it on to Home Assistant's intent pipeline and keeps
it pending in `connmap` under a millisecond id. When the `intent-end` event
arrives, the endpoint does one of the following:

- answers the device;
- resubmits a corrected command;
- waits silently for the final attempt.

It corrects commands in this order:

1. an area-aware rewrite ("… in the <location>");
2. the Willow Auto Correct (WAC) search over a Typesense index of known commands;
3. a large-language-model reply;
4. a forward to Home Assistant's chat agent.

The model also covers:

- the WAC decision rules: the query, the exact, token, semantic and hybrid thresholds, and the deduplicating `wac_add`;
- the "turn on / turn off" commands WAC derives from Home Assistant's entities;
- the REST endpoint's helpers;
- the clean-up applied to language-model replies.

Files, one module each:

| file | module | models | form |
|---|---|---|---|
| `wrappers.dfy` | `Wrappers` | `Option`, `Result` | values |
| `text.dfy` | `Text` | the Python string operations used: `lower`, `in`, `startswith`, one-character `replace`, `lstrip` | functions and lemmas |
| `endpoint.dfy` | `Endpoint` | the command result and the URL scheme | functions |
| `ha_rest.dfy` | `HaRest` | `app/internal/command_endpoints/ha_rest.py` | functions |
| `openai.dfy` | `OpenAi` | `app/internal/openai.py` and the copy of `openai_chat` in `wac.py` | functions |
| `wac.dfy` | `Wac` | `app/internal/wac.py` | functions for the decisions; methods for the loops |
| `ha_ws.dfy` | `HaWs` | `app/internal/command_endpoints/ha_ws.py` | a class with the `connmap` field, and pure functions that specify its methods |

The external services and the clock are parameters:

- Typesense's answer to a query is a `SearchResponse` (`QueryFailed` when the call raises).
- The command collection is a sequence of `Document`s. `documents.create` succeeds or not, as a `bool`.
- The completion call is `complete(model, text)`, which is None when it raises.
- Home Assistant's `/api/states` is a list of `Entity`.
- `time.time() * 1000` is `nowMs`, and the `wac_add` timestamp is `timestamp`.
- Messages sent on the Home Assistant socket and to Willow clients are appended to the `outbox` and `replies` fields. They are never sent anywhere.

An exception a handler raises becomes an `Err` or `Raise` value. The state is
left as it was at that point.

### Behaviour worth noting

- `cb_msg` with an id missing from `connmap`, or an entry without `hostname` or `text`, raises `KeyError` out to the reconnect loop; nothing is answered and `connmap` is left as it was.
- When WAC is enabled and the stored entry is final, the handler returns without answering the device, and the entry stays in `connmap`.
- An area rewrite for a device with no configured location produces "… in the None". Python formats `dict.get`'s None that way.
- The area rewrite has no bound and always resubmits a non-final attempt. A rewritten command that fails again is rewritten again unless its new text holds an excluded phrase (`HaWs.AreaRewriteRepeats`, `HaWs.UnlocatedRewriteMatchesAgain`). A WAC-corrected, final command that gets rewritten loses its final flag and can be corrected again.
- `send` stores a copy of the request, then sends it as an `assist_pipeline/run` message that runs the `intent` stage only, without the request's `language`.
- `wac_add` checks for duplicates with the exact-match search alone, and the exact-match shortcut (wac.py:411-415) needs a non-empty top-hit command. The empty command therefore falls through to threshold scoring like a fuzzy hit: with a score below the threshold (a fusion score of 0.5 against 0.85 in `Wac.EmptyCommandDuplicates`) it is stored again, while a score that meets the threshold still refuses it.
- `settings.openai_api_key` defaults to `"undefined"`, never None. So the branch of `cb_msg` that forwards to Home Assistant's chat cannot be reached under the shipped settings (`HaWs.DefaultKeyNeverForwards`).
- `openai.py` builds a client whenever a key is set, whereas the copy in `wac.py` builds one only when the key is not `"undefined"` (`OpenAi.WacChatConfig`).

## Model

| member | source | states |
|---|---|---|
| Endpoint.SchemeRoundTrip | app/internal/command_endpoints/ha_rest.py:20-25 | the scheme at the head of a built URL gives back both the TLS and the WebSocket flag |
| HaRest.ConstructUrl | app/internal/command_endpoints/ha_rest.py:20-27 | the URL's scheme reads back as `(tls, ws)`: `wss`/`ws` for WebSocket, `https`/`http` otherwise, with TLS selecting the secure one; the URL is exactly scheme, host, ":", port and `/api/conversation/process` |
| HaRest.AuthHeader | app/internal/command_endpoints/ha_rest.py:18 | the header is "Bearer " followed by the token and nothing else |
| HaRest.ParseResponse | app/internal/command_endpoints/ha_rest.py:29-47 | a missing `response_type` raises; `ok` holds iff the type is `action_done` or `query_answer`; the speech replaces the default "Error" only when present and non-empty |
| HaRest.SendPayload | app/internal/command_endpoints/ha_rest.py:49-51 | the payload is the request restricted to `text` and `language`; a request lacking either raises |
| OpenAi.ChatModel | app/internal/openai.py:11-32 | a client exists exactly when the API key is set; when it does and the endpoint lists exactly one model, that model overrides the requested one; otherwise the requested model is used |
| OpenAi.Sanitize | app/internal/openai.py:51 | the cleaned reply holds no line feed or carriage return and does not start with whitespace; it is the text with line feeds replaced and carriage returns removed, minus a leading run of whitespace and nothing else |
| OpenAi.SanitizeJoinsLines | app/internal/openai.py:51 | two clean lines joined by a line feed come back as both lines, in order, joined by a space |
| Text.RemoveCharSingle | app/internal/openai.py:51 | removing `c` from one character drops it exactly when it is `c` |
| Text.RemoveCharConcat | app/internal/openai.py:51 | removal from a concatenation is the concatenation of the removals, so the order of the kept characters is unchanged |
| OpenAi.SanitizeKeepsCleanText | app/internal/openai.py:51 | text that is already clean is left unchanged |
| OpenAi.SanitizeIdempotent | app/internal/openai.py:51 | cleaning twice is cleaning once |
| OpenAi.OpenAIChat | app/internal/openai.py:11-55 | `command_not_found` when there is no client or the completion fails; otherwise the cleaned completion for the chosen model; so the reply is either the default or clean text |
| OpenAi.ForcedModelOverrides | app/internal/openai.py:11-30 | with a single endpoint model, the caller's model makes no difference to the reply |
| OpenAi.WacChatConfig | app/internal/wac.py:122-133 | the `wac.py` copy has a client iff the key is set and is not "undefined"; the other settings are unchanged |
| OpenAi.WacChatDefaultKeyNotFound | app/internal/wac.py:138-170 | under the default key the `wac.py` copy answers `command_not_found` whatever the completion |
| Wac.SearchParameters | app/internal/wac.py:352-386 | the fixed query keys; `q` is the command; `query_by` per mode; `num_typos` is the distance; `per_page` and `limit_hits` are the result count; `filter_by` is present iff exact, and is then `command:=<command>` |
| Wac.SearchOutcome | app/internal/wac.py:340-454 | no usable top hit gives `(False, command)`; otherwise the top hit's command is returned even on a miss; exact match with a non-empty command succeeds; otherwise success iff the mode's threshold is met, boundary included: vector distance at most its threshold for `on`, fusion score at least its threshold for `hybrid`, matched tokens at least the token threshold for any other mode; a missing mode score fails |
| Wac.WacSearch | app/internal/wac.py:340-454 | the step-by-step reassignment of `success` and `wac_command` yields exactly `SearchOutcome`; the query built has `q` the command and `filter_by` iff exact |
| Wac.WacAdd | app/internal/wac.py:459-488 | existing documents are kept; `learned` iff exactly one document was appended, `{command, rank, 1.0, source, timestamp}`; a successful exact search or a failed insert learns nothing |
| Wac.LearnFresh | app/internal/wac.py:464-484 | a command the collection lacks is learned when the insert succeeds |
| Wac.RefuseStored | app/internal/wac.py:464-468 | a non-empty stored command is refused and the collection is unchanged |
| Wac.LearnTwice | app/internal/wac.py:459-488 | adding the same non-empty command twice returns true, then false |
| Wac.AddKeepsDistinct | app/internal/wac.py:459-488 | a collection without duplicate commands keeps none after a `wac_add` of a non-empty command |
| Wac.EmptyCommandDuplicates | app/internal/wac.py:411-415 | the empty command is scored like a fuzzy hit, so a second copy of it can be stored |
| Wac.CollectedAreDeviceNames | app/internal/wac.py:312-324 | the names gathered over the four domain prefixes are exactly the lower-cased friendly names of the tracked entities |
| Wac.CollectUnder | app/internal/wac.py:313-324 | one pass over the entities for one domain prefix: raises iff some entity of that domain has no attributes; otherwise adds exactly that domain's lower-cased friendly names |
| Wac.HaDevices | app/internal/wac.py:297-324 | raises unless the endpoint is "Home Assistant"; raises iff some tracked entity has no attributes, naming one; otherwise the list holds exactly the device names |
| Wac.SetToList | app/internal/wac.py:327 | `[*set(devices)]`: a list without repeats holding exactly the names of the input |
| Wac.Apply | app/internal/wac.py:329-334 | one `wac_add` keeps the collection and appends at most one document, the call's command with its rank, accuracy 1.0, its source and the timestamp |
| Wac.ApplyAdds | app/internal/wac.py:329-334 | a run of `wac_add`s keeps the collection as a prefix and adds at most one document per call |
| Wac.DeviceCalls | app/internal/wac.py:329-334 | two calls per device, "turn on X" then "turn off X", both rank 0.5 and source `ha_entities` |
| Wac.ApplyAddsStoresOnce | app/internal/wac.py:329-334 | against a faithful exact search with working inserts, every non-empty command of a run of `wac_add`s ends up stored, never twice |
| Wac.DeviceCommandsStored | app/internal/wac.py:329-334 | both commands of every device end up in the index, each once |
| Wac.AddHaEntities | app/internal/wac.py:293-334 | raises as `HaDevices` does; otherwise the collection is the run of `wac_add`s over some duplicate-free ordering of exactly the device names |
| Text.Contains | app/internal/command_endpoints/ha_ws.py:55 | Python's `p in s`: true iff `p` occurs in `s` at some index |
| HaWs.CheckCommand | app/internal/command_endpoints/ha_ws.py:53-55 | true iff the lower-cased command contains some include phrase and no exclude phrase |
| HaWs.CheckCommandIgnoresCase | app/internal/command_endpoints/ha_ws.py:53-55 | lower-casing the command beforehand changes nothing |
| HaWs.UpperCaseIncludesNeverMatch | app/internal/command_endpoints/ha_ws.py:53-55 | the phrases are not lower-cased, so include phrases that each hold a capital never match |
| HaWs.AreaCommand | app/internal/command_endpoints/ha_ws.py:147-148 | the rewrite keeps the command as its prefix and appends " in the " and the device's location, which is the text "None" for a device with none |
| HaWs.ExcludedLocationBlocksRewrite | app/internal/command_endpoints/ha_ws.py:146-148 | when the location names an excluded area, the rewritten command is not rewritten again |
| HaWs.RewrittenCommandMatchesAgain | app/internal/command_endpoints/ha_ws.py:53-55 | for a command that asked for the rewrite, its rewrite asks for it again exactly when the rewritten text holds no excluded phrase |
| HaWs.UnlocatedRewriteMatchesAgain | app/internal/command_endpoints/ha_ws.py:146-148 | "turn on lamp in the None" still asks for the rewrite under the include phrase "turn on" and the area "kitchen" |
| HaWs.PhraseSet | app/internal/command_endpoints/ha_ws.py:29-52 | the phrase set holds exactly the loaded list's phrases, none when the list was invalid |
| HaWs.InvalidPhraseListRaises | app/internal/command_endpoints/ha_ws.py:29-49 | the as-written load of a setting that is not valid JSON raises `NameError` instead of falling back |
| HaWs.InvalidIncludeListNeverRewrites | app/internal/command_endpoints/ha_ws.py:29-55 | with the intended fallback, an invalid include list disables the area rewrite |
| HaWs.Registered | app/internal/command_endpoints/ha_ws.py:198-203 | first writer wins: an existing id keeps its entry; otherwise exactly that one entry is added; no other key changes |
| HaWs.Envelope | app/internal/command_endpoints/ha_ws.py:205-214 | stages `intent`, type `assist_pipeline/run`, id the map key, and the request without `language` with every other key kept |
| HaWs.StoredCopyKeepsLanguage | app/internal/command_endpoints/ha_ws.py:198-206 | the copy stored for a new id still has the language the envelope drops |
| HaWs.OnIntentEnd | app/internal/command_endpoints/ha_ws.py:129-183 | only the success types answer `ok`, with autolearning iff WAC is on and the learned suffix iff learned and feedback; other errors and other types answer the plain speech; a missing code raises; the correction chain runs in its order: area rewrite (not final), the final guard (silent), WAC correction (final, with the matched text), chat reply with a key; without a key, the forward `<COMMAND_FINAL_HA_FORWARD>-<hostname> <text>` iff `FORWARD_TO_CHAT`, else the plain speech |
| HaWs.Resolve | app/internal/command_endpoints/ha_ws.py:116-190 | `auth_required` and only it authenticates; an event without event type, an unknown id, a missing id, a missing `hostname`/`text` or a missing `response_type` raises; the message is ignored exactly when it has no type, a type other than `event`/`auth_required`, or an event type other than `intent-end`; every answer, resubmission or wait concerns a known, readable pending id |
| HaWs.Effect | app/internal/command_endpoints/ha_ws.py:150-183 | an answer appends one reply to the entry's client and removes the id; a resubmission registers the rewritten request under the clock's id (an entry already there is kept), sends its envelope and removes the old id; authentication sends the token; everything else changes nothing |
| HaWs.HomeAssistantWebSocketEndpoint.constructor | app/internal/command_endpoints/ha_ws.py:67-73 | stores the settings, builds the WebSocket URL and starts with nothing pending or sent |
| HaWs.HomeAssistantWebSocketEndpoint.ConstructUrl | app/internal/command_endpoints/ha_ws.py:95-102 | the scheme reads back as `(tls, ws)` and is followed by exactly `host:port` |
| HaWs.HomeAssistantWebSocketEndpoint.Send | app/internal/command_endpoints/ha_ws.py:195-217 | `connmap` becomes `Registered(old, nowMs, entry)`; exactly the `Envelope` is appended to the outbox; nothing is sent to the client |
| HaWs.HomeAssistantWebSocketEndpoint.CbMsg | app/internal/command_endpoints/ha_ws.py:116-190 | the handler's step-by-step run takes exactly the action `Resolve` chooses and leaves exactly the state `Effect` describes |
| HaWs.CorrectionIsFinal | app/internal/command_endpoints/ha_ws.py:157-166 | a WAC-corrected command that fails again (and is not area-rewritten) is not corrected a second time: the handler waits |
| HaWs.AnswerRetiresId | app/internal/command_endpoints/ha_ws.py:180-183 | an answer sends exactly one reply, and a second event for the same id raises |
| HaWs.AreaRewriteRepeats | app/internal/command_endpoints/ha_ws.py:146-154 | an area-rewritten command is stored as non-final, and when it fails again with no excluded phrase in its text it is rewritten once more |
| HaWs.ResubmitRetiresId | app/internal/command_endpoints/ha_ws.py:150-152 | a resubmission removes the old id and answers nothing; a clock id equal to the old one drops the request entirely |
| HaWs.DefaultKeyNeverForwards | app/internal/command_endpoints/ha_ws.py:169-177 | with the default key, every resubmission is an area rewrite or a WAC correction |
| HaWs.MisheardCommandCorrected | app/internal/command_endpoints/ha_ws.py:157-166 | "tern on ktchen light" with a four-token hit is resubmitted as the final "turn on kitchen light" under the clock's id, and its next failure is waited out |

## Left out

- Network and process management: the connection and reconnection loop, `is_supported`, `stop`, the Typesense server start and initialisation, the routers and logging. Each is I/O around the modelled decisions.
- Asynchronous scheduling: `asyncio.ensure_future` is modelled as an immediate append to `outbox` or `replies`. The JSON is serialised when the call is made, so the content is the same; the order of actual delivery is not modelled.
- `connmap` is a class attribute shared by every endpoint object. The model gives each object its own map.
- The `haws` socket being None before the first connection is not modelled.
- `wac_search` with `raw=True`, which returns the raw Typesense result for the management API, is not modelled.
- JSON parsing is modelled only by its outcome. A message is represented by the fields the handler reads: a JSON `null`, a non-integer id or a non-string value is not represented, and `entity['entity_id']` is always present.
- Unicode case folding: `Text.Lower` folds ASCII letters only, where Python's `str.lower` folds every cased character.
- HaWs.HomeAssistantWebSocketEndpoint.CbMsg: whether `wac_add` learned is an input (`Services.learned`). The call's effect on the collection is modelled separately by `Wac.WacAdd`.
- The `self.haws.send` in `auth_required` is an append of the token message to `outbox`.
- `CommandEndpointResult` itself is not part of this model. Its speech default "Error" is the one the comment at ha_ws.py:128 records. Its `ok` default is taken to be false, because both endpoints set `ok = True` only on success (ha_rest.py:43-44, ha_ws.py:131-132).
- OpenAi.OpenAIChat: a completion whose `message.content` is None is not represented; the oracle gives text or fails. In the source, `response` is reassigned to None at openai.py:49, the `.replace` at :51 then raises, the handler at :53 catches it, and :55 returns None, which `cb_msg` sends to the device as its speech.
- Wac.AddHaEntities: every `wac_add` of one run is given the same timestamp, where the source reads the clock at each call.

## Findings

| source | as written | input that shows it | evidently intended | confidence | as-written member | corrected member |
|---|---|---|---|---|---|---|
| app/internal/command_endpoints/ha_ws.py:29-49 | the `except json.JSONDecodeError` fallbacks for `AREA_AWARE_COMMANDS`, `HA_AREAS` and `WILLOW_LOCATIONS` call `self.log.info` at module level, where no `self` exists, so the handler raises `NameError` | `AREA_AWARE_COMMANDS` set to text that is not JSON, e.g. `turn on` | log and fall back to an empty list or dictionary, as the comments and the assignments after the call say | high, not executed | HaWs.InvalidPhraseListRaises | HaWs.InvalidIncludeListNeverRewrites |
