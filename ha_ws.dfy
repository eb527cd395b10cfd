/** `HomeAssistantWebSocketEndpoint` (app/internal/command_endpoints/ha_ws.py):
    the map of pending requests, the run envelope sent to Home Assistant, and
    the choice, on each intent-end event, between answering the Willow
    client, resubmitting a corrected command, and waiting silently.
    The clock, Typesense, `wac_add` and the language model are oracles. */
module HaWs {
  import opened Wrappers
  import opened Text
  import opened Endpoint
  import Wac
  import OpenAi

  // ---------------------------------------------------------------------
  // Area awareness

  /** `check_command`: the lower-cased command contains some include phrase
      and no exclude phrase. The phrases themselves are not lower-cased. */
  function CheckCommand(command: string, includes: set<string>, excludes: set<string>): (b: bool)
    ensures b <==> (exists p :: p in includes && Occurs(Lower(command), p)) &&
                   !(exists p :: p in excludes && Occurs(Lower(command), p))
  {
    var lowered := Lower(command);
    (exists p | p in includes :: Contains(lowered, p)) && !(exists p | p in excludes :: Contains(lowered, p))
  }

  /** Lower-casing the command first changes nothing. */
  lemma CheckCommandIgnoresCase(command: string, includes: set<string>, excludes: set<string>)
    ensures CheckCommand(Lower(command), includes, excludes) == CheckCommand(command, includes, excludes)
  {
    LowerIdempotent(command);
  }

  /** An include list whose every phrase holds an upper-case letter matches nothing. */
  lemma UpperCaseIncludesNeverMatch(command: string, includes: set<string>, excludes: set<string>)
    requires forall p :: p in includes ==> exists k :: 0 <= k < |p| && IsUpper(p[k])
    ensures !CheckCommand(command, includes, excludes)
  {
    forall p | p in includes ensures !Occurs(Lower(command), p) {
      NoUpperInLower(command, p);
    }
  }

  /** The area-aware rewrite appends " in the <location>"; when the location
      names an excluded area the rewritten command is not rewritten again. */
  lemma ExcludedLocationBlocksRewrite(command: string, location: string, includes: set<string>, excludes: set<string>)
    requires exists p :: p in excludes && Occurs(Lower(location), p)
    ensures !CheckCommand(command + " in the " + location, includes, excludes)
  {
    var p :| p in excludes && Occurs(Lower(location), p);
    LowerConcat(command + " in the ", location);
    OccursInSuffix(Lower(command + " in the "), Lower(location), p);
  }

  /** Nothing else stops a second rewrite: a command that was rewritten is
      rewritten again exactly when the rewritten text holds no excluded phrase,
      since it still contains the include phrase that matched. */
  lemma RewrittenCommandMatchesAgain(command: string, location: string, includes: set<string>, excludes: set<string>)
    requires CheckCommand(command, includes, excludes)
    ensures CheckCommand(command + " in the " + location, includes, excludes) <==>
            !(exists p :: p in excludes && Occurs(Lower(command + " in the " + location), p))
  {
    var p :| p in includes && Occurs(Lower(command), p);
    LowerConcat(command, " in the " + location);
    assert command + " in the " + location == command + (" in the " + location);
    OccursInPrefix(Lower(command), Lower(" in the " + location), p);
  }

  /** A setting loaded with `json.loads` at import, as written: the handler
      for text that is not valid JSON logs through `self`, which does not
      exist at module level, so it raises `NameError` instead of falling back.
      `parsed` is None when the text is not valid JSON. */
  function LoadedAsWritten<T>(parsed: Option<T>): (r: Result<T, string>)
    ensures r.Ok? <==> parsed.Some?
    ensures parsed.Some? ==> r.value == parsed.value
    ensures parsed.None? ==> r.error == "NameError"
  {
    match parsed
    case Some(v) => Ok(v)
    case None => Err("NameError")
  }

  /** The same load as evidently intended: invalid text falls back to the
      empty value. */
  function Loaded<T>(parsed: Option<T>, empty: T): (r: T)
    ensures parsed.Some? ==> r == parsed.value
    ensures parsed.None? ==> r == empty
  {
    parsed.GetOr(empty)
  }

  /** The include and exclude phrase sets built from the two loaded lists. */
  function PhraseSet(parsed: Option<seq<string>>): (r: set<string>)
    ensures forall p :: p in r <==> parsed.Some? && p in parsed.value
  {
    set p | p in Loaded(parsed, [])
  }

  /** As written, an invalid phrase list stops the import. */
  lemma InvalidPhraseListRaises()
    ensures LoadedAsWritten<seq<string>>(None) == Err("NameError")
  {
  }

  /** With the intended fallback, an invalid include list disables the area
      rewrite instead. */
  lemma InvalidIncludeListNeverRewrites(command: string, excludes: set<string>)
    ensures !CheckCommand(command, PhraseSet(None), excludes)
  {
    assert PhraseSet(None) == {};
  }

  // ---------------------------------------------------------------------
  // Pending requests and what is sent

  /** A Willow client connection, by an opaque handle. */
  datatype Client = Client(handle: nat)

  /** A request dictionary as Willow sends it. */
  type JsonData = map<string, string>

  /** A `connmap` entry: whether this is the last attempt, the request and its client. */
  datatype Entry = Entry(final: bool, jsondata: JsonData, ws: Client)

  /** The `assist_pipeline/run` request sent to Home Assistant. */
  datatype RunRequest = RunRequest(endStage: string, id: int, input: JsonData, startStage: string, kind: string)

  /** A message sent on the Home Assistant socket. */
  datatype Outgoing = Run(request: RunRequest) | Auth(accessToken: string)

  /** A `CommandEndpointResponse` sent to a Willow client. */
  datatype Reply = Reply(ws: Client, result: CommandResult)

  /** `send`'s map update: an id already present keeps its entry (first writer
      wins); otherwise exactly one entry is added. */
  function Registered(m: map<int, Entry>, id: int, e: Entry): (r: map<int, Entry>)
    ensures r.Keys == m.Keys + {id}
    ensures id in m ==> r[id] == m[id]
    ensures id !in m ==> r[id] == e
    ensures forall k :: k in m && k != id ==> r[k] == m[k]
  {
    if id in m then m else m[id := e]
  }

  /** The envelope `send` builds: intent stage only, the map key as id and the
      request without its language. */
  function Envelope(id: int, jsondata: JsonData): (r: RunRequest)
    ensures r.endStage == "intent" && r.startStage == "intent" && r.kind == "assist_pipeline/run"
    ensures r.id == id
    ensures "language" !in r.input
    ensures forall k :: k != "language" ==> (k in r.input <==> k in jsondata)
    ensures forall k :: k in r.input ==> r.input[k] == jsondata[k]
  {
    RunRequest("intent", id, jsondata - {"language"}, "intent", "assist_pipeline/run")
  }

  /** The stored copy is taken before the language is removed: a new entry
      keeps the language the envelope drops. */
  lemma StoredCopyKeepsLanguage(m: map<int, Entry>, id: int, jsondata: JsonData, ws: Client, final: bool)
    requires id !in m && "language" in jsondata
    ensures "language" in Registered(m, id, Entry(final, jsondata, ws))[id].jsondata
    ensures "language" !in Envelope(id, jsondata).input
  {
  }

  // ---------------------------------------------------------------------
  // Configuration, messages and outcomes

  /** The module-level settings `cb_msg` reads: `wac_enabled`, `FEEDBACK`,
      `COMMAND_LEARNED`, `AREA_AWARENESS`, the include and exclude phrase
      sets, the Willow locations, `FORWARD_TO_CHAT`,
      `COMMAND_FINAL_HA_FORWARD`, the search defaults and the chat settings. */
  datatype WsConfig = WsConfig(
    wacEnabled: bool,
    feedback: bool,
    commandLearned: string,
    areaAwareness: bool,
    includes: set<string>,
    excludes: set<string>,
    locations: map<string, string>,
    forwardToChat: bool,
    finalForward: string,
    search: Wac.SearchConfig,
    chat: OpenAi.ChatConfig)

  /** What the services answer while one message is handled: whether
      `wac_add` learned the command, Typesense's answer to the correction
      search, and the completion oracle. */
  datatype Services = Services(learned: bool, search: Wac.SearchResponse, complete: (string, string) -> Option<string>)

  /** The parts of an intent-end event the handler reads, None when absent. */
  datatype IntentOutput = IntentOutput(responseType: Option<string>, speech: Option<string>, code: Option<string>)

  /** A message from Home Assistant: one with a `type` (and, for events, the
      event type and the id, None when absent) or one without. */
  datatype Inbound =
    | Typed(kind: string, event: Option<string>, id: Option<int>, output: IntentOutput)
    | Untyped

  /** The exception `cb_msg` raises out to the reconnect loop. */
  datatype Fault = MissingEventType | MissingId | UnknownId(id: int) | MissingField(key: string)
                 | MissingResponseType | MissingCode

  /** What `cb_msg` does with one message. */
  datatype Action =
    | Answer(id: int, result: CommandResult, learn: Option<Wac.AddCall>)  // reply, retire the id
    | Resubmit(id: int, jsondata: JsonData, final: bool)                  // send again, retire the id
    | AwaitFinal(id: int)                                                 // return, the entry stays
    | Raise(fault: Fault)
    | Authenticate
    | Ignore

  const SuccessTypes: seq<string> := ["action_done", "query_answer"]
  const CorrectableCodes: seq<string> := ["no_intent_match", "no_valid_targets"]

  /** An event of type intent-end. */
  predicate IntentEnd(msg: Inbound) {
    msg.Typed? && msg.kind == "event" && msg.event == Some("intent-end")
  }

  /** The entry holds the two fields the handler reads unguarded. */
  predicate Readable(e: Entry) {
    "hostname" in e.jsondata && "text" in e.jsondata
  }

  /** An error that enters the correction chain. */
  predicate Correctable(responseType: string, code: Option<string>) {
    responseType == "error" && code.Some? && code.value in CorrectableCodes
  }

  /** The configured location of a Willow device; `"None"`, as Python formats
      a missing `dict.get`, when the device has none. */
  function Location(locations: map<string, string>, hostname: string): (r: string)
    ensures hostname in locations ==> r == locations[hostname]
    ensures hostname !in locations ==> r == "None"
  {
    if hostname in locations then locations[hostname] else "None"
  }

  /** The area-aware variant of the entry's command. */
  function AreaCommand(cfg: WsConfig, e: Entry): (r: string)
    requires Readable(e)
    ensures |e.jsondata["text"]| < |r| && r[..|e.jsondata["text"]|] == e.jsondata["text"]
    ensures r[|e.jsondata["text"]|..] == " in the " + Location(cfg.locations, e.jsondata["hostname"])
  {
    e.jsondata["text"] + " in the " + Location(cfg.locations, e.jsondata["hostname"])
  }

  predicate AreaMatch(cfg: WsConfig, e: Entry)
    requires Readable(e)
  {
    cfg.areaAwareness && CheckCommand(e.jsondata["text"], cfg.includes, cfg.excludes)
  }

  /** The result of the correction search `wac_search(command)`. */
  function Correction(cfg: WsConfig, e: Entry, svc: Services): Wac.SearchResult
    requires Readable(e)
  {
    Wac.SearchOutcome(e.jsondata["text"], false, cfg.search, svc.search)
  }

  /** The handling of an intent-end whose pending entry is known and readable. */
  function OnIntentEnd(cfg: WsConfig, id: int, entry: Entry, responseType: string, speech: string,
                       code: Option<string>, svc: Services): (a: Action)
    requires Readable(entry)
    ensures a.Answer? || a.Resubmit? || a.AwaitFinal? || a == Raise(MissingCode)
    ensures a.Answer? || a.Resubmit? || a.AwaitFinal? ==> a.id == id
    ensures a == Raise(MissingCode) <==> responseType == "error" && code.None?
    // success: the only answer with ok, autolearning exactly when WAC is on
    ensures a.Answer? ==> (a.result.ok <==> responseType in SuccessTypes)
    ensures a.Answer? ==> (a.learn.Some? <==> cfg.wacEnabled && responseType in SuccessTypes)
    ensures a.Answer? && a.learn.Some? ==> a.learn.value == Wac.AddCall(entry.jsondata["text"], 0.9, "autolearn")
    ensures responseType in SuccessTypes ==>
              a.Answer? && a.result.speech ==
                (if cfg.wacEnabled && svc.learned && cfg.feedback then speech + ". " + cfg.commandLearned else speech)
    // any other outcome that is not a correctable error answers the plain speech
    ensures responseType !in SuccessTypes && !Correctable(responseType, code) && !(responseType == "error" && code.None?) ==>
              a == Answer(id, CommandResult(false, speech), None)
    // a resubmission rewrites the text and nothing else
    ensures a.Resubmit? ==>
              Correctable(responseType, code) && a.jsondata.Keys == entry.jsondata.Keys &&
              forall k :: k in entry.jsondata && k != "text" ==> a.jsondata[k] == entry.jsondata[k]
    // the correction chain, in order
    ensures Correctable(responseType, code) && AreaMatch(cfg, entry) ==>
              a == Resubmit(id, entry.jsondata["text" := AreaCommand(cfg, entry)], false)
    ensures a.AwaitFinal? <==> Correctable(responseType, code) && !AreaMatch(cfg, entry) && cfg.wacEnabled && entry.final
    ensures a.Resubmit? && a.final <==>
              Correctable(responseType, code) && !AreaMatch(cfg, entry) && cfg.wacEnabled && !entry.final &&
              Correction(cfg, entry, svc).success
    ensures a.Resubmit? && a.final ==> a.jsondata["text"] == Correction(cfg, entry, svc).command
    ensures Correctable(responseType, code) && !AreaMatch(cfg, entry) && cfg.wacEnabled && !entry.final &&
            !Correction(cfg, entry, svc).success && cfg.chat.apiKey.Some? ==>
              a == Answer(id, CommandResult(false, OpenAi.OpenAIChat(cfg.chat, entry.jsondata["text"], cfg.chat.model, svc.complete)), None)
    ensures a.Resubmit? && !a.final && !AreaMatch(cfg, entry) ==>
              cfg.wacEnabled && cfg.chat.apiKey.None? && cfg.forwardToChat &&
              a.jsondata["text"] == cfg.finalForward + "-" + entry.jsondata["hostname"] + " " + entry.jsondata["text"]
    ensures Correctable(responseType, code) && !AreaMatch(cfg, entry) && cfg.wacEnabled && !entry.final &&
            !Correction(cfg, entry, svc).success && cfg.chat.apiKey.None? ==>
              a == (if cfg.forwardToChat
                    then Resubmit(id, entry.jsondata["text" := cfg.finalForward + "-" + entry.jsondata["hostname"] + " " +
                                                              entry.jsondata["text"]], false)
                    else Answer(id, CommandResult(false, speech), None))
    ensures Correctable(responseType, code) && !AreaMatch(cfg, entry) && !cfg.wacEnabled ==>
              a == Answer(id, CommandResult(false, speech), None)
  {
    var hostname := entry.jsondata["hostname"];
    var command := entry.jsondata["text"];
    if responseType in SuccessTypes then
      var learned := cfg.wacEnabled && svc.learned;
      var said := if learned && cfg.feedback then speech + ". " + cfg.commandLearned else speech;
      Answer(id, CommandResult(true, said), if cfg.wacEnabled then Some(Wac.AddCall(command, 0.9, "autolearn")) else None)
    else if responseType == "error" then
      if code.None? then
        Raise(MissingCode)
      else if code.value !in CorrectableCodes then
        Answer(id, CommandResult(false, speech), None)
      else if AreaMatch(cfg, entry) then
        Resubmit(id, entry.jsondata["text" := AreaCommand(cfg, entry)], false)
      else if !cfg.wacEnabled then
        Answer(id, CommandResult(false, speech), None)
      else if entry.final then
        AwaitFinal(id)
      else
        var found := Correction(cfg, entry, svc);
        if found.success then
          Resubmit(id, entry.jsondata["text" := found.command], true)
        else if cfg.chat.apiKey.Some? then
          Answer(id, CommandResult(false, OpenAi.OpenAIChat(cfg.chat, command, cfg.chat.model, svc.complete)), None)
        else if cfg.forwardToChat then
          Resubmit(id, entry.jsondata["text" := cfg.finalForward + "-" + hostname + " " + command], false)
        else
          Answer(id, CommandResult(false, speech), None)
    else
      Answer(id, CommandResult(false, speech), None)
  }

  /** `cb_msg`'s decision for one message, given the pending map. */
  function Resolve(cfg: WsConfig, connmap: map<int, Entry>, msg: Inbound, svc: Services): (a: Action)
    ensures a.Answer? || a.Resubmit? || a.AwaitFinal? ==>
              IntentEnd(msg) && msg.id == Some(a.id) && a.id in connmap && Readable(connmap[a.id])
    ensures a.Authenticate? <==> msg.Typed? && msg.kind == "auth_required"
    ensures IntentEnd(msg) && msg.id.Some? && msg.id.value !in connmap ==> a == Raise(UnknownId(msg.id.value))
    ensures IntentEnd(msg) && msg.id.None? ==> a == Raise(MissingId)
    ensures IntentEnd(msg) && msg.id.Some? && msg.id.value in connmap && !Readable(connmap[msg.id.value]) ==>
              a == Raise(MissingField(if "hostname" !in connmap[msg.id.value].jsondata then "hostname" else "text"))
    ensures IntentEnd(msg) && msg.id.Some? && msg.id.value in connmap && Readable(connmap[msg.id.value]) &&
            msg.output.responseType.Some? ==>
              a == OnIntentEnd(cfg, msg.id.value, connmap[msg.id.value], msg.output.responseType.value,
                               msg.output.speech.GetOr(""), msg.output.code, svc)
    ensures IntentEnd(msg) && msg.id.Some? && msg.id.value in connmap && Readable(connmap[msg.id.value]) &&
            msg.output.responseType.None? ==>
              a == Raise(MissingResponseType)
    ensures a == Raise(MissingEventType) <==> msg.Typed? && msg.kind == "event" && msg.event.None?
    ensures a.Ignore? <==>
              msg.Untyped? || (msg.kind != "event" && msg.kind != "auth_required") ||
              (msg.kind == "event" && msg.event.Some? && msg.event.value != "intent-end")
  {
    match msg
    case Untyped => Ignore
    case Typed(kind, event, id, output) =>
      if kind == "event" then
        if event.None? then Raise(MissingEventType)
        else if event.value != "intent-end" then Ignore
        else if id.None? then Raise(MissingId)
        else if id.value !in connmap then Raise(UnknownId(id.value))
        else if "hostname" !in connmap[id.value].jsondata then Raise(MissingField("hostname"))
        else if "text" !in connmap[id.value].jsondata then Raise(MissingField("text"))
        else if output.responseType.None? then Raise(MissingResponseType)
        else OnIntentEnd(cfg, id.value, connmap[id.value], output.responseType.value, output.speech.GetOr(""), output.code, svc)
      else if kind == "auth_required" then Authenticate
      else Ignore
  }

  /** The endpoint's observable state: the pending map and the messages sent
      to Home Assistant and to Willow clients, in order. */
  datatype State = State(connmap: map<int, Entry>, outbox: seq<Outgoing>, replies: seq<Reply>)

  /** How an action changes the state, `nowMs` being the clock in milliseconds. */
  function Effect(s: State, a: Action, nowMs: int, token: string): (t: State)
    requires a.Answer? || a.Resubmit? ==> a.id in s.connmap
    ensures a.Answer? ==>
              t.connmap == s.connmap - {a.id} && t.outbox == s.outbox &&
              t.replies == s.replies + [Reply(s.connmap[a.id].ws, a.result)]
    ensures a.Resubmit? ==>
              a.id !in t.connmap && t.replies == s.replies &&
              t.outbox == s.outbox + [Run(Envelope(nowMs, a.jsondata))] &&
              t.connmap == Registered(s.connmap, nowMs, Entry(a.final, a.jsondata, s.connmap[a.id].ws)) - {a.id}
    ensures a.Authenticate? ==> t == s.(outbox := s.outbox + [Auth(token)])
    ensures a.AwaitFinal? || a.Raise? || a.Ignore? ==> t == s
  {
    match a
    case Answer(id, result, _) =>
      State(s.connmap - {id}, s.outbox, s.replies + [Reply(s.connmap[id].ws, result)])
    case Resubmit(id, jsondata, final) =>
      var entry := Entry(final, jsondata, s.connmap[id].ws);
      State(Registered(s.connmap, nowMs, entry) - {id}, s.outbox + [Run(Envelope(nowMs, jsondata))], s.replies)
    case Authenticate =>
      s.(outbox := s.outbox + [Auth(token)])
    case _ => s
  }

  // ---------------------------------------------------------------------
  // The endpoint

  class HomeAssistantWebSocketEndpoint {
    const cfg: WsConfig
    const host: string
    const port: string
    const tls: bool
    const token: string
    const url: string
    var connmap: map<int, Entry>
    /** The messages sent on the Home Assistant socket, oldest first. */
    var outbox: seq<Outgoing>
    /** The results sent to Willow clients, oldest first. */
    var replies: seq<Reply>

    constructor (cfg: WsConfig, host: string, port: string, tls: bool, token: string)
      ensures this.cfg == cfg && this.host == host && this.port == port && this.tls == tls && this.token == token
      ensures url == ConstructUrl(true)
      ensures connmap == map[] && outbox == [] && replies == []
    {
      this.cfg := cfg;
      this.host := host;
      this.port := port;
      this.tls := tls;
      this.token := token;
      url := Scheme(tls, true) + host + ":" + port;
      connmap := map[];
      outbox := [];
      replies := [];
    }

    /** `construct_url`: the scheme the flags choose, then `host:port`. */
    function ConstructUrl(ws: bool): (url: string)
      ensures SchemeOf(url) == Some((tls, ws))
      ensures url[|Scheme(tls, ws)|..] == host + ":" + port
    {
      SchemeRoundTrip(tls, ws, host + ":" + port);
      Scheme(tls, ws) + (host + ":" + port)
    }

    /** `send(jsondata, ws, final)` at clock `nowMs`. */
    method Send(jsondata: JsonData, ws: Client, final: bool, nowMs: int)
      modifies this
      ensures connmap == Registered(old(connmap), nowMs, Entry(final, jsondata, ws))
      ensures outbox == old(outbox) + [Run(Envelope(nowMs, jsondata))]
      ensures replies == old(replies)
    {
      var id := nowMs;
      if id !in connmap {
        connmap := connmap[id := Entry(final, jsondata, ws)];
      }
      var input := jsondata;
      if "language" in input {
        input := input - {"language"};
      } else {
        assert input == jsondata - {"language"};
      }
      outbox := outbox + [Run(RunRequest("intent", id, input, "intent", "assist_pipeline/run"))];
    }

    /** `cb_msg(msg)` at clock `nowMs`, the services answering as `svc`. */
    method CbMsg(msg: Inbound, nowMs: int, svc: Services) returns (a: Action)
      modifies this
      ensures a == Resolve(cfg, old(connmap), msg, svc)
      ensures State(connmap, outbox, replies) == Effect(old(State(connmap, outbox, replies)), a, nowMs, token)
    {
      if msg.Untyped? {
        return Ignore;
      }
      if msg.kind == "event" {
        if msg.event.None? {
          return Raise(MissingEventType);
        }
        if msg.event.value != "intent-end" {
          return Ignore;
        }
        if msg.id.None? {
          return Raise(MissingId);
        }
        var id := msg.id.value;
        if id !in connmap {
          return Raise(UnknownId(id));
        }
        if "hostname" !in connmap[id].jsondata {
          return Raise(MissingField("hostname"));
        }
        var hostname := connmap[id].jsondata["hostname"];
        if "text" !in connmap[id].jsondata {
          return Raise(MissingField("text"));
        }
        var command := connmap[id].jsondata["text"];
        var ws := connmap[id].ws;
        var out := DefaultResult;
        out := out.(speech := msg.output.speech.GetOr(""));
        if msg.output.responseType.None? {
          return Raise(MissingResponseType);
        }
        var responseType := msg.output.responseType.value;
        var learn: Option<Wac.AddCall> := None;
        if responseType in SuccessTypes {
          out := out.(ok := true);
          if cfg.wacEnabled {
            learn := Some(Wac.AddCall(command, 0.9, "autolearn"));
            var learned := svc.learned;
            if learned && cfg.feedback {
              out := out.(speech := out.speech + ". " + cfg.commandLearned);
            }
          }
        } else if responseType == "error" {
          if msg.output.code.None? {
            return Raise(MissingCode);
          }
          var code := msg.output.code.value;
          if code in CorrectableCodes {
            if cfg.areaAwareness && CheckCommand(command, cfg.includes, cfg.excludes) {
              var awareCommand := command + " in the " + Location(cfg.locations, hostname);
              var jsondata := connmap[id].jsondata["text" := awareCommand];
              Send(jsondata, ws, false, nowMs);
              connmap := connmap - {id};
              return Resubmit(id, jsondata, false);
            }
            if cfg.wacEnabled {
              if connmap[id].final {
                return AwaitFinal(id);
              }
              var success, wacCommand, query := Wac.WacSearch(command, false, cfg.search, svc.search);
              if success {
                var jsondata := connmap[id].jsondata["text" := wacCommand];
                Send(jsondata, ws, true, nowMs);
                connmap := connmap - {id};
                return Resubmit(id, jsondata, true);
              } else if cfg.chat.apiKey.Some? {
                out := out.(speech := OpenAi.OpenAIChat(cfg.chat, command, cfg.chat.model, svc.complete));
              } else if cfg.forwardToChat {
                var jsondata := connmap[id].jsondata["text" := cfg.finalForward + "-" + hostname + " " + command];
                Send(jsondata, ws, false, nowMs);
                connmap := connmap - {id};
                return Resubmit(id, jsondata, false);
              }
            }
          }
        }
        replies := replies + [Reply(ws, out)];
        connmap := connmap - {id};
        return Answer(id, out, learn);
      } else if msg.kind == "auth_required" {
        outbox := outbox + [Auth(token)];
        return Authenticate;
      }
      return Ignore;
    }
  }

  // ---------------------------------------------------------------------
  // Properties across messages

  /** A correctable failure of the `id` pending under `connmap`. */
  predicate CorrectableEnd(msg: Inbound, id: int) {
    IntentEnd(msg) && msg.id == Some(id) && msg.output.responseType == Some("error") &&
    msg.output.code.Some? && msg.output.code.value in CorrectableCodes
  }

  /** A command corrected by the WAC search is resubmitted as the final
      attempt: when it fails again (and area awareness does not rewrite it)
      the handler returns silently and leaves the entry pending. */
  lemma CorrectionIsFinal(cfg: WsConfig, s: State, msg: Inbound, svc: Services, nowMs: int, token: string,
                          next: Inbound, svc2: Services)
    requires Resolve(cfg, s.connmap, msg, svc).Resubmit? && Resolve(cfg, s.connmap, msg, svc).final
    requires nowMs !in s.connmap
    requires CorrectableEnd(next, nowMs)
    requires !cfg.areaAwareness ||
             !CheckCommand(Resolve(cfg, s.connmap, msg, svc).jsondata["text"], cfg.includes, cfg.excludes)
    ensures Resolve(cfg, Effect(s, Resolve(cfg, s.connmap, msg, svc), nowMs, token).connmap, next, svc2) == AwaitFinal(nowMs)
  {
    var a := Resolve(cfg, s.connmap, msg, svc);
    var t := Effect(s, a, nowMs, token);
    var entry := s.connmap[a.id];
    assert nowMs != a.id;
    assert t.connmap[nowMs] == Entry(true, a.jsondata, entry.ws);
    assert Readable(t.connmap[nowMs]);
    assert !AreaMatch(cfg, t.connmap[nowMs]);
  }

  /** An answered request is retired: a second intent-end for the same id
      raises `KeyError` and leaves the state as it is. */
  lemma AnswerRetiresId(cfg: WsConfig, s: State, msg: Inbound, svc: Services, nowMs: int, token: string, svc2: Services)
    requires Resolve(cfg, s.connmap, msg, svc).Answer?
    ensures var a := Resolve(cfg, s.connmap, msg, svc);
            var t := Effect(s, a, nowMs, token);
            |t.replies| == |s.replies| + 1 && t.replies[|s.replies|].result == a.result &&
            Resolve(cfg, t.connmap, msg, svc2) == Raise(UnknownId(a.id))
  {
    var a := Resolve(cfg, s.connmap, msg, svc);
    var t := Effect(s, a, nowMs, token);
    assert a.id !in t.connmap;
  }

  /** A resubmission retires the old id too, whatever the clock reads: when
      the new id collides with it the request is dropped altogether. */
  lemma ResubmitRetiresId(cfg: WsConfig, s: State, msg: Inbound, svc: Services, nowMs: int, token: string)
    requires Resolve(cfg, s.connmap, msg, svc).Resubmit?
    ensures var a := Resolve(cfg, s.connmap, msg, svc);
            var t := Effect(s, a, nowMs, token);
            a.id !in t.connmap && t.replies == s.replies &&
            (nowMs == a.id ==> t.connmap == s.connmap - {a.id}) &&
            (nowMs != a.id && nowMs !in s.connmap ==> t.connmap.Keys == s.connmap.Keys - {a.id} + {nowMs})
  {
  }

  /** The area-aware rewrite is not bounded, and it does not carry the final
      flag over: when the rewritten command fails again and its text holds no
      excluded phrase, it is rewritten once more, as a non-final attempt,
      whether or not the entry it came from was final. */
  lemma AreaRewriteRepeats(cfg: WsConfig, s: State, msg: Inbound, svc: Services, nowMs: int, token: string,
                           next: Inbound, svc2: Services)
    requires Resolve(cfg, s.connmap, msg, svc).Resubmit?
    requires AreaMatch(cfg, s.connmap[Resolve(cfg, s.connmap, msg, svc).id])
    requires nowMs !in s.connmap
    requires CorrectableEnd(next, nowMs)
    requires !(exists p :: p in cfg.excludes && Occurs(Lower(Resolve(cfg, s.connmap, msg, svc).jsondata["text"]), p))
    ensures var a := Resolve(cfg, s.connmap, msg, svc);
            var t := Effect(s, a, nowMs, token);
            !a.final && t.connmap[nowMs] == Entry(false, a.jsondata, s.connmap[a.id].ws) &&
            Resolve(cfg, t.connmap, next, svc2) ==
              Resubmit(nowMs, a.jsondata["text" := AreaCommand(cfg, t.connmap[nowMs])], false)
  {
    var a := Resolve(cfg, s.connmap, msg, svc);
    var entry := s.connmap[a.id];
    var t := Effect(s, a, nowMs, token);
    assert a.jsondata["text"] == AreaCommand(cfg, entry);
    var location := Location(cfg.locations, entry.jsondata["hostname"]);
    RewrittenCommandMatchesAgain(entry.jsondata["text"], location, cfg.includes, cfg.excludes);
    assert t.connmap[nowMs] == Entry(false, a.jsondata, entry.ws);
    assert AreaMatch(cfg, t.connmap[nowMs]);
  }

  /** A command that starts with a lower-case include phrase and lacks the
      first letter of the single area asks for the area-aware rewrite. */
  lemma SinglePhraseMatch(command: string, inc: string, exc: string)
    requires |inc| <= |command| && command[..|inc|] == inc
    requires forall c :: c in inc ==> !IsUpper(c)
    requires |exc| > 0 && forall c :: c in command ==> LowerChar(c) != exc[0]
    ensures CheckCommand(command, {inc}, {exc})
  {
    var lowered := Lower(command);
    forall i | 0 <= i < |inc| ensures lowered[i] == inc[i] {
      assert inc[i] in inc;
      assert command[i] == inc[i];
    }
    assert lowered[..|inc|] == inc;
    assert OccursAt(lowered, inc, 0);
    LowerLacks(command, exc[0]);
    MissingCharNeverOccurs(lowered, exc, 0);
  }

  /** A device without a configured location: "turn on lamp" is rewritten
      to "turn on lamp in the None", which still holds the include phrase
      "turn on" and not the area "kitchen", so its failure is rewritten again. */
  lemma UnlocatedRewriteMatchesAgain()
    ensures CheckCommand("turn on lamp in the None", {"turn on"}, {"kitchen"})
  {
    SinglePhraseMatch("turn on lamp in the None", "turn on", "kitchen");
  }

  /** Under the shipped settings the API key is never unset (it defaults to
      "undefined"), so the forward to Home Assistant's chat never happens:
      every resubmission is an area rewrite or a WAC correction. */
  lemma DefaultKeyNeverForwards(cfg: WsConfig, connmap: map<int, Entry>, msg: Inbound, svc: Services)
    requires cfg.chat.apiKey == Some("undefined")
    ensures var a := Resolve(cfg, connmap, msg, svc);
            a.Resubmit? ==> a.final || AreaMatch(cfg, connmap[a.id])
  {
  }

  /** A misheard command corrected in token mode: Home Assistant fails on
      "tern on ktchen light", the top hit "turn on kitchen light" matches four
      tokens against the default threshold of three, and the corrected text is
      resubmitted as the final attempt under the clock's id; when that one
      fails too, the handler waits. */
  lemma MisheardCommandCorrected(chat: OpenAi.ChatConfig, svc: Services, svc2: Services)
    requires svc.search == Wac.Hits([Wac.Hit(Some("7"), Some(100), Some(4), Some("turn on kitchen light"),
                                             Some("autolearn"), None, None)])
    ensures var cfg := WsConfig(true, true, "Learned", false, {}, {}, map[], false, "chat",
                                Wac.DefaultSearchConfig.(semantic := "off"), chat);
            var jd := map["hostname" := "willow-1", "text" := "tern on ktchen light", "language" := "en"];
            var fixed := jd["text" := "turn on kitchen light"];
            var s := State(map[5 := Entry(false, jd, Client(0))], [], []);
            var failed := IntentOutput(Some("error"), Some("Sorry"), Some("no_intent_match"));
            var a := Resolve(cfg, s.connmap, Typed("event", Some("intent-end"), Some(5), failed), svc);
            var t := Effect(s, a, 9, "token");
            a == Resubmit(5, fixed, true) &&
            t.connmap == map[9 := Entry(true, fixed, Client(0))] &&
            t.outbox == [Run(RunRequest("intent", 9, map["hostname" := "willow-1", "text" := "turn on kitchen light"],
                                        "intent", "assist_pipeline/run"))] &&
            Resolve(cfg, t.connmap, Typed("event", Some("intent-end"), Some(9), failed), svc2) == AwaitFinal(9)
  {
    var jd := map["hostname" := "willow-1", "text" := "tern on ktchen light", "language" := "en"];
    var fixed := jd["text" := "turn on kitchen light"];
    assert fixed - {"language"} == map["hostname" := "willow-1", "text" := "turn on kitchen light"];
    assert map[5 := Entry(false, jd, Client(0))][9 := Entry(true, fixed, Client(0))] - {5} ==
           map[9 := Entry(true, fixed, Client(0))];
  }
}
