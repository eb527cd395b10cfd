/** `HomeAssistantRestEndpoint` (app/internal/command_endpoints/ha_rest.py):
    the conversation URL, the bearer header, the mapping of Home Assistant's
    conversation reply to a command result, and the payload it posts. */
module HaRest {
  import opened Wrappers
  import opened Text
  import opened Endpoint

  const ConversationPath: string := "/api/conversation/process"

  /** `construct_url`: scheme, host, port and the conversation API path. */
  function ConstructUrl(tls: bool, host: string, port: string, ws: bool): (url: string)
    ensures SchemeOf(url) == Some((tls, ws))
    ensures url == Scheme(tls, ws) + host + ":" + port + ConversationPath
  {
    var url := Scheme(tls, ws) + host + ":" + port + ConversationPath;
    SchemeRoundTrip(tls, ws, host + ":" + port + ConversationPath);
    assert Scheme(tls, ws) + (host + ":" + port + ConversationPath) == url;
    url
  }

  /** The `auth_header` of the REST configuration: the token after "Bearer ". */
  function AuthHeader(token: string): (h: string)
    ensures StartsWith(h, "Bearer ") && h[|"Bearer "|..] == token
  {
    "Bearer " + token
  }

  /** The parts of Home Assistant's conversation reply the endpoint reads:
      `/response/response_type` and `/response/speech/plain/speech`, each
      None when the path is absent. */
  datatype ConversationReply = ConversationReply(responseType: Option<string>, speech: Option<string>)

  /** `get_speech`: the spoken text, or None when the reply carries none. */
  function GetSpeech(data: ConversationReply): (r: Option<string>)
    ensures r.None? <==> data.speech.None?
    ensures r.Some? ==> r.value == data.speech.value
  {
    data.speech
  }

  /** `parse_response`. `json_get` raises when the response type is absent;
      that exception is the `Err` case. */
  function ParseResponse(data: ConversationReply): (r: Result<CommandResult, string>)
    ensures r.Err? <==> data.responseType.None?
    ensures r.Ok? ==> (r.value.ok <==> data.responseType.value in ["action_done", "query_answer"])
    ensures r.Ok? && data.speech.Some? && data.speech.value != "" ==> r.value.speech == data.speech.value
    ensures r.Ok? && (data.speech.None? || data.speech.value == "") ==> r.value.speech == DefaultResult.speech
  {
    match data.responseType
    case None => Err("response_type missing")
    case Some(responseType) =>
      var res := DefaultResult;
      var speech := GetSpeech(data);
      var res := if speech.Some? && speech.value != "" then res.(speech := speech.value) else res;
      var res := if responseType in ["action_done", "query_answer"] then res.(ok := true) else res;
      Ok(res)
  }

  /** `send`: only `text` and `language` of the request are forwarded; a
      request lacking either raises `KeyError`, the `Err` case. */
  function SendPayload(jsondata: map<string, string>): (r: Result<map<string, string>, string>)
    ensures r.Ok? <==> "text" in jsondata && "language" in jsondata
    ensures r.Ok? ==> r.value == map k | k in jsondata && k in {"text", "language"} :: jsondata[k]
  {
    if "text" in jsondata && "language" in jsondata then
      var out := map["text" := jsondata["text"], "language" := jsondata["language"]];
      assert out == map k | k in jsondata && k in {"text", "language"} :: jsondata[k];
      Ok(out)
    else
      Err("KeyError")
  }
}
