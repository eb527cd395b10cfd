/** What the command endpoints share: the result handed back to a Willow
    client and the choice of URL scheme for Home Assistant. */
module Endpoint {
  import opened Wrappers
  import opened Text

  /** `CommandEndpointResult`: whether the command was acted on, and the text
      the device speaks and shows. */
  datatype CommandResult = CommandResult(ok: bool, speech: string)

  /** A freshly created result: speech "Error", the default the comment at
      ha_ws.py:128 records, and not ok, since both endpoints set `ok` only on
      success (ha_rest.py:43-44, ha_ws.py:131-132). */
  const DefaultSpeech: string := "Error"
  const DefaultResult: CommandResult := CommandResult(false, DefaultSpeech)

  /** The URL scheme for Home Assistant: WebSocket or HTTP, each with or without TLS. */
  function Scheme(tls: bool, ws: bool): (r: string)
    ensures ws ==> (r == "wss://" <==> tls) && (r == "ws://" <==> !tls)
    ensures !ws ==> (r == "https://" <==> tls) && (r == "http://" <==> !tls)
  {
    if ws then (if tls then "wss://" else "ws://")
    else (if tls then "https://" else "http://")
  }

  /** Reads back from a URL which scheme it was built with, as `(tls, ws)`. */
  function SchemeOf(url: string): Option<(bool, bool)> {
    if StartsWith(url, "wss://") then Some((true, true))
    else if StartsWith(url, "ws://") then Some((false, true))
    else if StartsWith(url, "https://") then Some((true, false))
    else if StartsWith(url, "http://") then Some((false, false))
    else None
  }

  /** The scheme at the head of a URL determines both flags that chose it. */
  lemma SchemeRoundTrip(tls: bool, ws: bool, rest: string)
    ensures SchemeOf(Scheme(tls, ws) + rest) == Some((tls, ws))
  {
    var url := Scheme(tls, ws) + rest;
    var s := Scheme(tls, ws);
    assert url[..|s|] == s;
    if ws && !tls {
      assert url[2] == ':';
    } else if !ws && !tls {
      assert url[4] == ':';
    }
  }
}
