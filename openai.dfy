/** `openai_chat` (app/internal/openai.py): the large-language-model fallback.
    The completion call is an oracle `complete(model, text)`, None when it
    raises. */
module OpenAi {
  import opened Wrappers
  import opened Text

  /** The settings and import-time state `openai_chat` reads: the API key
      (None when unset), the models the endpoint lists, the default model and
      the text answered when no completion is available. */
  datatype ChatConfig = ChatConfig(
    apiKey: Option<string>,
    endpointModels: seq<string>,
    model: string,
    commandNotFound: string)

  /** A client exists exactly when an API key is configured. */
  function ClientConfigured(cfg: ChatConfig): (b: bool)
    ensures b <==> cfg.apiKey.Some?
  {
    cfg.apiKey.Some?
  }

  /** `FORCE_OPENAI_MODEL`: the endpoint's only model, when it lists exactly one. */
  function ForcedModel(cfg: ChatConfig): (m: Option<string>)
    ensures m.Some? <==> cfg.apiKey.Some? && |cfg.endpointModels| == 1
    ensures m.Some? ==> m.value == cfg.endpointModels[0]
  {
    if ClientConfigured(cfg) && |cfg.endpointModels| == 1 then Some(cfg.endpointModels[0]) else None
  }

  /** The model the completion is requested with. */
  function ChatModel(cfg: ChatConfig, model: string): (m: string)
    ensures ClientConfigured(cfg) && |cfg.endpointModels| == 1 ==> m == cfg.endpointModels[0]
    ensures !(ClientConfigured(cfg) && |cfg.endpointModels| == 1) ==> m == model
  {
    ForcedModel(cfg).GetOr(model)
  }

  /** Speech-friendly completion text: line feeds become spaces, carriage
      returns are dropped, then leading whitespace is stripped. The reply is
      what is left of the substituted text once a leading run of whitespace
      is cut off, and its first character is not whitespace. */
  function Sanitize(content: string): (r: string)
    ensures '\n' !in r && '\r' !in r
    ensures r == [] || !IsSpace(r[0])
    ensures var joined := RemoveChar(ReplaceChar(content, '\n', ' '), '\r');
            |r| <= |joined| && r == joined[|joined| - |r|..] &&
            forall i :: 0 <= i < |joined| - |r| ==> IsSpace(joined[i])
  {
    var spaced := ReplaceChar(content, '\n', ' ');
    var joined := RemoveChar(spaced, '\r');
    assert forall i :: 0 <= i < |spaced| ==> spaced[i] != '\n';
    assert '\n' !in joined by {
      assert multiset(spaced)['\n'] == 0;
      assert multiset(joined)['\n'] == 0;
    }
    var r := LStrip(joined);
    assert forall x :: x in r ==> x in joined by {
      assert r == joined[|joined| - |r|..];
    }
    r
  }

  /** Text that is already clean passes through unchanged. */
  lemma SanitizeKeepsCleanText(content: string)
    requires '\n' !in content && '\r' !in content
    requires content == [] || !IsSpace(content[0])
    ensures Sanitize(content) == content
  {
    ReplaceCharAbsent(content, '\n', ' ');
    RemoveCharAbsent(content, '\r');
  }

  /** Cleaning a reply a second time changes nothing. */
  lemma SanitizeIdempotent(content: string)
    ensures Sanitize(Sanitize(content)) == Sanitize(content)
  {
    SanitizeKeepsCleanText(Sanitize(content));
  }

  /** A line break between two clean lines becomes a space and both lines
      are kept as they are, in order. */
  lemma SanitizeJoinsLines(first: string, second: string)
    requires '\n' !in first && '\r' !in first && '\n' !in second && '\r' !in second
    requires first != [] && !IsSpace(first[0])
    ensures Sanitize(first + "\n" + second) == first + " " + second
  {
    var joined := first + " " + second;
    var spaced := ReplaceChar(first + "\n" + second, '\n', ' ');
    forall i | 0 <= i < |joined| ensures spaced[i] == joined[i] {
      if i < |first| {
        assert (first + "\n" + second)[i] == first[i];
        assert first[i] in first;
      } else if i > |first| {
        assert (first + "\n" + second)[i] == second[i - |first| - 1];
        assert second[i - |first| - 1] in second;
      }
    }
    assert spaced == joined;
    assert '\r' !in joined;
    RemoveCharAbsent(joined, '\r');
  }

  /** `openai_chat(text, model)`. */
  function OpenAIChat(cfg: ChatConfig, text: string, model: string, complete: (string, string) -> Option<string>): (r: string)
    ensures !ClientConfigured(cfg) ==> r == cfg.commandNotFound
    ensures ClientConfigured(cfg) && complete(ChatModel(cfg, model), text).None? ==> r == cfg.commandNotFound
    ensures ClientConfigured(cfg) && complete(ChatModel(cfg, model), text).Some? ==>
              r == Sanitize(complete(ChatModel(cfg, model), text).value)
    ensures r == cfg.commandNotFound || ('\n' !in r && '\r' !in r && (r == [] || !IsSpace(r[0])))
  {
    var response := cfg.commandNotFound;
    var model := ChatModel(cfg, model);
    if ClientConfigured(cfg) then
      match complete(model, text)
      case Some(content) => Sanitize(content)
      case None => response
    else
      response
  }

  /** When the endpoint offers a single model, the caller's choice of model
      makes no difference to the reply. */
  lemma ForcedModelOverrides(cfg: ChatConfig, text: string, m1: string, m2: string, complete: (string, string) -> Option<string>)
    requires ClientConfigured(cfg) && |cfg.endpointModels| == 1
    ensures OpenAIChat(cfg, text, m1, complete) == OpenAIChat(cfg, text, m2, complete)
  {
  }

  /** The settings as seen by the copy of `openai_chat` in `wac.py`, whose
      client is built only when the key differs from its "undefined" default.
      A key of None has no client here, which the `wac.py` test would not give;
      that input does not arise, since the settings type the key as a string. */
  function WacChatConfig(cfg: ChatConfig): (c: ChatConfig)
    ensures ClientConfigured(c) <==> cfg.apiKey.Some? && cfg.apiKey.value != "undefined"
    ensures c.endpointModels == cfg.endpointModels && c.model == cfg.model && c.commandNotFound == cfg.commandNotFound
  {
    if cfg.apiKey == Some("undefined") then cfg.(apiKey := None) else cfg
  }

  /** Under the default key the `wac.py` copy always answers the not-found
      text, whatever the model and the completion would give. */
  lemma WacChatDefaultKeyNotFound(cfg: ChatConfig, text: string, model: string, complete: (string, string) -> Option<string>)
    requires cfg.apiKey == Some("undefined")
    ensures OpenAIChat(WacChatConfig(cfg), text, model, complete) == cfg.commandNotFound
  {
  }
}
