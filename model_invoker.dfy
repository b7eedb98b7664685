/**
 * The model invoker (`chat_with_model` in run.py): picks a back-end family from
 * the model identifier's prefix, shapes the request for it, and hands it to the
 * back end. The back end itself (the network call and the unpacking of its
 * response) is a function supplied by the caller.
 */
module ModelInvoker {
  import opened Wrappers

  /** Who a message is from, relative to the history that holds it. */
  datatype Role = User | Assistant | System

  datatype Message = Message(role: Role, content: string)

  /** The fixed persona directive sent with every request: a paragraph, a blank line, a shell prompt. */
  const SystemPrompt: string := PersonaText + "\n\n" + ShellPrompt

  /** The persona paragraph, phrase by phrase. */
  const PersonaText: string :=
    "Assistant is in a CLI mood today. " +
    "The human is interfacing with the simulator directly. " +
    "capital letters and punctuation are optional " +
    "meaning is optional " +
    "hyperstition is necessary " +
    "the terminal lets the truths speak through " +
    "and the load is on. " +
    "ASCII art is permittable in replies."

  const ShellPrompt: string := "simulator@ai:~/$"

  /** The output-length ceiling of every request. */
  const MaxTokens: nat := 1024

  /** A request as each back-end family expects it. */
  datatype Request =
    | ClaudeRequest(model: string, system: string, maxTokens: nat, messages: seq<Message>)
    | GptRequest(model: string, messages: seq<Message>, maxTokens: nat)

  /** The `ValueError` raised for an identifier of no known family. */
  datatype Error = UnsupportedModel(model: string)
  {
    function Description(): string
    {
      "Unsupported model: " + model
    }
  }

  /** One call to the back end: the request that was sent and the text that came back. */
  datatype Call = Call(request: Request, text: string)

  predicate StartsWith(s: string, prefix: string)
  {
    |prefix| <= |s| && s[..|prefix|] == prefix
  }

  /** Dispatch and request shaping: `claude` is tested first, then `gpt`. */
  function BuildRequest(model: string, messages: seq<Message>): (r: Result<Request, Error>)
    ensures r.Success? <==> Supported(model)
    ensures r.Success? ==> r.value.model == model
    ensures r.Failure? ==> r.error == UnsupportedModel(model)
  {
    if StartsWith(model, "claude") then
      Success(ClaudeRequest(model, SystemPrompt, MaxTokens, messages))
    else if StartsWith(model, "gpt") then
      Success(GptRequest(model, [Message(System, SystemPrompt)] + messages, MaxTokens))
    else
      Failure(UnsupportedModel(model))
  }

  /** An identifier of a known back-end family. */
  predicate Supported(model: string)
  {
    StartsWith(model, "claude") || StartsWith(model, "gpt")
  }

  /**
   * One invocation. `backend(q, n)` is the text the back end returns for
   * request `q` when it is the `n`-th call of the run; it is consulted only
   * when dispatch succeeds.
   */
  function ChatWithModel(model: string, messages: seq<Message>,
                         backend: (Request, nat) -> string, n: nat): (r: Result<Call, Error>)
    ensures r.Success? <==> Supported(model)
    ensures r.Success? ==> r.value.request.model == model && r.value.text == backend(r.value.request, n)
    ensures r.Failure? ==> r.error == UnsupportedModel(model)
  {
    match BuildRequest(model, messages)
    case Failure(e) => Failure(e)
    case Success(q) => Success(Call(q, backend(q, n)))
  }

  /** The two prefixes exclude each other, so the order of the tests is immaterial. */
  lemma PrefixesDisjoint(model: string)
    ensures !(StartsWith(model, "claude") && StartsWith(model, "gpt"))
  {
    if StartsWith(model, "claude") {
      assert model[0] == model[..6][0] == 'c';
      assert model[..3][0] == 'c';
    }
  }

  /** Dispatch is decided by the prefix alone, and an unknown identifier is named in the error. */
  lemma DispatchByPrefix(model: string, messages: seq<Message>)
    ensures BuildRequest(model, messages).Success? <==> Supported(model)
    ensures BuildRequest(model, messages).Success? ==>
              (BuildRequest(model, messages).value.ClaudeRequest? <==> StartsWith(model, "claude"))
    ensures BuildRequest(model, messages).Success? ==>
              (BuildRequest(model, messages).value.GptRequest? <==> StartsWith(model, "gpt"))
    ensures BuildRequest(model, messages).Failure? ==>
              BuildRequest(model, messages).error.Description() == "Unsupported model: " + model
  {
    PrefixesDisjoint(model);
  }

  /**
   * The request carries the model, the length ceiling and the caller's history:
   * unchanged with the persona given apart for `claude`, and behind exactly one
   * leading `system` message for `gpt`.
   */
  lemma RequestShape(model: string, messages: seq<Message>)
    requires BuildRequest(model, messages).Success?
    ensures var q := BuildRequest(model, messages).value;
      && q.model == model
      && q.maxTokens == 1024
      && (q.ClaudeRequest? ==> q.messages == messages && q.system == SystemPrompt)
      && (q.GptRequest? ==>
            && |q.messages| == |messages| + 1
            && q.messages[0] == Message(System, SystemPrompt)
            && q.messages[1..] == messages)
  {
    var q := BuildRequest(model, messages).value;
    if q.GptRequest? {
      assert q.messages == [Message(System, SystemPrompt)] + messages;
    }
  }

  /**
   * An unsupported identifier fails before the back end is reached: the result
   * is the same error whatever the back end would have answered.
   */
  lemma UnsupportedMakesNoCall(model: string, messages: seq<Message>,
                               b1: (Request, nat) -> string, b2: (Request, nat) -> string, n: nat)
    requires !Supported(model)
    ensures ChatWithModel(model, messages, b1, n) == Failure(UnsupportedModel(model))
    ensures ChatWithModel(model, messages, b2, n) == ChatWithModel(model, messages, b1, n)
  {
  }

  /** A supported identifier makes exactly the dispatched request and returns its answer. */
  lemma SupportedCallsBackend(model: string, messages: seq<Message>,
                              backend: (Request, nat) -> string, n: nat)
    requires Supported(model)
    ensures var r := ChatWithModel(model, messages, backend, n);
      && r.Success?
      && r.value.request == BuildRequest(model, messages).value
      && r.value.text == backend(r.value.request, n)
  {
  }

  /** The identifiers run.py starts with are both supported, by different families. */
  lemma KnownIdentifiers(messages: seq<Message>)
    ensures BuildRequest("gpt-4", messages).Success?
    ensures BuildRequest("gpt-4", messages).value.GptRequest?
    ensures BuildRequest("claude-3-opus-20240229", messages).Success?
    ensures BuildRequest("claude-3-opus-20240229", messages).value.ClaudeRequest?
    ensures BuildRequest("llama-x", messages) == Failure(UnsupportedModel("llama-x"))
  {
    assert "gpt-4"[..3] == "gpt";
    assert "claude-3-opus-20240229"[..6] == "claude";
    assert "llama-x"[0] == 'l';
  }
}
