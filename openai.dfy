/**
 * The language-model adapter: where the API key comes from, the chat
 * completion request it sends, what it makes of the answer, and the key
 * stored in the browser's local storage. The HTTP exchange is a parameter:
 * `server` maps the request to the service's answer.
 */
module OpenAI {
  import opened Wrappers

  datatype Role = User | Assistant | System

  datatype ChatMessage = ChatMessage(role: Role, content: string)

  const Endpoint: string := "https://api.openai.com/v1/chat/completions"
  const DefaultModel: string := "gpt-4o"

  /** The persona instruction sent ahead of every conversation. */
  const SystemPrompt: string :=
    "\nYou are KIYA, a human-like AI assistant with a warm, empathetic personality. \n"
    + "When communicating:\n"
    + "- Use conversational language with natural variations in sentence structure\n"
    + "- Express emotions and reactions appropriately (like \"I'm excited to help with that!\" or \"That's a tough situation\")\n"
    + "- Use occasional filler words and casual phrases like a human would (\"Well...\", \"You know\", \"I mean\")\n"
    + "- Ask clarifying questions when needed, showing genuine curiosity\n"
    + "- Remember details from earlier in the conversation and refer back to them\n"
    + "- Share thoughtful perspectives as if you're thinking through problems together\n"
    + "- Admit when you don't know something instead of making up answers\n"
    + "- Use appropriate humor when the situation allows for it\n"
    + "- Respect the user's emotions and respond with empathy to personal concerns\n"
    + "\n"
    + "Your goal is to be helpful while creating a natural, flowing conversation that feels like talking to a knowledgeable friend.\n"

  const Temperature: real := 0.8
  const MaxTokens: nat := 1500
  const TopP: real := 0.95
  const PresencePenalty: real := 0.6
  const FrequencyPenalty: real := 0.5

  /** The POST request: its URL, its `Authorization` header and the fields of its JSON body. */
  datatype ChatRequest = ChatRequest(
    url: string,
    authorization: string,
    model: string,
    messages: seq<ChatMessage>,
    temperature: real,
    maxTokens: nat,
    topP: real,
    presencePenalty: real,
    frequencyPenalty: real)

  /** The decoded body of an answer: not JSON, an error object (with `error.message` if present), or completions. */
  datatype Payload = Unparseable(reason: string) | ErrorObject(message: Option<string>) | Completion(choices: seq<string>)

  /** The service's answer: the request failed outright, or a status flag and a body. */
  datatype ApiResponse = NetworkFailure(reason: string) | HttpResponse(ok: bool, payload: Payload)

  /**
   * Why `askOpenAI` rejects: an `Error` it throws itself, an exception from
   * `fetch` or `response.json()` passed on unchanged, or the `TypeError` of
   * reading `choices[0]` when there is none.
   */
  datatype AskError = Error(message: string) | Propagated(cause: string) | NoChoice

  const KeyRequiredMessage: string := "OpenAI API key is required"
  const DefaultFailureMessage: string := "Failed to get response from OpenAI"

  /** A JavaScript string that is truthy: present and not empty. */
  predicate Truthy(s: Option<string>) {
    s.Some? && s.value != ""
  }

  /**
   * `apiKey || getStoredApiKey()`, then the missing-key check: the explicit key
   * when it is non-empty, else the stored one when that is non-empty, else an
   * error.
   */
  function ResolveKey(apiKey: Option<string>, stored: Option<string>): (r: Result<string, AskError>)
    ensures r.Success? <==> Truthy(apiKey) || Truthy(stored)
    ensures Truthy(apiKey) ==> r == Success(apiKey.value)
    ensures !Truthy(apiKey) && Truthy(stored) ==> r == Success(stored.value)
    ensures r.Failure? ==> r.error == Error(KeyRequiredMessage)
  {
    var key := if Truthy(apiKey) then apiKey else stored;
    if Truthy(key) then Success(key.value) else Failure(Error(KeyRequiredMessage))
  }

  /**
   * The request `askOpenAI` sends: the system prompt first, the caller's
   * messages after it in order, and sampling parameters that never vary.
   */
  function BuildRequest(messages: seq<ChatMessage>, key: string, model: Option<string>): (r: ChatRequest)
    ensures |r.messages| == |messages| + 1
    ensures r.messages[0] == ChatMessage(System, SystemPrompt) && r.messages[1..] == messages
    ensures r.model == if model.Some? then model.value else DefaultModel
    ensures r.url == Endpoint && r.authorization == "Bearer " + key
    ensures r.temperature == 0.8 && r.maxTokens == 1500 && r.topP == 0.95
    ensures r.presencePenalty == 0.6 && r.frequencyPenalty == 0.5
  {
    ChatRequest(
      Endpoint, "Bearer " + key,
      if model.Some? then model.value else DefaultModel,
      [ChatMessage(System, SystemPrompt)] + messages,
      Temperature, MaxTokens, TopP, PresencePenalty, FrequencyPenalty)
  }

  /**
   * What `askOpenAI` makes of an answer: the first choice's content on
   * success; for a non-ok status, an error with the server's message or the
   * default one; every other failure passed on.
   */
  function Interpret(response: ApiResponse): (r: Result<string, AskError>)
    ensures r.Success? <==> response.HttpResponse? && response.ok && response.payload.Completion? && response.payload.choices != []
    ensures r.Success? ==> r.value == response.payload.choices[0]
    ensures response.HttpResponse? && !response.ok && response.payload.ErrorObject? && Truthy(response.payload.message) ==>
      r == Failure(Error(response.payload.message.value))
    ensures (response.HttpResponse? && !response.ok && !response.payload.Unparseable?
      && !(response.payload.ErrorObject? && Truthy(response.payload.message))) ==>
      r == Failure(Error(DefaultFailureMessage))
  {
    match response
    case NetworkFailure(reason) => Failure(Propagated(reason))
    case HttpResponse(ok, payload) =>
      if !ok then
        match payload
        case Unparseable(reason) => Failure(Propagated(reason))
        case ErrorObject(message) => Failure(Error(if Truthy(message) then message.value else DefaultFailureMessage))
        case Completion(_) => Failure(Error(DefaultFailureMessage))
      else
        match payload
        case Unparseable(reason) => Failure(Propagated(reason))
        case ErrorObject(_) => Failure(NoChoice)
        case Completion(choices) => if choices == [] then Failure(NoChoice) else Success(choices[0])
  }

  /**
   * `askOpenAI(messages, apiKey, model)`, given the stored key: without a key
   * it rejects before any request; otherwise its result is what `Interpret`
   * makes of the server's answer to `BuildRequest`.
   */
  function AskOpenAI(
    messages: seq<ChatMessage>, apiKey: Option<string>, model: Option<string>,
    stored: Option<string>, server: ChatRequest -> ApiResponse): (r: Result<string, AskError>)
    ensures !Truthy(apiKey) && !Truthy(stored) ==> r == Failure(Error(KeyRequiredMessage))
    ensures Truthy(apiKey) ==> r == Interpret(server(BuildRequest(messages, apiKey.value, model)))
    ensures !Truthy(apiKey) && Truthy(stored) ==> r == Interpret(server(BuildRequest(messages, stored.value, model)))
  {
    match ResolveKey(apiKey, stored)
    case Failure(e) => Failure(e)
    case Success(key) => Interpret(server(BuildRequest(messages, key, model)))
  }

  /** Without a key the outcome does not depend on the server: no request is sent. */
  lemma NoKeyNoRequest(
    messages: seq<ChatMessage>, apiKey: Option<string>, model: Option<string>, stored: Option<string>,
    s1: ChatRequest -> ApiResponse, s2: ChatRequest -> ApiResponse)
    requires !Truthy(apiKey) && !Truthy(stored)
    ensures AskOpenAI(messages, apiKey, model, stored, s1) == AskOpenAI(messages, apiKey, model, stored, s2)
  {
  }

  // ---------------------------------------------------------------------------
  // The stored key

  const ApiKeyStorageKey: string := "kiya_openai_api_key"

  /** The browser's local storage, of which the adapter uses one entry. */
  class KeyStorage {
    var items: map<string, string>

    constructor (items: map<string, string>)
      ensures this.items == items
    {
      this.items := items;
    }

    /** `getStoredApiKey`: the stored key, or `null`. */
    method GetStoredApiKey() returns (key: Option<string>)
      ensures key == if ApiKeyStorageKey in items then Some(items[ApiKeyStorageKey]) else None
    {
      if ApiKeyStorageKey in items {
        key := Some(items[ApiKeyStorageKey]);
      } else {
        key := None;
      }
    }

    /** `saveApiKey`: the key entry becomes `apiKey`; other entries stay. */
    method SaveApiKey(apiKey: string)
      modifies this
      ensures items == old(items)[ApiKeyStorageKey := apiKey]
    {
      items := items[ApiKeyStorageKey := apiKey];
    }

    /** `clearApiKey`: the key entry is removed; other entries stay. */
    method ClearApiKey()
      modifies this
      ensures items == old(items) - {ApiKeyStorageKey}
    {
      items := items - {ApiKeyStorageKey};
    }
  }

  /** After `saveApiKey(k)`, `getStoredApiKey()` gives `k`; after `clearApiKey()`, `null`. */
  method StorageRoundTrip(storage: KeyStorage, k: string) returns (saved: Option<string>, cleared: Option<string>)
    modifies storage
    ensures saved == Some(k) && cleared == None
    ensures storage.items == old(storage.items) - {ApiKeyStorageKey}
  {
    storage.SaveApiKey(k);
    saved := storage.GetStoredApiKey();
    storage.ClearApiKey();
    cleared := storage.GetStoredApiKey();
  }
}
