/** GroqAIService of lib/infrastructure/services/GroqAIService.js: turns a
    conversation and an optional system prompt into one chat-completion
    request and reads the reply text back.  The SDK call is the parameter
    `sdk`, which maps a request to what the Groq API answers. */
module GroqAiService {
  import opened Wrappers
  import opened Text

  const ModelName: string := "llama-3.3-70b-versatile"
  /** The request's temperature, 0.7, in tenths. */
  const TemperatureTenths: int := 7
  const MaxTokens: int := 2048
  const SystemRole: string := "system"
  const ErrorPrefix: string := "AI service error: "

  /** One `{role, content}` entry of the messages array. */
  datatype Turn = Turn(role: string, content: string)

  datatype CompletionRequest = CompletionRequest(model: string, messages: seq<Turn>,
                                                 temperatureTenths: int, maxTokens: int)

  /** `choices[i].message`, either of whose parts may be missing. */
  datatype ChoiceMessage = ChoiceMessage(content: Option<string>)
  datatype Choice = Choice(message: Option<ChoiceMessage>)

  /** What the SDK call yields: a completion, or a thrown error's message. */
  datatype SdkAnswer = Completed(choices: seq<Choice>) | Failed(message: string)

  /** The messages sent: a system turn first exactly when the prompt is
      truthy, then every conversation turn in order. */
  function FormatMessages(messages: seq<Turn>, systemPrompt: Option<string>): (r: seq<Turn>)
    ensures Truthy(systemPrompt) ==> |r| == |messages| + 1 && r[0] == Turn(SystemRole, systemPrompt.value)
    ensures Truthy(systemPrompt) ==> forall i :: 0 <= i < |messages| ==> r[i + 1] == messages[i]
    ensures !Truthy(systemPrompt) ==> r == messages
  {
    (if Truthy(systemPrompt) then [Turn(SystemRole, systemPrompt.value)] else []) + messages
  }

  /** The request `generateCompletion` sends. */
  function RequestFor(messages: seq<Turn>, systemPrompt: Option<string>): CompletionRequest {
    CompletionRequest(ModelName, FormatMessages(messages, systemPrompt), TemperatureTenths, MaxTokens)
  }

  /** `completion.choices[0]?.message?.content || ''`. */
  function CompletionText(choices: seq<Choice>): (r: string)
    ensures r == "" <==> choices == [] || choices[0].message.None? || !Truthy(choices[0].message.value.content)
    ensures r != "" ==> r == choices[0].message.value.content.value
  {
    if choices == [] then ""
    else match choices[0].message
      case None => ""
      case Some(m) => m.content.GetOr("")
  }

  /** `generateCompletion(messages, systemPrompt)`: the reply text, or the
      SDK's error message behind "AI service error: ". */
  function GenerateCompletion(messages: seq<Turn>, systemPrompt: Option<string>,
                              sdk: CompletionRequest -> SdkAnswer): (r: Result<string>)
    ensures sdk(RequestFor(messages, systemPrompt)).Failed? ==>
              r == Err(ErrorPrefix + sdk(RequestFor(messages, systemPrompt)).message)
    ensures sdk(RequestFor(messages, systemPrompt)).Completed? ==>
              r == Ok(CompletionText(sdk(RequestFor(messages, systemPrompt)).choices))
  {
    match sdk(RequestFor(messages, systemPrompt))
    case Failed(msg) => Err(ErrorPrefix + msg)
    case Completed(choices) => Ok(CompletionText(choices))
  }

  /** Every request carries the fixed model and sampling settings, and a
      falsy prompt adds no system turn. */
  lemma RequestShape(messages: seq<Turn>, systemPrompt: Option<string>)
    ensures RequestFor(messages, systemPrompt).model == ModelName
    ensures RequestFor(messages, systemPrompt).maxTokens == MaxTokens
    ensures RequestFor(messages, systemPrompt).temperatureTenths == TemperatureTenths
    ensures (forall i :: 0 <= i < |messages| ==> messages[i].role != SystemRole) ==>
              ((exists i :: 0 <= i < |RequestFor(messages, systemPrompt).messages|
                            && RequestFor(messages, systemPrompt).messages[i].role == SystemRole)
               <==> Truthy(systemPrompt))
  {
    var r := RequestFor(messages, systemPrompt).messages;
    if Truthy(systemPrompt) {
      assert r[0].role == SystemRole;
    } else {
      assert r == messages;
    }
  }

  /** `isAvailable()`: whether an API key is configured. */
  predicate IsAvailable(apiKey: Option<string>): (b: bool)
    ensures b <==> apiKey.Some? && apiKey.value != ""
  {
    Truthy(apiKey)
  }
}
