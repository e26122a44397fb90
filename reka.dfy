/**
 * The request-building and accounting layer of the Reka provider adapter:
 * provider construction with its default model, the chat message list and
 * request payload, token accounting over message lists, stream fragment
 * extraction, and how `complete` and `complete_stream` tie these together.
 * The vendor client and the tokenizer are outside; the vendor's answer and
 * the tokenizer enter as parameters.
 */
module Reka {
  import opened Wrappers

  // ---------------------------------------------------------------------
  // Data model
  // ---------------------------------------------------------------------

  /** A chat message as the vendor API takes it: a dictionary of string fields
      such as "role" and "content". History entries are passed through verbatim. */
  type Message = map<string, string>

  /** The `system_message` argument: absent, a single string, or a list of
      ready-made messages. */
  datatype SystemMessage =
    | NoSystemMessage
    | SystemText(text: string)
    | SystemList(messages: seq<Message>)

  /** A value of the request payload or of a keyword argument. */
  datatype Value =
    | MessageList(messages: seq<Message>)
    | Text(text: string)
    | Number(number: real)
    | Integer(integer: int)
    | Flag(flag: bool)

  /** Keyword arguments and the request payload: keyword name to value. */
  type Payload = map<string, Value>

  /** The errors the adapter's own code raises. */
  datatype Error =
    /** Python's TypeError for a keyword given twice in one call. */
    | DuplicateKeyword(name: string)
    /** The tokenizer was handed something that is neither a string nor a list. */
    | NotTokenizable

  // ---------------------------------------------------------------------
  // Provider construction (RekaProvider.__init__ and MODEL_INFO)
  // ---------------------------------------------------------------------

  /** The static per-model data; the prices are left out, the token limit kept. */
  datatype ModelSpec = ModelSpec(tokenLimit: nat)

  const ModelInfo: map<string, ModelSpec> :=
    map["reka-edge" := ModelSpec(128000),
        "reka-flash" := ModelSpec(128000),
        "reka-core" := ModelSpec(128000)]

  const DefaultModel: string := "reka-core"

  /** The adapter's state that the modelled requests read: the model name.
      It is set once, at construction. */
  datatype Provider = Provider(model: string)

  /** Constructs a provider: an absent model name selects the default model;
      any given name, the empty string included, is kept as it is. */
  function NewProvider(model: Option<string> := None): (p: Provider)
    ensures model.None? ==> p.model == "reka-core" && p.model in ModelInfo
    ensures model.None? ==> ModelInfo[p.model].tokenLimit == 128000
    ensures model.Some? ==> p.model == model.value
  {
    match model
    case None => Provider(DefaultModel)
    case Some(name) => Provider(name)
  }

  // ---------------------------------------------------------------------
  // Message list and payload (RekaProvider._prepare_model_inputs)
  // ---------------------------------------------------------------------

  /** The message that carries the new prompt. */
  function UserMessage(prompt: string): Message {
    map["content" := prompt, "role" := "user"]
  }

  /** The message a string system message is wrapped into. */
  function SystemEntry(text: string): Message {
    map["role" := "system", "content" := text]
  }

  /** What the system message contributes ahead of everything else: one entry
      for a string (even the empty string), the list itself for a list, nothing
      when absent. */
  function SystemPart(system: SystemMessage): seq<Message> {
    match system
    case NoSystemMessage => []
    case SystemText(text) => [SystemEntry(text)]
    case SystemList(messages) => messages
  }

  /** What the history contributes: the history is tested for truthiness, so
      both an absent and an empty history contribute nothing. */
  function HistoryPart(history: Option<seq<Message>>): seq<Message> {
    match history
    case None => []
    case Some(messages) => messages
  }

  /** Builds the chat message list the way the adapter does: start from the
      user prompt, put a non-empty history in front of it, then put the system
      part in front of that. */
  function BuildMessages(prompt: string, history: Option<seq<Message>>, system: SystemMessage): (ms: seq<Message>)
    ensures ms == SystemPart(system) + HistoryPart(history) + [UserMessage(prompt)]
    ensures |ms| == |SystemPart(system)| + |HistoryPart(history)| + 1
    ensures ms[|ms| - 1] == UserMessage(prompt)
    ensures ms[|ms| - 1]["role"] == "user" && ms[|ms| - 1]["content"] == prompt
    ensures history.None? && system.NoSystemMessage? ==> ms == [map["content" := prompt, "role" := "user"]]
    ensures ms[|ms| - 1 - |HistoryPart(history)| .. |ms| - 1] == HistoryPart(history)
    ensures ms[.. |SystemPart(system)|] == SystemPart(system)
    ensures system.SystemText? ==> ms[0] == map["role" := "system", "content" := system.text]
    ensures system.SystemText? ==> ms[1..] == HistoryPart(history) + [UserMessage(prompt)]
    ensures system.SystemList? ==> ms[.. |system.messages|] == system.messages
    ensures system.NoSystemMessage? ==> ms == HistoryPart(history) + [UserMessage(prompt)]
  {
    var user := [UserMessage(prompt)];
    var messages := if history.Some? && |history.value| > 0 then history.value + user else user;
    var messages :=
      match system
      case SystemText(text) => [SystemEntry(text)] + messages
      case SystemList(list) => list + messages
      case NoSystemMessage => messages;
    PartsOfThree(SystemPart(system), HistoryPart(history), user);
    messages
  }

  /** The three parts of a concatenation are recovered by slicing it. */
  lemma PartsOfThree<T>(x: seq<T>, y: seq<T>, z: seq<T>)
    ensures x + y + z == x + (y + z)
    ensures (x + y + z)[.. |x|] == x
    ensures (x + y + z)[|x| .. |x| + |y|] == y
    ensures (x + y + z)[|x| + |y| ..] == z
  {
  }

  /** The keyword names `_prepare_model_inputs` binds to its own parameters;
      Python never collects these into its `**kwargs`. */
  const PrepareParameters: set<string> :=
    {"self", "prompt", "history", "system_message", "temperature", "max_tokens", "stream"}

  /** Builds the request payload: the message list, the temperature and the
      token budget, followed by every extra keyword argument, a later key
      overriding an earlier one. The `stream` argument is consumed. The
      temperature is passed through as given; its default is the integer 0. */
  function PrepareModelInputs(
    prompt: string,
    history: Option<seq<Message>> := None,
    system: SystemMessage := NoSystemMessage,
    temperature: Value := Integer(0),
    maxTokens: int := 300,
    stream: Value := Flag(false),
    kwargs: Payload := map[]
  ): (r: Payload)
    requires kwargs.Keys !! PrepareParameters
    ensures r.Keys == {"messages", "temperature", "max_tokens"} + kwargs.Keys
    ensures "stream" !in r
    ensures r["temperature"] == temperature && r["max_tokens"] == Integer(maxTokens)
    ensures forall k :: k in kwargs ==> r[k] == kwargs[k]
    ensures "messages" !in kwargs ==> r["messages"] == MessageList(BuildMessages(prompt, history, system))
  {
    map["messages" := MessageList(BuildMessages(prompt, history, system)),
        "temperature" := temperature,
        "max_tokens" := Integer(maxTokens)] + kwargs
  }

  /** An absent history and an empty one build the same messages. */
  lemma HistoryTruthiness(prompt: string, system: SystemMessage)
    ensures BuildMessages(prompt, None, system) == BuildMessages(prompt, Some([]), system)
    ensures BuildMessages(prompt, None, system) == SystemPart(system) + [UserMessage(prompt)]
  {
  }

  /** Unlike the history, a string system message is not tested for
      truthiness: the empty string still adds one system entry. */
  lemma EmptySystemTextCounts(prompt: string, history: Option<seq<Message>>)
    ensures |BuildMessages(prompt, history, SystemText(""))| == |BuildMessages(prompt, history, NoSystemMessage)| + 1
    ensures BuildMessages(prompt, history, SystemText(""))[0] == map["role" := "system", "content" := ""]
  {
  }

  /** Each history entry keeps its position relative to the others: entry i
      sits right after the system part, at offset i. */
  lemma HistoryInOrder(prompt: string, history: seq<Message>, system: SystemMessage, i: nat)
    requires i < |history|
    ensures BuildMessages(prompt, Some(history), system)[|SystemPart(system)| + i] == history[i]
  {
  }

  // ---------------------------------------------------------------------
  // Token accounting (RekaProvider.count_tokens)
  // ---------------------------------------------------------------------

  /** The tokenizer, which is outside the model: `encode` stands for the
      tokenizer's encoding, `show` for Python's `str` of a message dictionary.
      Nothing is assumed about what they return, but both are total: a
      tokenizer that fails to load or refuses a string is not represented. */
  datatype Tokenizer = Tokenizer(encode: string -> seq<int>, show: Message -> string)

  /** What `count_tokens` accepts: a string, or a list of messages. */
  datatype Content = Plain(text: string) | Items(messages: seq<Message>)

  /** The token count of one list element: the length of the encoding of its text form. */
  function MessageTokens(tok: Tokenizer, m: Message): nat {
    |tok.encode(tok.show(m))|
  }

  /** The sum of the per-element token counts of a message list: each element
      counts no more than the whole, and the whole is zero exactly when every
      element counts zero. */
  function SumTokens(tok: Tokenizer, ms: seq<Message>): (n: nat)
    ensures forall i :: 0 <= i < |ms| ==> MessageTokens(tok, ms[i]) <= n
    ensures n == 0 <==> forall i :: 0 <= i < |ms| ==> MessageTokens(tok, ms[i]) == 0
  {
    assert forall j :: 0 <= j < |ms| - 1 ==> ms[1..][j] == ms[j + 1];
    if ms == [] then 0 else MessageTokens(tok, ms[0]) + SumTokens(tok, ms[1..])
  }

  /** `count_tokens`: a list is counted element by element, a string by one
      call of the tokenizer. */
  function CountTokens(tok: Tokenizer, content: Content): (n: nat)
    ensures content.Plain? ==> n == |tok.encode(content.text)|
    ensures content.Items? ==> n == SumTokens(tok, content.messages)
    ensures content.Items? ==> forall i :: 0 <= i < |content.messages| ==>
      |tok.encode(tok.show(content.messages[i]))| <= n
    ensures content == Items([]) ==> n == 0
  {
    match content
    case Items(messages) => SumTokens(tok, messages)
    case Plain(text) => |tok.encode(text)|
  }

  /** Counting is additive over concatenation of message lists. */
  lemma {:induction false} SumTokensAppend(tok: Tokenizer, a: seq<Message>, b: seq<Message>)
    ensures SumTokens(tok, a + b) == SumTokens(tok, a) + SumTokens(tok, b)
  {
    if a == [] {
      assert a + b == b;
    } else {
      assert (a + b)[1..] == a[1..] + b;
      SumTokensAppend(tok, a[1..], b);
    }
  }

  /** The count of a list is the sum of its parts' counts; the empty list counts
      zero, a single message its own count, and each part no more than the whole. */
  lemma CountTokensConcat(tok: Tokenizer, a: seq<Message>, b: seq<Message>)
    ensures CountTokens(tok, Items([])) == 0
    ensures forall m :: CountTokens(tok, Items([m])) == |tok.encode(tok.show(m))|
    ensures CountTokens(tok, Items(a + b)) == CountTokens(tok, Items(a)) + CountTokens(tok, Items(b))
    ensures CountTokens(tok, Items(a)) <= CountTokens(tok, Items(a + b))
    ensures CountTokens(tok, Items(b)) <= CountTokens(tok, Items(a + b))
  {
    SumTokensAppend(tok, a, b);
    forall m ensures CountTokens(tok, Items([m])) == |tok.encode(tok.show(m))| {
      assert [m][1..] == [];
      assert SumTokens(tok, [m]) == MessageTokens(tok, m) + SumTokens(tok, []);
    }
  }

  /** A tokenizer under which a string has fewer tokens than its prefix: the
      count of a string is not monotone in the string for an arbitrary tokenizer. */
  lemma PlainCountNotMonotone()
    ensures
      var tok := Tokenizer(s => if s == "a" then [1, 2] else [3], m => "");
      CountTokens(tok, Plain("a" + "b")) < CountTokens(tok, Plain("a"))
  {
    var tok := Tokenizer(s => if s == "a" then [1, 2] else [3], m => "");
    assert "a" + "b" != "a" by { assert |"a" + "b"| == 2; }
  }

  // ---------------------------------------------------------------------
  // Stream fragments (RekaProvider._process_stream)
  // ---------------------------------------------------------------------

  /** The piece of text one streamed chunk response carries. */
  datatype ChunkDelta = ChunkDelta(content: string)

  datatype ChunkResponse = ChunkResponse(chunk: ChunkDelta)

  /** One chunk the vendor delivers; only its first response is read. */
  datatype StreamChunk = StreamChunk(responses: seq<ChunkResponse>)

  /** The fragments a consumer receives when it drains the stream, and whether
      the stream ended by raising (an IndexError for a chunk with no responses). */
  datatype StreamOutcome = StreamOutcome(fragments: seq<string>, raised: bool)

  predicate Deliverable(c: StreamChunk) {
    |c.responses| > 0
  }

  function Fragment(c: StreamChunk): string
    requires Deliverable(c)
  {
    c.responses[0].chunk.content
  }

  /** Drains the fragment stream: one fragment per chunk, in delivery order,
      each the content of the chunk's first response, up to the first chunk
      without responses, at which the stream raises. */
  function ProcessStream(chunks: seq<StreamChunk>): (r: StreamOutcome)
    ensures |r.fragments| <= |chunks|
    ensures forall i :: 0 <= i < |r.fragments| ==>
      Deliverable(chunks[i]) && r.fragments[i] == chunks[i].responses[0].chunk.content
    ensures r.raised <==> exists i :: 0 <= i < |chunks| && !Deliverable(chunks[i])
    ensures r.raised ==> !Deliverable(chunks[|r.fragments|])
    ensures !r.raised ==> |r.fragments| == |chunks|
  {
    if chunks == [] then
      StreamOutcome([], false)
    else if !Deliverable(chunks[0]) then
      StreamOutcome([], true)
    else
      var rest := ProcessStream(chunks[1..]);
      assert forall j :: 0 <= j < |chunks| - 1 ==> chunks[1..][j] == chunks[j + 1];
      StreamOutcome([Fragment(chunks[0])] + rest.fragments, rest.raised)
  }

  /** Draining a stream that starts with a deliverable chunk yields that
      chunk's fragment, then whatever the rest yields. */
  lemma ProcessStreamCons(c: StreamChunk, rest: seq<StreamChunk>)
    requires Deliverable(c)
    ensures ProcessStream([c] + rest) ==
      StreamOutcome([Fragment(c)] + ProcessStream(rest).fragments, ProcessStream(rest).raised)
  {
    assert ([c] + rest)[0] == c && ([c] + rest)[1..] == rest;
  }

  lemma ConcatAssociates<T>(x: seq<T>, y: seq<T>, z: seq<T>)
    ensures (x + y) + z == x + (y + z)
  {
  }

  /** Draining a stream whose first part ends cleanly yields the first part's
      fragments followed by the second part's. */
  lemma {:induction false} ProcessStreamAppend(a: seq<StreamChunk>, b: seq<StreamChunk>)
    requires !ProcessStream(a).raised
    ensures ProcessStream(a + b).fragments == ProcessStream(a).fragments + ProcessStream(b).fragments
    ensures ProcessStream(a + b).raised == ProcessStream(b).raised
  {
    if a == [] {
      assert a + b == b;
    } else {
      var c, tail := a[0], a[1..];
      assert a == [c] + tail;
      assert Deliverable(c);
      ConcatAssociates([c], tail, b);
      ProcessStreamCons(c, tail);
      ProcessStreamCons(c, tail + b);
      ProcessStreamAppend(tail, b);
      ConcatAssociates([Fragment(c)], ProcessStream(tail).fragments, ProcessStream(b).fragments);
    }
  }

  // ---------------------------------------------------------------------
  // complete and complete_stream, with the vendor call as a parameter
  // ---------------------------------------------------------------------

  /** The keyword names `complete` and `complete_stream` bind to their own
      parameters; `stream` is not among them, so it reaches `**kwargs`. */
  const CompleteParameters: set<string> :=
    {"self", "prompt", "history", "system_message", "temperature", "max_tokens"}

  /** The keyword arguments of the vendor call `create(model=..., **model_inputs)`:
      Python raises when the payload also holds `model`. */
  function CallArguments(p: Provider, modelInputs: Payload): (r: Result<Payload, Error>)
    ensures r.Err? <==> "model" in modelInputs
    ensures r.Err? ==> r.error == DuplicateKeyword("model")
    ensures r.Ok? ==> r.value.Keys == modelInputs.Keys + {"model"}
    ensures r.Ok? ==> r.value["model"] == Text(p.model)
    ensures r.Ok? ==> forall k :: k in modelInputs ==> r.value[k] == modelInputs[k]
  {
    if "model" in modelInputs then Err(DuplicateKeyword("model"))
    else Ok(map["model" := Text(p.model)] + modelInputs)
  }

  /** The `stream` keyword as `_prepare_model_inputs` receives it from a caller's `**kwargs`. */
  function StreamArgument(kwargs: Payload): Value {
    if "stream" in kwargs then kwargs["stream"] else Flag(false)
  }

  /** The extra keywords `_prepare_model_inputs` collects when a caller passes
      its own `**kwargs` on: all of them except `stream`. */
  function ForwardedKeywords(kwargs: Payload): (r: Payload)
    requires kwargs.Keys !! CompleteParameters
    ensures r.Keys !! PrepareParameters
    ensures r.Keys == kwargs.Keys - {"stream"}
    ensures forall k :: k in r ==> r[k] == kwargs[k]
  {
    kwargs - {"stream"}
  }

  /** The payload `complete` and `complete_stream` prepare: their keyword
      arguments are passed on, and a `stream` among them is bound to the
      `stream` parameter and so is dropped, whatever its value. */
  function PrepareForCaller(
    prompt: string, history: Option<seq<Message>>, system: SystemMessage,
    temperature: Value, maxTokens: int, kwargs: Payload
  ): (r: Payload)
    requires kwargs.Keys !! CompleteParameters
    ensures r == PrepareModelInputs(prompt, history, system, temperature, maxTokens, kwargs := ForwardedKeywords(kwargs))
    ensures "stream" !in r
  {
    PrepareModelInputs(prompt, history, system, temperature, maxTokens, StreamArgument(kwargs), ForwardedKeywords(kwargs))
  }

  /** What `count_tokens` makes of the payload's `messages` entry: a list is
      counted as a list, a string as a string, and anything else makes the
      tokenizer raise. */
  function AsContent(v: Value): (c: Option<Content>)
    ensures c.Some? <==> v.MessageList? || v.Text?
    ensures v.MessageList? ==> c == Some(Items(v.messages))
    ensures v.Text? ==> c == Some(Plain(v.text))
  {
    match v
    case MessageList(messages) => Some(Items(messages))
    case Text(text) => Some(Plain(text))
    case _ => None
  }

  /** The token counts recorded in a completion's metadata. */
  datatype Meta = Meta(tokensPrompt: nat, tokensCompletion: nat)

  /** A completion: its text, the payload sent, and the token metadata. */
  datatype Completion = Completion(text: string, modelInputs: Payload, meta: Meta)

  /** `complete`, given the (stripped) text the vendor answers with: build the
      payload, call the vendor, count the prompt tokens over the payload's
      `messages` and the completion tokens over the answer. */
  function Complete(
    p: Provider,
    tok: Tokenizer,
    answer: string,
    prompt: string,
    history: Option<seq<Message>> := None,
    system: SystemMessage := NoSystemMessage,
    temperature: Value := Integer(0),
    maxTokens: int := 300,
    kwargs: Payload := map[]
  ): (r: Result<Completion, Error>)
    requires kwargs.Keys !! CompleteParameters
    ensures r.Ok? <==>
      "model" !in kwargs &&
      ("messages" in kwargs ==> kwargs["messages"].MessageList? || kwargs["messages"].Text?)
    ensures "model" in kwargs ==> r == Err(DuplicateKeyword("model"))
    ensures r.Err? && "model" !in kwargs ==> r.error == NotTokenizable
    ensures r.Ok? ==> r.value.text == answer
    ensures r.Ok? ==> r.value.modelInputs == PrepareForCaller(prompt, history, system, temperature, maxTokens, kwargs)
    ensures r.Ok? ==> "stream" !in r.value.modelInputs
    ensures r.Ok? ==> r.value.meta.tokensCompletion == |tok.encode(answer)|
    ensures r.Ok? ==>
      && AsContent(r.value.modelInputs["messages"]).Some?
      && r.value.meta.tokensPrompt == CountTokens(tok, AsContent(r.value.modelInputs["messages"]).value)
    ensures r.Ok? && "messages" !in kwargs ==>
      r.value.meta.tokensPrompt == CountTokens(tok, Items(BuildMessages(prompt, history, system)))
    ensures r.Ok? && "messages" in kwargs ==>
      r.value.meta.tokensPrompt == CountTokens(tok, AsContent(kwargs["messages"]).value)
  {
    var modelInputs := PrepareForCaller(prompt, history, system, temperature, maxTokens, kwargs);
    match CallArguments(p, modelInputs)
    case Err(e) => Err(e)
    case Ok(_) =>
      match AsContent(modelInputs["messages"])
      case None => Err(NotTokenizable)
      case Some(content) =>
        Ok(Completion(answer, modelInputs, Meta(CountTokens(tok, content), CountTokens(tok, Plain(answer)))))
  }

  /** With the adapter's own message list, the prompt count is the system
      part's count plus the history's plus the user message's. */
  lemma CompletePromptTokens(
    p: Provider, tok: Tokenizer, answer: string, prompt: string,
    history: Option<seq<Message>>, system: SystemMessage, temperature: Value, maxTokens: int, kwargs: Payload)
    requires kwargs.Keys !! CompleteParameters
    requires "messages" !in kwargs && "model" !in kwargs
    ensures Complete(p, tok, answer, prompt, history, system, temperature, maxTokens, kwargs).Ok?
    ensures Complete(p, tok, answer, prompt, history, system, temperature, maxTokens, kwargs).value.meta.tokensPrompt ==
      SumTokens(tok, SystemPart(system)) + SumTokens(tok, HistoryPart(history)) + MessageTokens(tok, UserMessage(prompt))
  {
    var sys, hist, user := SystemPart(system), HistoryPart(history), [UserMessage(prompt)];
    var r := Complete(p, tok, answer, prompt, history, system, temperature, maxTokens, kwargs);
    assert r.value.meta.tokensPrompt == SumTokens(tok, sys + hist + user);
    SumTokensAppend(tok, sys + hist, user);
    SumTokensAppend(tok, sys, hist);
    assert SumTokens(tok, user) == MessageTokens(tok, UserMessage(prompt)) by {
      assert user[1..] == [];
    }
  }

  /** A streamed completion: the drained fragments and the payload sent. */
  datatype StreamCompletion = StreamCompletion(stream: StreamOutcome, modelInputs: Payload)

  /** `complete_stream`, given the chunks the vendor delivers: build the
      payload, call the streaming endpoint, and extract the fragments. No
      token counts are taken. */
  function CompleteStream(
    p: Provider,
    chunks: seq<StreamChunk>,
    prompt: string,
    history: Option<seq<Message>> := None,
    system: SystemMessage := NoSystemMessage,
    temperature: Value := Integer(0),
    maxTokens: int := 300,
    kwargs: Payload := map[]
  ): (r: Result<StreamCompletion, Error>)
    requires kwargs.Keys !! CompleteParameters
    ensures r.Err? <==> "model" in kwargs
    ensures r.Err? ==> r.error == DuplicateKeyword("model")
    ensures r.Ok? ==> r.value.modelInputs == PrepareForCaller(prompt, history, system, temperature, maxTokens, kwargs)
    ensures r.Ok? ==> "stream" !in r.value.modelInputs
    ensures r.Ok? ==> r.value.stream == ProcessStream(chunks)
    ensures r.Ok? ==> |r.value.stream.fragments| <= |chunks|
    ensures r.Ok? && (forall i :: 0 <= i < |chunks| ==> |chunks[i].responses| > 0) ==>
      !r.value.stream.raised &&
      |r.value.stream.fragments| == |chunks| &&
      forall i :: 0 <= i < |chunks| ==> r.value.stream.fragments[i] == chunks[i].responses[0].chunk.content
  {
    var modelInputs := PrepareForCaller(prompt, history, system, temperature, maxTokens, kwargs);
    match CallArguments(p, modelInputs)
    case Err(e) => Err(e)
    case Ok(_) => Ok(StreamCompletion(ProcessStream(chunks), modelInputs))
  }
}
