# Reka provider adapter — request building and accounting

A Dafny model of the request-building and accounting layer of the Reka
adapter of the pyllms client library (`RekaProvider`). The adapter turns the
common call parameters (prompt, history, system message, temperature, token
budget, extra keyword arguments) into the vendor's chat payload, counts
prompt and completion tokens with a general-purpose tokenizer, and turns the
vendor's streamed chunks into text fragments.

The model is pure, as the adapter is: the message list is built by rebinding
a local to fresh lists, the payload is one dictionary literal, token counting
is a sum over a list, and stream extraction maps each chunk to its text.

- `wrappers.dfy`: `Option` and `Result`.
- `reka.dfy`, module `Reka`: the data model (messages as string dictionaries,
  the system-message argument as `NoSystemMessage | SystemText | SystemList`,
  payload values as a sum type), provider construction and its default
  model, `BuildMessages` and `PrepareModelInputs`, token counting with the
  tokenizer as a parameter, `ProcessStream`, and `Complete` /
  `CompleteStream`, which take the vendor's answer (or its chunks) as a
  parameter in place of the network call.

Python's keyword binding is part of the model. A keyword that names one of a
function's own parameters is bound to that parameter and never reaches its
`**kwargs`. So the extra keyword arguments of `_prepare_model_inputs` never
hold `temperature`, `max_tokens` or `stream`, and the only payload key a
caller can override is `messages` (`PrepareModelInputs` requires
`kwargs.Keys !! PrepareParameters`). `complete` and `complete_stream` have no
`stream` parameter. A `stream` keyword given to them reaches
`_prepare_model_inputs` through `**kwargs`, is bound to its `stream`
parameter there, and is dropped. A `model` keyword ends up in the payload
and then collides with `model=self.model` at the vendor call, where Python
raises a `TypeError` (`CallArguments`). When `messages` is overridden, the
prompt token count is taken over the override. If the override is neither a
string nor a list, the tokenizer raises (`NotTokenizable`). A streamed chunk
with an empty `responses` list makes `responses[0]` raise an `IndexError`,
which ends the stream (`StreamOutcome.raised`).

Three facts about the code that are easy to get wrong:

- A string's token count need not be monotone under concatenation. It
  depends entirely on the tokenizer, and `PlainCountNotMonotone` exhibits a
  tokenizer for which it fails. For message lists the count is monotone
  (`CountTokensConcat`).
- `BuildMessages` gives the single user message for every prompt, the empty
  one included.
- The type hint of `complete` says `system_message` is a list. The value is
  passed through unchanged, so a string system message works there as well,
  and `Complete` accepts every `SystemMessage`.

## Model

| member | source | states |
|---|---|---|
| `Reka.NewProvider` | llms/providers/reka.py:11-26 | no model name gives "reka-core", which has a MODEL_INFO entry with a 128000 token limit; any given name, even an empty one, is kept unchanged |
| `Reka.BuildMessages` | llms/providers/reka.py:48-56 | the messages are the system part, then the history, then the user prompt, so their length is the sum of the parts' lengths plus one; the last message has role "user" and holds the prompt; with no history and no system message the list is exactly the one user message; a string system message is the one leading `{"role": "system", "content": s}` entry; a list system message is a verbatim prefix; the history sits right before the user prompt |
| `Reka.PrepareModelInputs` | llms/providers/reka.py:38-64 | the payload's keys are messages, temperature and max_tokens plus the extra keywords; each extra keyword keeps its value and overrides `messages` when it names it; temperature and max_tokens hold the arguments; `stream` never appears |
| `Reka.HistoryTruthiness` | llms/providers/reka.py:50-51 | an absent history and an empty history build the same list: the system part followed by the user message |
| `Reka.EmptySystemTextCounts` | llms/providers/reka.py:53-54 | a string system message is type-tested, not truthiness-tested: the empty string still adds one system entry with empty content |
| `Reka.HistoryInOrder` | llms/providers/reka.py:50-56 | history entry i ends up at position (system part length + i), so the history keeps its order |
| `Reka.SumTokensAppend` | llms/providers/reka.py:33-34 | the token count of a concatenated message list is the sum of the two parts' counts |
| `Reka.CountTokensConcat` | llms/providers/reka.py:30-36 | the count of an empty list is 0; a one-message list counts the encoded length of that message's text form; the count is additive over concatenation; each part counts no more than the whole |
| `Reka.SumTokens` | llms/providers/reka.py:34 | every message of a list counts no more than the whole list, and the list counts zero exactly when every message counts zero |
| `Reka.CountTokens` | llms/providers/reka.py:30-36 | a string is counted by one tokenizer call; a list is counted as the sum over its messages, so the empty list counts 0 and every message counts no more than the list |
| `Reka.AsContent` | llms/providers/reka.py:33-36 | the payload's `messages` value can be counted exactly when it is a list or a string; a list is counted as a list and a string as a string |
| `Reka.PlainCountNotMonotone` | llms/providers/reka.py:35-36 | a string is counted by one tokenizer call, so for some tokenizer a string counts fewer tokens than its prefix |
| `Reka.ProcessStream` | llms/providers/reka.py:163-165 | there is one fragment per chunk, in chunk order, each equal to the chunk's first response's content; the stream raises exactly when some chunk has no responses, and it stops at the first such chunk; with no such chunk, the number of fragments equals the number of chunks |
| `Reka.ProcessStreamAppend` | llms/providers/reka.py:163-165 | streaming chunks a then b, when a ends cleanly, gives a's fragments followed by b's, and ends the way b ends |
| `Reka.ForwardedKeywords` | llms/providers/reka.py:81 | the keywords `complete` passes on reach `_prepare_model_inputs`'s `**kwargs` minus `stream`, with their values unchanged, and never name one of its parameters |
| `Reka.PrepareForCaller` | llms/providers/reka.py:75-82 | the payload `complete` and `complete_stream` prepare equals the one prepared from their keyword arguments without `stream`: a `stream` keyword is bound to the parameter and dropped, whatever its value, and never reaches the payload |
| `Reka.CallArguments` | llms/providers/reka.py:85 | the vendor call gets `model` plus every payload entry unchanged; a payload that already holds `model` raises a duplicate-keyword error |
| `Reka.Complete` | llms/providers/reka.py:66-101 | it succeeds exactly when no `model` keyword is given and `messages` is not overridden by something other than a string or list; the text is the vendor's answer; the echoed payload is the prepared one, with `stream` consumed; completion tokens are the encoded length of the answer; prompt tokens are the count of whatever the payload's `messages` holds: the built messages, or the overriding list or string |
| `Reka.CompletePromptTokens` | llms/providers/reka.py:75-89 | without keyword overrides, the prompt token count is the system part's count plus the history's count plus the user message's count |
| `Reka.CompleteStream` | llms/providers/reka.py:140-161 | it fails exactly when a `model` keyword is given; the payload is the prepared one, without `stream`; the stream is exactly `ProcessStream` of the vendor's chunks, so it raises at the first chunk without responses after yielding the fragments before it; when every chunk has a response, there is one fragment per chunk, each the content of that chunk's first response |

## Left out

- The vendor SDK calls (`chat.create`, `chat.create_stream`) are network I/O. `Complete` takes the vendor's answer text and `CompleteStream` takes its chunk sequence as parameters. Vendor-side errors are not modelled.
- `acomplete`, `acomplete_stream` and `_aprocess_stream` are asynchronous copies of the synchronous paths and are not modelled separately.
- The tokenizer internals (`tiktoken`) and Python's `str` of a message dictionary are the two arrows of the `Tokenizer` parameter, so nothing is assumed about what they return. Because messages are modelled as unordered maps, the key order that `str` would render is not captured.
- Tokenizer failures are not modelled: `encode` and `show` are total. So `tiktoken.encoding_for_model` failing, and `encode` raising for a string that holds a special token such as `<|endoftext|>`, are not represented. For such a string `Complete` returns `Ok` where `complete` raises after the vendor call.
- `track_latency`, `self.latency` and the `latency` metadata entry are wall-clock timing in a base class that is not part of this model.
- The `Result`, `StreamResult` and `AsyncStreamResult` constructors belong to a results module that is not part of this model. `Completion` and `StreamCompletion` stand in for them.
- The float prices in `MODEL_INFO` are static floating-point data and are left out. The model names and token limits are kept.
- `.strip()` on the vendor response depends on the SDK's response shape and on Python's Unicode whitespace rules. The answer given to `Complete` is the already-stripped text.
- Client construction from `api_key` (`Reka`, `AsyncReka`) is vendor SDK code.
- The generator's laziness and single-pass behaviour are Python runtime semantics. `ProcessStream` describes a consumer that drains the whole stream.
- Values of other Python types are not modelled: payload values are messages, strings, numbers (a Python float as an exact `real`, without rounding) and booleans, and a system message or history of another type is not represented.
- `llms/providers/__init__.py` only re-exports the adapters, so there is nothing to model.
