# LLM chat app: provider adapter and transcript

A model of the chat handling of a single-page Streamlit chat app (`app.py`).
Each submitted prompt is recorded in the session's transcript. If an API key
was entered, the prompt becomes one HTTP POST to one of three providers
(Google Gemini, OpenRouter, Groq). The response, or the failure to get one,
becomes the assistant's reply, and that reply is always recorded after the prompt.

Modules:

- `Wrappers` (wrappers.dfy): `Option` and `Result`.
- `Text` (text.dfy): decimal rendering of the status code in error texts. It
  comes with a parser, used to state that nothing is lost.
- `Json` (json.dfy): parsed JSON documents and Python's subscript operator on
  them. A subscript either yields a value or faults with a `KeyError`,
  `IndexError` or `TypeError`. `Walk` applies a chain of subscripts, and
  `Plant` builds the smallest document that holds a value at a given path.
- `Adapter` (adapter.dfy): per-provider request building (`BuildRequest`),
  response decoding (`DecodeReply`), the error and exception texts, and the
  reply for one prompt (`TurnReply`).
- `Session` (session.dfy): messages, the transcript invariant and the
  `ChatSession` class. The class holds the transcript and has the `Clear`,
  `HandleTurn` and `Rerun` methods.

The network is a parameter, `post: Request -> Outcome`. An `Outcome` is
either a transport failure carrying the exception text, or a status, the raw
body text and what `response.json()` gives. That last part is the document,
or the text of the exception it raises. The text of the exception a failed
subscript raises (`str(e)`) is the parameter `describe: Fault -> string`.

Two behaviours of the code are worth stating outright:

- With no API key, the user message is still followed by an assistant
  message, whose content is the placeholder "⚠️ No response yet."
  (app.py:58, 110). No request is built.
- A reply found at the reply path is stored as it is. It is not converted to
  text, so a `null` content from OpenRouter is stored as null. For this
  reason a message's content is a JSON value.

## Model

| member | source | states |
|---|---|---|
| `Text.Decimal` | app.py:73 | the status code is rendered as at least one decimal digit with no leading zero |
| `Text.ParseDecimalOfDecimal` | app.py:73 | reading the rendered status back gives the status: the rendering is injective |
| `Json.Subscript` | app.py:71 | a subscript succeeds exactly on a dict with that key, or on a list or str long enough for that index, and then yields the member, the element or the one-character str; otherwise a dict gives KeyError, a short list or str gives IndexError, and everything else gives TypeError |
| `Json.Walk` | app.py:86 | a chain of subscripts: the empty chain yields the document, and a longer one applies its last subscript to what the rest yields, stopping at the first fault |
| `Json.WalkAppend` | app.py:101 | walking a concatenated path is walking the first part, then the second; a fault ends the walk |
| `Json.WalkPlant` | app.py:101 | walking a path through the document planted along it finds the planted value |
| `Adapter.ProviderNamed` | app.py:14-17 | a sidebar label selects a provider exactly when it is that provider's label, so the three branches are disjoint |
| `Adapter.BuildRequest` | app.py:62-96 | JSON content type always; the key travels as the `key` query parameter for Gemini only, otherwise as a Bearer `Authorization` header, and can be recovered from the request |
| `Adapter.RequestCarriesInputs` | app.py:63-81 | the request carries the model (Gemini URL path, or the body's `model`) and the prompt unmodified at the provider's body path; a chat body has only the members `model` and `messages`, and `messages` is one message with only `role` ("user") and `content` |
| `Adapter.GeminiRequestShape` | app.py:63-66 | Gemini: URL is base + model + ":generateContent", params are exactly `{key}`, the body is only the prompt at `contents[0].parts[0].text` |
| `Adapter.ChatRequestsDifferOnlyInUrl` | app.py:76-96 | the OpenRouter and Groq URLs are their fixed endpoints whatever the model; the two requests are otherwise equal; the header is "Bearer " + key |
| `Adapter.ErrorText` | app.py:73 | the text ends with the body verbatim and is never the placeholder or an exception text |
| `Adapter.ExceptionText` | app.py:106 | the text starts with the warning sign, ends with the exception's text verbatim, and is never the placeholder |
| `Adapter.ErrorTextRoundTrip` | app.py:72-73 | an error text can be split back into exactly its status and its whole body, verbatim |
| `Adapter.DecodeReply` | app.py:68-106 | transport failure and unparsable 200 body give the exception text; non-200 gives a text holding status and body; 200 gives the value at the reply path, or the exception text for the fault |
| `Adapter.DocumentedReplyShape` | app.py:71 | the planted reply documents are exactly `{candidates:[{content:{parts:[{text:v}]}}]}` and `{choices:[{message:{content:v}}]}` |
| `Adapter.DecodeDocumentedShape` | app.py:84-86 | a 200 document of the provider's documented shape decodes to exactly the value it holds, untrimmed |
| `Adapter.ErrorReplyIgnoresJson` | app.py:99-103 | a non-200 reply is "Error S: B" whatever the provider and whatever the body parses to |
| `Adapter.TurnReply` | app.py:58-106 | an empty key gives the placeholder; otherwise the reply is the decoding of what the network answers to the built request |
| `Adapter.NoKeyNoRequest` | app.py:58-60 | without a key the reply is the placeholder, whatever the network would answer |
| `Adapter.OnlyTheBuiltRequestIsSent` | app.py:60-68 | with a key, the reply depends on the network only through its answer to the built request |
| `Adapter.OpenRouterExample` | app.py:75-86 | the OpenRouter request for "Hello" and the reply "Hi there!" from the documented response |
| `Adapter.GeminiExample` | app.py:62-71 | the Gemini request for "2+2?" and the reply "4" from the documented response |
| `Adapter.UnauthorizedExample` | app.py:87-88 | a 401 answer gives "Error 401: " followed by the body, for every provider |
| `Session.PairedExtend` | app.py:54-110 | appending one exchange keeps every user message followed by exactly one assistant message, and only a paired transcript stays paired |
| `Session.SaidAppend` | app.py:55 | what a role said in a concatenation is what it said in the first part, then in the second |
| `Session.ExchangeRecords` | app.py:110 | one exchange adds the prompt to the user's messages and the reply to the assistant's, and nothing else |
| `Session.ChatSession.constructor` | app.py:7-8 | a session starts with an empty transcript |
| `Session.ChatSession.Clear` | app.py:45-46 | the transcript becomes empty, so clearing twice is the same as clearing once |
| `Session.ChatSession.HandleTurn` | app.py:54-110 | an empty prompt changes nothing; otherwise the old transcript + user message + assistant message with `TurnReply`; a request is sent exactly when a key was entered |
| `Session.ChatSession.Rerun` | app.py:45-58 | one page run applies the clear button before the prompt |

## Left out

- Streamlit rendering and widgets (page config, sidebar, select boxes, text inputs, markdown, chat bubbles, the warning). They hold no logic beyond choosing the provider, model, key and prompt, and these are parameters here.
- The per-provider model lists of the sidebar. `BuildRequest` takes any model string, as the code does.
- The provider is a closed datatype. With a label outside the three, `api_key` and `model` would be unbound, and `if api_key:` (app.py:60, outside the `try`) would raise NameError after the user message was appended. The turn would end with no assistant message. The select box cannot produce such a label, so this case is not modelled.
- `requests.post` and `response.json()` are foreign I/O. They are the `post` parameter and the `parsed` part of an `Outcome`. Turning the body into bytes is the library's job, so JSON member order and string escaping are not modelled, and objects are maps.
- The text of exceptions (`str(e)`) is opaque. A `Fault` records the exception type, the Python type of the subscripted value (int and float apart) and the subscript, but the model does not fix Python's wording, which varies between versions: the transport and JSON messages come inside the `Outcome`, and lookup faults go through `describe`. Exceptions from reading `response.text` are not modelled.
- Every request is a POST. `Request` has no method field.
- The status code is a `nat`. HTTP status codes are never negative.
- Streamlit's rerun and session persistence. The transcript is a field of one `ChatSession` object.
