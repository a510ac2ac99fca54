# Notāre outline providers and article viewer, modelled in Dafny

Notāre turns a web article that a reader has highlighted into a slide deck.
This project models two pieces of it and proves properties about them.

- **Outline providers** (`backend/app/llm_provider.py`). Per request, a configuration
  dictionary picks a language-model back end. It is either the OpenAI cloud (public or
  Azure) or a llama.cpp completion server. The model covers the configuration checks and
  defaults, the request each provider sends, and how each one turns the reply or a
  failure into an outline or an exception.
- **Article viewer** (`frontend/src/components/ArticleViewer.tsx`). Every visible text
  node is split into whitespace runs and words, and each word is wrapped in a
  `span.word`. Clicking a word marks the whole sentence around it with one
  `mark.notare-mark`.

Files:

- `wrappers.dfy`: `Option` and `Result`.
- `strings.dfy`: trimming with a given set of characters, and ASCII lower-casing.
- `outline_schema.dfy`: JSON values and the `Slide`/`OutlineModel` outline shape, with
  its dump to JSON and its reading back.
- `llm_provider.dfy`: the configuration (a map from key to string-or-null), provider
  selection, and the two provider classes. Their fields are set once, in the
  constructor.
- `article_viewer.dfy`: the tokenizer, the text-node collection loop, the sentence-range
  loops, and the `Block` class. A block holds its word-span texts and an array of
  "inside a mark" flags that the click handler updates in place.

Network replies are parameters of the operations. A reply is either the exception the
call raised or what it returned: `CloudReply` is `Raised` or `Completed`, and `HttpReply`
is `PostRaised` (the POST failed, for example on a connection error or the 60 s timeout)
or `Response`. JSON decoding (`json.loads`, `resp.json()`) is a
parameter `parse: string -> Option<Json>`, where `None` means the text is not JSON.

## Model

| member | source | states |
|---|---|---|
| `Strings.TrimRight` | backend/app/llm_provider.py:53 | `rstrip` keeps a prefix that does not end in a dropped character, and everything removed is dropped characters |
| `Strings.TrimLeft` | backend/app/llm_provider.py:118 | `strip` removes a prefix made only of dropped characters and stops at the first kept character |
| `Strings.TrimEmptyIffAllDropped` | frontend/src/components/ArticleViewer.tsx:22 | a trimmed string is empty exactly when every character of the input is trimmable |
| `Strings.AsciiLower` | backend/app/llm_provider.py:138 | lower-casing keeps the length and maps each character on its own |
| `OutlineSchema.ModelDump` | backend/app/llm_provider.py:92 | `model_dump()` gives an object whose only key is "slides"; it conforms to the `{"slides": [{"title", "bullets"}]}` schema and reads back as the same outline |
| `OutlineSchema.ReadOutline` | backend/app/llm_provider.py:125-133 | a JSON value is an outline exactly when it is an object whose "slides" is an array of slide objects; the outline then has one slide per item, in order, each read from that item |
| `OutlineSchema.ReadSlide` | backend/app/llm_provider.py:125-128 | a JSON value is a slide exactly when it is an object with a string "title" and an array "bullets" of strings; the slide keeps that title and those bullets verbatim and in order |
| `LlmProvider.ApiVersion` | backend/app/llm_provider.py:49-58 | the Azure API version is never empty and falls back from `api_version` to `engine` to "2024-05-01-preview" |
| `LlmProvider.ResolveCloud` | backend/app/llm_provider.py:44-66 | fails with the api_key error exactly when the key is absent, null or empty; the model defaults only when its key is absent; Azure is chosen exactly when the endpoint is non-empty, and that endpoint loses every trailing '/' |
| `LlmProvider.SlashOnlyEndpointSelectsAzure` | backend/app/llm_provider.py:52-58 | an endpoint made only of slashes still selects Azure, and the endpoint it then uses is empty |
| `LlmProvider.SelectProvider` | backend/app/llm_provider.py:137-143 | a provider name that is null fails. Otherwise the lower-cased name decides: "openai" resolves the cloud settings and fails with the api_key error when the key is absent, null or empty, "llama" takes the configured endpoint (or the localhost default) and the model, and anything else fails with "Unknown provider '<name>'" |
| `LlmProvider.DefaultProviderIsCloud` | backend/app/llm_provider.py:138-140 | without a provider key the cloud provider is chosen, and this succeeds exactly when an API key is given |
| `LlmProvider.SelectionIgnoresCase` | backend/app/llm_provider.py:138 | provider names that differ only in letter case give the same result |
| `LlmProvider.AzureNameRejected` | backend/app/llm_provider.py:138-143 | the name "azure", in any letter case, is rejected as an unknown provider |
| `LlmProvider.CloudProvider.FromConfig` | backend/app/llm_provider.py:40-66 | construction fails with the api_key error before any client exists; otherwise the object holds the resolved client and model |
| `LlmProvider.CloudProvider.GenerateOutline` | backend/app/llm_provider.py:68-94 | the request carries the stored model and exactly two messages, system then user, and the user content is the markdown unchanged. Every failure is an OutlineError carrying the exception's message. Success happens exactly when the first choice has a parsed outline, and the result conforms to the schema and reads back as that outline |
| `LlmProvider.ReplyText` | backend/app/llm_provider.py:118 | the reply text is `choices[0].text`, stripped; it is "" without `choices` and "" when the first choice is an object without "text"; an empty `choices` list raises IndexError; no failure here is an OutlineError |
| `LlmProvider.LlamaHttpProvider.constructor` | backend/app/llm_provider.py:100-102 | the base URL and model are stored as given, and they default to the localhost completion URL and no model |
| `LlmProvider.LlamaHttpProvider.BuildPayload` | backend/app/llm_provider.py:105-114 | the prompt is the fixed prefix followed by the markdown verbatim; max_tokens is 800 and temperature 0.4; "model" is present exactly when a non-empty model is configured; no other key is present |
| `LlmProvider.LlamaHttpProvider.GenerateOutline` | backend/app/llm_provider.py:104-122 | the payload is the one `BuildPayload` states. A failing POST raises its own exception, a non-2xx status raises the status error, and a non-JSON body raises the decode error; none of them is an OutlineError. Reply text that is not JSON is the "Model returned invalid JSON" OutlineError. Decoded JSON is returned as it is, with no schema check |
| `LlmProvider.GetProvider` | backend/app/llm_provider.py:137-143 | builds a provider exactly when `SelectProvider` succeeds, holding its settings, and otherwise raises the same failure |
| `ArticleViewer.TrimTruthyIffHasText` | frontend/src/components/ArticleViewer.tsx:22 | `trim()` leaves text exactly when the text has a non-whitespace character |
| `ArticleViewer.Split` | frontend/src/components/ArticleViewer.tsx:25 | `split(/(\s+)/)` yields parts that alternate between whitespace-free text and non-empty whitespace runs; only the two edge parts may be empty; joined back, the parts give the text |
| `ArticleViewer.Tokenize` | frontend/src/components/ArticleViewer.tsx:25-36 | whitespace runs become plain text nodes; every other part becomes a word span, empty edge parts included; word spans sit exactly at the even positions and contain no whitespace |
| `ArticleViewer.TokenizeKeepsText` | frontend/src/components/ArticleViewer.tsx:25-37 | the fragment that replaces a text node reads exactly as that text node did |
| `ArticleViewer.Tokenizable` | frontend/src/components/ArticleViewer.tsx:20-22 | a text node is tokenized exactly when its parent is not SCRIPT, STYLE or MARK and its trimmed text is non-empty |
| `ArticleViewer.TokenizableNodesMembers` | frontend/src/components/ArticleViewer.tsx:18-23 | a text node is tokenized exactly when its parent is not SCRIPT, STYLE or MARK and its text is not only whitespace |
| `ArticleViewer.CollectTextNodes` | frontend/src/components/ArticleViewer.tsx:16-23 | the walk loop collects exactly the tokenizable text nodes, in document order |
| `ArticleViewer.IsBoundary` | frontend/src/components/ArticleViewer.tsx:54-55 | a word ending in '.', '!' or '?' is a sentence boundary; such a word is not empty and its last character is not whitespace |
| `ArticleViewer.SentenceStart` | frontend/src/components/ArticleViewer.tsx:56-57 | the sentence start is at or before the word; it is 0 or follows a boundary word; no word from it up to the clicked word is a boundary |
| `ArticleViewer.SentenceEnd` | frontend/src/components/ArticleViewer.tsx:59-60 | the sentence end is at or after the word and within the list; it is the last word or a boundary word; no word before it from the clicked word on is a boundary |
| `ArticleViewer.SameSentence` | frontend/src/components/ArticleViewer.tsx:54-60 | every word between a sentence's start and end has that same start and end |
| `ArticleViewer.SentenceRange` | frontend/src/components/ArticleViewer.tsx:54-60 | the two loops end at the start and end above; a clicked word that is itself a boundary ends its sentence |
| `ArticleViewer.WordPositions` | frontend/src/components/ArticleViewer.tsx:50 | the word list holds exactly the non-blank word spans, in increasing document order |
| `ArticleViewer.IndexOf` | frontend/src/components/ArticleViewer.tsx:51-52 | -1 exactly when the target is absent; otherwise the first position holding it |
| `ArticleViewer.SentenceSpans` | frontend/src/components/ArticleViewer.tsx:50-60 | the sentence around a non-blank span runs from a non-blank span at or before it to a non-blank span at or after it |
| `ArticleViewer.SameSentenceSpans` | frontend/src/components/ArticleViewer.tsx:50-60 | clicking any non-blank span inside a sentence selects that same sentence |
| `ArticleViewer.Block.OnClick` | frontend/src/components/ArticleViewer.tsx:45-72 | a click off a word, outside a block, or on a blank span changes nothing. A sentence whose first word is already inside a mark changes nothing. Otherwise every span from the sentence's first to its last word is inside a mark, one new mark range is recorded, and no other span's flag changes |

## Left out

- Network I/O is not modelled: the OpenAI/Azure client calls, `asyncio.to_thread`, the httpx POST and its 60 s timeout. Their outcomes, including an exception the POST raises, are parameters (`CloudReply`, `HttpReply`).
- `json.loads`, `resp.json()` and the SDK's structured-output parsing are not verified. JSON decoding is the `parse` parameter, and the cloud reply arrives already parsed into outlines.
- The check that the `openai` package is installed, and all logging, are left out.
- Configuration values are strings or null only. Numbers and booleans in the dictionary are not modelled.
- SelectProvider: lower-cases ASCII letters only. No other character lower-cases to a letter of "openai" or "llama" in Python (the Kelvin sign becomes "k"), so which provider is chosen matches Python. The name quoted in the "Unknown provider" message can differ for non-ASCII input.
- The temperature is the exact decimal 0.4, not the binary64 value Python sends.
- Exceptions from the OpenAI client constructors (for example, a malformed Azure endpoint) are not modelled.
- The DOM is abstracted. The tree walk is the sequence of text nodes it visits. A block is its word-span texts plus one "inside a mark" flag per span. Creating the fragment, `replaceWith`, and the Range clone/delete/insert are not modelled. So the new mark's exact contents are left out: clones of partly selected elements, and the span objects being replaced by copies.
- Block.OnClick: blank spans between the sentence's first and last word are wrapped too, and the model states this. Words already inside an older mark that falls within the range end up in both marks; the model keeps only the flag.
- JavaScript strings are UTF-16, and Dafny characters are Unicode scalar values. `slice(-1)` on a trailing surrogate pair differs, but it never yields '.', '!' or '?', so boundaries agree.
- The rest of the repository is not part of this model: page fetching (`backend/app/main.py`), TOML configuration loading, the layout helper script, the settings panel, URL input, toast, app shell and build configuration.

## Behaviour worth noting

- The settings panel offers the provider name "azure" (frontend/src/components/SettingsPanel.tsx:4 and :94). `get_provider` accepts only "openai" and "llama" (backend/app/llm_provider.py:138-143), so "azure" is rejected as an unknown provider (`AzureNameRejected`). Azure is reached with "openai" plus a non-empty endpoint.
- `OutlineError` is documented as raised when the provider cannot produce an outline (backend/app/llm_provider.py:30). The completion-server provider returns any decoded JSON without a schema check. An empty `choices` list raises IndexError, and a failing POST, a non-2xx status or a non-JSON body raises its own exception, not an OutlineError (`LlamaHttpProvider.GenerateOutline`).
