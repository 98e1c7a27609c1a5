# AI reply pipeline of the chatbot backend, in Dafny

This project models `AIService` of the chatbot backend (`chatbot_backend/chat/services.py`). That service turns a chat message into a reply. It does so in one of two modes:

- **Demo mode**: pick a canned answer from a nine-entry phrase table. This is an exact match on the lower-cased, stripped message, else the first phrase of the table contained in it, else an echo of the message.
- **Live mode**: consult a one-hour response cache and hand the provider (Gemini) the last ten messages of the user's conversation plus the new message. A failed attempt becomes one of five fixed apologetic sentences, chosen by keywords in the error text.

The service also does two other jobs:

- It derives conversation titles from the first five messages.
- It looks up a conversation by id and owner, or creates a new one.

## Module layout

- `Text`: the Python string operations the service relies on.
  - `lower` (ASCII letters only).
  - `strip`, with and without a character set. The default set is the full Python whitespace set.
  - `split()[0]`, `join` and slicing.
  - The substring test `in`.
- `Demo`: the phrase table, the reply function `DemoReply` and the search loop `DemoResponse`. `DemoResponse` is proved to compute `DemoReply`.
- `Failures`: the keyword classification of error texts and the five fallback sentences.
- `Conversations`:
  - stored messages and conversations;
  - lookup by id and owner;
  - the recent-history window;
  - the class `Store` with `GetOrCreateConversation`.
- `Provider`:
  - the prompt turns, with the appending loop `BuildPrompt` proved to compute `Prompt`;
  - the provider's reply;
  - the extraction of the first candidate's text.
- `Cache`: the cache entries with absolute expiry times, and the class `ResponseCache` with `Get` and `Set`.
- `Titles`: the title prompt, the demo title and the clean-up of the provider's title.
- `Resolver`: the whole pipeline as functions of the state it reads. The functions are:
  - `Live`, which is `_get_gemini_response`;
  - `Respond`, which is `get_ai_response`;
  - `Summary`, which is `get_conversation_summary`.

  The state they read is the settings, the client, the cache entries, the clock, the stored conversations and the provider. Each returns the reply, the new client, the new cache entries and the prompt sent, if any. The lemmas state what the pipeline guarantees.
- `Service`: the class `AIService` with its lazily created client. Its methods update the client and the cache in place, and each is proved to compute the matching `Resolver` function.

Parts of the program that cannot be seen from here become parameters:

- The provider call is a function from the prompt turns to a `ProviderReply`: an exception text, or zero or more candidates.
- The clock is the `now` argument, in seconds.
- Python's `hash` is the pair of functions `hashText` and `hashContext` in `Settings`. Nothing is assumed about them, so hash collisions are covered.

## Behaviour of the code worth knowing

- **Titles after a provider failure.** `get_conversation_summary` sends its title request through `_get_gemini_response`, whose own `except` clause turns every provider error into a fallback sentence. A provider failure therefore gives that sentence, cleaned and cut to 50 characters, as the title, not the "New Chat" of the summary's `except` clause at lines 206-208 (`Resolver.SummaryOnProviderFailure`). That clause is not reached for any reply this model covers. It is reached when the first part's text is None, or when `cache.get` itself fails; see "## Left out".
- **Titles can be empty.** The clean-up at lines 201-202, which its comment describes as removing quotes and limiting length, can leave nothing: a live title can be the empty string, for example when the provider answers `""` (`Titles.QuotesCleanToEmpty`).
- **Demo titles are not capped.** The demo branch at line 197 returns "Chat about <word>" before the length limit at lines 203-204, so it gets no 50-character cap.
- **Empty replies.** The walrus test `if cached_response := cache.get(cache_key)` at line 106 reads a cached value as a hit only when it is truthy. An empty text in the first part of the first candidate is not treated as a failure. It is returned and cached. Because the empty string is falsy, it is never served from the cache (`Resolver.EmptyReplyRefetched`).
- **Cache key.** The comment at line 101 says the key "includes conversation context". It fingerprints the raw message, not the normalized one, together with the texts of the context. The roles of the context turns are not part of it (`Resolver.KeyIgnoresRoles`).
- **Missing API key.** The error `get_client` raises for a missing key (line 18), "GEMINI_API_KEY is required when DEMO_MODE is False", mentions no keyword: it has "api_key", not "api key". It is answered with the generic sentence, not the API-configuration one (`Resolver.MissingKeyIsGeneric`, `Resolver.MissingKeyReply`).
- **No request timeout.** The `GenerateContentConfig` at lines 139-146 sets no request timeout, so the timeout sentence at line 178 is chosen only by an error text that contains "timeout".
- **Context includes everything stored.** The comment at line 58 says the last ten messages are taken "excluding the current one". The query below it takes the newest ten stored messages with no exclusion.

## Model

| member | source | states |
|---|---|---|
| Demo.DemoResponse | chatbot_backend/chat/services.py:66-93 | the exact lookup followed by the first-match loop with early return computes the demo reply `DemoReply` of the message |
| Demo.ExactReply | chatbot_backend/chat/services.py:81-85 | a message whose lower-cased, stripped form equals a table phrase gets that phrase's entry |
| Demo.FirstContainedReply | chatbot_backend/chat/services.py:87-90 | otherwise the entry of the first phrase, in table order, that is a substring of the normalized message is returned |
| Demo.EchoReply | chatbot_backend/chat/services.py:92-93 | with no exact or contained phrase the reply is the echo template quoting the original, unnormalized message |
| Demo.PhrasesDistinct | chatbot_backend/chat/services.py:69-79 | the nine table phrases are pairwise distinct, so the dictionary lookup is well defined |
| Demo.DemoReplyNonEmpty | chatbot_backend/chat/services.py:69-93 | a demo reply is never empty |
| Demo.NormalizeUnchanged | chatbot_backend/chat/services.py:81 | a message without upper-case letters or surrounding whitespace is its own lookup key |
| Demo.ExactHello | chatbot_backend/chat/services.py:84-85 | "hello" gets the greeting entry |
| Demo.ContainsHello | chatbot_backend/chat/services.py:88-90 | any non-phrase message containing "hello" gets the greeting, "hello" being the first phrase |
| Demo.SaidHelloThere | chatbot_backend/chat/services.py:88-90 | "I said hello there" gets the greeting by substring search |
| Demo.ThisMatchesHi | chatbot_backend/chat/services.py:88-90 | "this" gets the "hi" entry, because "hi" is tried before every later phrase |
| Demo.ContainsBye | chatbot_backend/chat/services.py:88-90 | a non-phrase key containing "bye" and none of the five earlier phrases gets the "bye" entry |
| Demo.GoodbyeBangMatchesBye | chatbot_backend/chat/services.py:75-76 | "goodbye!" gets the "bye" entry, not the "goodbye" one, because "bye" comes first in the table |
| Failures.ClassifyIsFirstMentioned | chatbot_backend/chat/services.py:169-180 | an error's class is the first class in the order auth, quota, safety, timeout whose keywords occur in the lower-cased text, and generic exactly when none occurs |
| Failures.ClassifyIgnoresCase | chatbot_backend/chat/services.py:169 | classification does not depend on letter case |
| Failures.FallbackDistinct | chatbot_backend/chat/services.py:171-180 | the five fallback sentences are non-empty and pairwise different |
| Failures.TimeoutSentence | chatbot_backend/chat/services.py:177-178 | an error mentioning "timeout" and no earlier keyword gets the timeout sentence |
| Failures.GenericWithoutLetters | chatbot_backend/chat/services.py:171-180 | an error text lacking letters that every keyword needs is classified generic |
| Text.Strip | chatbot_backend/chat/services.py:202 | `strip(chars)` removes the longest leading and trailing runs of the given characters and keeps an infix whose ends are outside the set |
| Text.FirstWord | chatbot_backend/chat/services.py:197 | `split()[0]` is absent exactly for all-whitespace text, and otherwise is the first maximal run of non-whitespace characters |
| Conversations.Find | chatbot_backend/chat/services.py:28 | a found conversation is stored and has the requested id and owner, and none is found exactly when no stored conversation has both |
| Conversations.FindOwned | chatbot_backend/chat/services.py:57 | with distinct ids, the lookup of a stored conversation's id and owner returns that conversation |
| Conversations.Reverse | chatbot_backend/chat/services.py:60 | `reversed` keeps the length and puts element k at position n-1-k |
| Conversations.RecentIsSuffix | chatbot_backend/chat/services.py:59-60 | the window is the last min(10, n) messages in stored order |
| Conversations.RecentIsNewest | chatbot_backend/chat/models.py:23 | over messages in timestamp order the window is in timestamp order, and no message left out is newer than a message kept |
| Conversations.ContextWindow | chatbot_backend/chat/services.py:54-62 | the context has at most ten messages; it is empty without an id and a user or without an owned conversation; otherwise it is the latest part of that conversation |
| Conversations.Store.GetOrCreateConversation | chatbot_backend/chat/services.py:22-36 | returns the owned conversation with that id unchanged; otherwise creates and returns a "New Chat" for the given user with a new id; with no user returns the ValueError text and changes nothing |
| Provider.Prompt | chatbot_backend/chat/services.py:116-133 | the prompt has one more turn than the history; turn i carries history message i's text with role user exactly for user messages; the last turn is the new message as user |
| Provider.BuildPrompt | chatbot_backend/chat/services.py:116-133 | the appending loop builds exactly `Prompt(history, message)` |
| Provider.Extract | chatbot_backend/chat/services.py:150-163 | success exactly when the first candidate exists and its content has at least one part, with the text of that first part; otherwise the exception's text, "No candidates in response" or "No content in response candidate" |
| Cache.SetThenLookup | chatbot_backend/chat/services.py:156 | a value set with a timeout is read back until the timeout elapses and not afterwards, and other keys are unaffected |
| Cache.ResponseCache.Get | chatbot_backend/chat/services.py:106 | `cache.get` returns the stored value exactly while its entry has not expired (`Lookup` of the current entries) |
| Cache.ResponseCache.Set | chatbot_backend/chat/services.py:156 | `cache.set` replaces the entry of that key with the value expiring at now plus the timeout, and nothing else |
| Titles.SummaryPrompt | chatbot_backend/chat/services.py:194 | the title request is the fixed instruction followed by a prefix of the text of length min(200, length) |
| Titles.DemoTitleShape | chatbot_backend/chat/services.py:197 | the demo title is "Chat about " followed by exactly the first word of the text, or by "topic" when the text has none; that word is non-empty and has no whitespace |
| Text.Join | chatbot_backend/chat/services.py:193 | `" ".join` is empty for no parts, and otherwise as long as the parts together plus one separator between each two neighbours |
| Text.JoinLayout | chatbot_backend/chat/services.py:193 | each part of a join stands at its offset, after all earlier parts and their separators, and a separator follows every part but the last; with the length this fixes the whole result |
| Titles.Shorten | chatbot_backend/chat/services.py:203-204 | a title of at most 50 characters is kept; a longer one becomes its first 47 characters and "...", exactly 50 |
| Titles.CleanTitleBound | chatbot_backend/chat/services.py:202-205 | a cleaned title is at most 50 characters and, when no cut is needed, is the stripped reply |
| Titles.QuotesCleanToEmpty | chatbot_backend/chat/services.py:202 | a reply of two double quotes cleans to the empty title |
| Titles.InnerWhitespaceSurvives | chatbot_backend/chat/services.py:202 | whitespace inside the quotes survives, because quotes are stripped after whitespace |
| Resolver.InitClientLazy | chatbot_backend/chat/services.py:13-20 | an existing client is reused; none exists only in demo mode; creation fails exactly when no key is set outside demo mode, and otherwise creates a client with the key |
| Resolver.CachedReplyServed | chatbot_backend/chat/services.py:105-108 | a live, non-empty cached value is returned with no provider call and no change to the cache or the client |
| Resolver.CacheWrittenOnlyOnSuccess | chatbot_backend/chat/services.py:150-163 | the cache changes only after the provider's prompt yields a text, and then only at the call's key with that text and a 3600-second expiry |
| Resolver.FailureNotCached | chatbot_backend/chat/services.py:110-180 | on a miss with a client that exists or is created on this call, a failed attempt sends the prompt, returns the sentence for its error, keeps the client `get_client` returned and leaves the cache unchanged |
| Resolver.LiveOnFailure | chatbot_backend/chat/services.py:165-180 | with a client and a cache miss, a failed call is answered by the fallback for its error, after sending the prompt |
| Resolver.ReplyKinds | chatbot_backend/chat/services.py:105-180 | every reply is a cached value, the provider's extracted text, or a fixed fallback sentence; no failure escapes |
| Resolver.CachedWithinTimeout | chatbot_backend/chat/services.py:103-108 | a second call with the same key within the hour after a successful non-empty first call returns the same text and calls no provider |
| Resolver.ExpiredEntryRefetched | chatbot_backend/chat/services.py:156 | once the hour has passed the same key calls the provider again |
| Resolver.EmptyReplyRefetched | chatbot_backend/chat/services.py:153-156 | an empty provider text is cached but never served, so the next call with that key calls the provider again |
| Resolver.KeyIgnoresRoles | chatbot_backend/chat/services.py:102-103 | histories with the same texts yield the same cache key whatever their roles |
| Resolver.SentIsPrompt | chatbot_backend/chat/services.py:115-138 | whatever reaches the provider is the prompt for the call's history and message |
| Resolver.DemoIsPure | chatbot_backend/chat/services.py:44-49 | in demo mode the reply is the demo reply of the message; cache, client, store and provider are untouched |
| Resolver.LivePromptShape | chatbot_backend/chat/services.py:53-64 | outside demo mode, on a miss with a usable client, the provider gets the context window then the message: at most eleven turns ending with the message as user |
| Resolver.ThreeMessageContext | chatbot_backend/chat/services.py:55-60 | with three stored messages the provider sees those three turns in order, then the message |
| Resolver.NoContextWithoutOwnedConversation | chatbot_backend/chat/services.py:54-62 | with no id, no user or no owned conversation the provider path runs with an empty history |
| Resolver.InternalErrorsAreGeneric | chatbot_backend/chat/services.py:113-163 | "Gemini client not available", "No candidates in response" and "No content in response candidate" get the generic sentence |
| Resolver.MissingKeyIsGeneric | chatbot_backend/chat/services.py:17-18 | the missing-key error text contains no keyword, so it is classified generic |
| Resolver.MissingKeyReply | chatbot_backend/chat/services.py:110-180 | live mode without a key, on a miss: the generic sentence, no client, no cache write, nothing sent |
| Resolver.SummaryOfNothing | chatbot_backend/chat/services.py:185-190 | a missing conversation, or one without messages, is titled "New Chat" with nothing else happening |
| Resolver.DemoSummary | chatbot_backend/chat/services.py:196-197 | in demo mode a conversation with messages is titled by the demo title of its first five messages' text |
| Resolver.LiveSummaryBound | chatbot_backend/chat/services.py:199-205 | outside demo mode a title never exceeds 50 characters |
| Resolver.LiveSummaryPrompt | chatbot_backend/chat/services.py:193-200 | a title request that reaches the provider is one user turn holding the summary prompt of the first five messages, with no context |
| Resolver.SummaryOnProviderFailure | chatbot_backend/chat/services.py:199-208 | outside demo mode, with a client or a configured key, when the provider fails the title is the cleaned fallback sentence for its error, not "New Chat" |
| Service.AIService.GetClient | chatbot_backend/chat/services.py:13-20 | returns `InitClient` of the settings and the old client, and stores a created client |
| Service.AIService.GeminiResponse | chatbot_backend/chat/services.py:95-180 | reply, client and cache entries are those of `Live`, and the prompt sent, if any, is appended to the record of prompts |
| Service.AIService.GetAIResponse | chatbot_backend/chat/services.py:38-64 | reply, client and cache entries are those of `Respond` on the stored conversations |
| Service.AIService.ConversationSummary | chatbot_backend/chat/services.py:182-211 | title, client and cache entries are those of `Summary` on the stored conversations |

## Left out

- Logging calls: they do not affect any result.
- The Google GenAI SDK: the client object, `generate_content` and its generation parameters (model name, temperature, token and sampling limits, MIME type) are foreign calls. The provider is a function parameter.
- Python's `hash` and the `str()` rendering of the list of context texts: these are uninterpreted functions (`hashText`, `hashContext`). The string key built from the two hashes becomes their pair.
- Characters beyond ASCII in `lower()`: only A-Z are lower-cased. Python also lower-cases other scripts.
- Provider candidates are reduced to the texts of their content parts. A candidate whose content is None is treated like one with no parts. A part whose text is None is not modelled: the source would cache and return None, and a title request would then fail in `summary.strip()` and fall back to "New Chat" through the `except` at lines 206-208.
- Failures of the cache backend: `cache.get` at line 106 sits outside the `try`, so a failing backend raises out of `_get_gemini_response`. The cache is modelled as a map that always answers.
- Timestamps: equal timestamps are allowed, but the database's tie order within `order_by('-timestamp')` is not modelled. The window is taken as the last ten messages in stored order.
- Concurrency on the shared cache and the shared class-level client: the model is single-threaded.
- The cache backend: it is a map with absolute expiry times. Eviction and size limits are not modelled.
- The HTTP views, serializers, URL routing, ORM schema and the React frontend: they are outside the service modelled here.
- The database's id assignment: it is modelled as a counter starting at 1.
- Conversation timestamps `created_at` and `updated_at`, and the conversation ordering: the service never depends on them.
