/**
 * The reply pipeline as functions of the state it reads: the settings, the
 * lazily created client, the cache entries, the clock, the stored
 * conversations and the provider. Each function returns the reply together
 * with the new client, the new cache entries and the prompt sent to the
 * provider, if any; the methods of AIService are proved to compute exactly
 * these, and the lemmas below state what the pipeline guarantees.
 */
module Resolver {

  import opened Wrappers
  import opened Text
  import opened Demo
  import opened Failures
  import opened Conversations
  import opened Provider
  import opened Cache
  import opened Titles

  /** The configured provider client; only its credential matters here. */
  datatype Client = Client(apiKey: string)

  /** Process configuration: the demo flag, the API key ("" when unset), and
      the process's string hash, applied to the message and to the rendered
      list of context texts. */
  datatype Settings = Settings(
    demoMode: bool,
    apiKey: string,
    hashText: string -> int,
    hashContext: seq<string> -> int)

  const MissingKeyError := "GEMINI_API_KEY is required when DEMO_MODE is False"
  const NoClientError := "Gemini client not available"

  /** `get_client`: create the client on first use outside demo mode, failing
      when no API key is configured; otherwise return what is there. */
  function InitClient(s: Settings, client: Option<Client>): Result<Option<Client>, string>
  {
    if client.None? && !s.demoMode then
      if s.apiKey == "" then Err(MissingKeyError) else Ok(Some(Client(s.apiKey)))
    else Ok(client)
  }

  /** The client is created at most once and then reused; it is missing only
      in demo mode; creation fails exactly when the key is unset. */
  lemma InitClientLazy(s: Settings, client: Option<Client>)
    ensures client.Some? ==> InitClient(s, client) == Ok(client)
    ensures InitClient(s, client) == Ok(None) <==> client.None? && s.demoMode
    ensures InitClient(s, client).Err? <==> client.None? && !s.demoMode && s.apiKey == ""
    ensures client.None? && !s.demoMode && s.apiKey != "" ==>
      InitClient(s, client) == Ok(Some(Client(s.apiKey)))
  {
  }

  /** The cache key: a fingerprint of the raw message and of the context's
      texts. The roles of the context turns are not part of it. */
  function KeyOf(s: Settings, message: string, history: seq<Message>): CacheKey
  {
    CacheKey(s.hashText(message), s.hashContext(Contents(history)))
  }

  /** What one call leaves behind. */
  datatype Outcome = Outcome(
    reply: string,
    entries: map<CacheKey, Entry>,
    client: Option<Client>,
    sent: Option<seq<Turn>>)

  /** `_get_gemini_response(message, history)` */
  function Live(s: Settings, client: Option<Client>, entries: map<CacheKey, Entry>, now: int,
                message: string, history: seq<Message>, provider: seq<Turn> -> ProviderReply): Outcome
  {
    var key := KeyOf(s, message, history);
    if Hit(entries, key, now) then Outcome(entries[key].value, entries, client, None)
    else
      match InitClient(s, client)
      case Err(e) => Outcome(Fallback(e), entries, client, None)
      case Ok(None) => Outcome(Fallback(NoClientError), entries, client, None)
      case Ok(Some(c)) =>
        var prompt := Prompt(history, message);
        match Extract(provider(prompt))
        case Ok(text) => Outcome(text, entries[key := Entry(text, now + CacheTimeout)], Some(c), Some(prompt))
        case Err(e) => Outcome(Fallback(e), entries, Some(c), Some(prompt))
  }

  /** `get_ai_response(message, conversation_id, user)` */
  function Respond(s: Settings, convs: seq<Conversation>, client: Option<Client>,
                   entries: map<CacheKey, Entry>, now: int, message: string,
                   id: Option<int>, user: Option<UserId>,
                   provider: seq<Turn> -> ProviderReply): Outcome
  {
    if s.demoMode then Outcome(DemoReply(message), entries, client, None)
    else Live(s, client, entries, now, message, ContextFor(convs, id, user), provider)
  }

  /** `get_conversation_summary(conversation_id, user)` */
  function Summary(s: Settings, convs: seq<Conversation>, client: Option<Client>,
                   entries: map<CacheKey, Entry>, now: int,
                   id: Option<int>, user: Option<UserId>,
                   provider: seq<Turn> -> ProviderReply): Outcome
  {
    match Find(convs, id, user)
    case None => Outcome(DefaultTitle, entries, client, None)
    case Some(c) =>
      var msgs := Take(c.messages, TitleMessages);
      if msgs == [] then Outcome(DefaultTitle, entries, client, None)
      else
        var text := MessageText(msgs);
        if s.demoMode then Outcome(DemoTitle(text), entries, client, None)
        else
          var o := Live(s, client, entries, now, SummaryPrompt(text), [], provider);
          o.(reply := CleanTitle(o.reply))
  }

  // ---------------------------------------------------------------------
  // Cache behaviour

  /** A live, non-empty cached value is returned as it is: the provider is
      not called and neither the cache nor the client changes. */
  lemma CachedReplyServed(s: Settings, client: Option<Client>, entries: map<CacheKey, Entry>, now: int,
                          message: string, history: seq<Message>, provider: seq<Turn> -> ProviderReply)
    requires Hit(entries, KeyOf(s, message, history), now)
    ensures Live(s, client, entries, now, message, history, provider)
      == Outcome(entries[KeyOf(s, message, history)].value, entries, client, None)
  {
  }

  /** The cache changes only after a successful provider reply, and then
      only at the call's key, with the reply's text and a one-hour expiry. */
  lemma CacheWrittenOnlyOnSuccess(s: Settings, client: Option<Client>, entries: map<CacheKey, Entry>,
                                  now: int, message: string, history: seq<Message>,
                                  provider: seq<Turn> -> ProviderReply)
    ensures var o := Live(s, client, entries, now, message, history, provider);
      o.entries == entries
      || (o.sent == Some(Prompt(history, message))
          && Extract(provider(Prompt(history, message))) == Ok(o.reply)
          && o.entries == entries[KeyOf(s, message, history) := Entry(o.reply, now + CacheTimeout)])
  {
  }

  /** A failed attempt returns the sentence for its error class and leaves
      the cache alone: fallback sentences are never cached. */
  lemma FailureNotCached(s: Settings, client: Option<Client>, entries: map<CacheKey, Entry>,
                         now: int, message: string, history: seq<Message>,
                         provider: seq<Turn> -> ProviderReply)
    requires !Hit(entries, KeyOf(s, message, history), now)
    requires InitClient(s, client).Ok? && InitClient(s, client).value.Some?
    requires Extract(provider(Prompt(history, message))).Err?
    ensures var o := Live(s, client, entries, now, message, history, provider);
      o.entries == entries
      && o.client == InitClient(s, client).value
      && o.reply == Fallback(Extract(provider(Prompt(history, message))).error)
      && o.sent == Some(Prompt(history, message))
  {
  }

  /** Every reply is a cached value, the provider's text, or one of the five
      fixed sentences: no failure escapes as an exception. */
  lemma ReplyKinds(s: Settings, client: Option<Client>, entries: map<CacheKey, Entry>, now: int,
                   message: string, history: seq<Message>, provider: seq<Turn> -> ProviderReply)
    ensures var o := Live(s, client, entries, now, message, history, provider);
      var key := KeyOf(s, message, history);
      (Hit(entries, key, now) && o.reply == entries[key].value)
      || (o.sent.Some? && Extract(provider(o.sent.value)) == Ok(o.reply))
      || (exists c :: o.reply == FallbackText(c))
  {
    var o := Live(s, client, entries, now, message, history, provider);
    var key := KeyOf(s, message, history);
    if !Hit(entries, key, now) {
      match InitClient(s, client)
      case Err(e) =>
        assert o.reply == FallbackText(Classify(e));
      case Ok(None) =>
        assert o.reply == FallbackText(Classify(NoClientError));
      case Ok(Some(c)) =>
        var prompt := Prompt(history, message);
        match Extract(provider(prompt))
        case Ok(text) =>
        case Err(e) =>
          assert o.reply == FallbackText(Classify(e));
    }
  }

  /** Two calls with the same key within the hour: after the first one got a
      non-empty text from the provider, the second returns the same text and
      does not call the provider. */
  lemma CachedWithinTimeout(s: Settings, client: Option<Client>, entries: map<CacheKey, Entry>,
                            t1: int, t2: int, m1: string, h1: seq<Message>, m2: string, h2: seq<Message>,
                            p1: seq<Turn> -> ProviderReply, p2: seq<Turn> -> ProviderReply)
    requires KeyOf(s, m1, h1) == KeyOf(s, m2, h2)
    requires t1 <= t2 < t1 + CacheTimeout
    requires var o1 := Live(s, client, entries, t1, m1, h1, p1);
      o1.sent.Some? && Extract(p1(o1.sent.value)) == Ok(o1.reply) && o1.reply != ""
    ensures var o1 := Live(s, client, entries, t1, m1, h1, p1);
      Live(s, o1.client, o1.entries, t2, m2, h2, p2) == Outcome(o1.reply, o1.entries, o1.client, None)
  {
    var o1 := Live(s, client, entries, t1, m1, h1, p1);
    var key := KeyOf(s, m1, h1);
    assert !Hit(entries, key, t1);
    assert o1.entries == entries[key := Entry(o1.reply, t1 + CacheTimeout)];
    assert Hit(o1.entries, key, t2);
  }

  /** Once the hour is over, the same key no longer hits and the provider is
      asked again (the client created by the first call is reused). */
  lemma ExpiredEntryRefetched(s: Settings, client: Option<Client>, entries: map<CacheKey, Entry>,
                              t1: int, t2: int, m1: string, h1: seq<Message>, m2: string, h2: seq<Message>,
                              p1: seq<Turn> -> ProviderReply, p2: seq<Turn> -> ProviderReply)
    requires KeyOf(s, m1, h1) == KeyOf(s, m2, h2)
    requires t2 >= t1 + CacheTimeout
    requires var o1 := Live(s, client, entries, t1, m1, h1, p1);
      o1.sent.Some? && Extract(p1(o1.sent.value)) == Ok(o1.reply)
    ensures var o1 := Live(s, client, entries, t1, m1, h1, p1);
      Live(s, o1.client, o1.entries, t2, m2, h2, p2).sent == Some(Prompt(h2, m2))
  {
    var o1 := Live(s, client, entries, t1, m1, h1, p1);
    var key := KeyOf(s, m1, h1);
    assert o1.entries == entries[key := Entry(o1.reply, t1 + CacheTimeout)];
    assert !Hit(o1.entries, key, t2);
    assert o1.client.Some?;
  }

  /** An empty text from the provider is written to the cache but never
      served from it, because the empty string is falsy: the next call with
      the same key asks the provider again. */
  lemma EmptyReplyRefetched(s: Settings, client: Option<Client>, entries: map<CacheKey, Entry>,
                            t1: int, t2: int, m1: string, h1: seq<Message>, m2: string, h2: seq<Message>,
                            p1: seq<Turn> -> ProviderReply, p2: seq<Turn> -> ProviderReply)
    requires KeyOf(s, m1, h1) == KeyOf(s, m2, h2)
    requires var o1 := Live(s, client, entries, t1, m1, h1, p1);
      o1.sent.Some? && Extract(p1(o1.sent.value)) == Ok("")
    ensures var o1 := Live(s, client, entries, t1, m1, h1, p1);
      Live(s, o1.client, o1.entries, t2, m2, h2, p2).sent == Some(Prompt(h2, m2))
  {
    var o1 := Live(s, client, entries, t1, m1, h1, p1);
    var key := KeyOf(s, m1, h1);
    assert o1.entries == entries[key := Entry("", t1 + CacheTimeout)];
    assert !Hit(o1.entries, key, t2);
    assert o1.client.Some?;
  }

  /** Histories with the same texts share a cache entry whatever their roles. */
  lemma KeyIgnoresRoles(s: Settings, message: string, h1: seq<Message>, h2: seq<Message>)
    requires |h1| == |h2| && forall i :: 0 <= i < |h1| ==> h1[i].content == h2[i].content
    ensures KeyOf(s, message, h1) == KeyOf(s, message, h2)
  {
    assert Contents(h1) == Contents(h2);
  }

  // ---------------------------------------------------------------------
  // Modes and context

  /** In demo mode the reply is the canned reply to the message alone; the
      cache, the client, the store and the provider play no part. */
  lemma DemoIsPure(s: Settings, convs: seq<Conversation>, client: Option<Client>,
                   entries: map<CacheKey, Entry>, now: int, message: string,
                   id: Option<int>, user: Option<UserId>, provider: seq<Turn> -> ProviderReply)
    requires s.demoMode
    ensures Respond(s, convs, client, entries, now, message, id, user, provider)
      == Outcome(DemoReply(message), entries, client, None)
  {
  }

  /** Outside demo mode, on a cache miss with a usable client, the provider
      receives the context window followed by the new message: at most
      eleven turns, the last one the message as a user turn. */
  lemma LivePromptShape(s: Settings, convs: seq<Conversation>, client: Option<Client>,
                        entries: map<CacheKey, Entry>, now: int, message: string,
                        id: Option<int>, user: Option<UserId>, provider: seq<Turn> -> ProviderReply)
    requires !s.demoMode
    requires !Hit(entries, KeyOf(s, message, ContextFor(convs, id, user)), now)
    requires s.apiKey != "" || client.Some?
    ensures var o := Respond(s, convs, client, entries, now, message, id, user, provider);
      var ctx := ContextFor(convs, id, user);
      o.sent == Some(Prompt(ctx, message))
      && |o.sent.value| == |ctx| + 1 <= ContextLimit + 1
      && o.sent.value[|ctx|] == Turn(User, message)
  {
    ContextWindow(convs, id, user);
  }

  /** A conversation with three stored messages: the provider sees those
      three turns in chronological order, then the new message. */
  lemma ThreeMessageContext(s: Settings, convs: seq<Conversation>, client: Option<Client>,
                            entries: map<CacheKey, Entry>, now: int, message: string,
                            id: Option<int>, user: Option<UserId>, provider: seq<Turn> -> ProviderReply)
    requires !s.demoMode && Given(id, user)
    requires Find(convs, id, user).Some? && |Find(convs, id, user).value.messages| == 3
    requires !Hit(entries, KeyOf(s, message, ContextFor(convs, id, user)), now)
    requires s.apiKey != "" || client.Some?
    ensures var msgs := Find(convs, id, user).value.messages;
      Respond(s, convs, client, entries, now, message, id, user, provider).sent
        == Some([TurnOf(msgs[0]), TurnOf(msgs[1]), TurnOf(msgs[2]), Turn(User, message)])
  {
    var msgs := Find(convs, id, user).value.messages;
    ContextWindow(convs, id, user);
    assert ContextFor(convs, id, user) == msgs;
    var p := Prompt(msgs, message);
    assert p == [TurnOf(msgs[0]), TurnOf(msgs[1]), TurnOf(msgs[2]), Turn(User, message)];
  }

  /** With no conversation id, no user, or a conversation the user does not
      own, the provider is asked with the message alone. */
  lemma NoContextWithoutOwnedConversation(s: Settings, convs: seq<Conversation>, client: Option<Client>,
                                          entries: map<CacheKey, Entry>, now: int, message: string,
                                          id: Option<int>, user: Option<UserId>,
                                          provider: seq<Turn> -> ProviderReply)
    requires !s.demoMode
    requires !Given(id, user) || Find(convs, id, user).None?
    ensures Respond(s, convs, client, entries, now, message, id, user, provider)
      == Live(s, client, entries, now, message, [], provider)
  {
    ContextWindow(convs, id, user);
  }

  // ---------------------------------------------------------------------
  // The service's own error texts

  /** The errors raised inside the service itself (no client, no
      candidates, a candidate without content) all fall to the generic
      sentence. */
  lemma InternalErrorsAreGeneric()
    ensures Classify(NoClientError) == Generic
    ensures Classify(NoCandidatesError) == Generic
    ensures Classify(NoContentError) == Generic
  {
    LowerNoClient();
    NoClientLetters(Lower(NoClientError));
    GenericWithoutLetters(NoClientError);
    LowerNoCandidates();
    NoCandidatesLetters(Lower(NoCandidatesError));
    GenericWithoutLetters(NoCandidatesError);
    LowerNoContent();
    NoContentLetters(Lower(NoContentError));
    GenericWithoutLetters(NoContentError);
  }

  lemma LowerNoClient()
    ensures Lower(NoClientError) == "gemini client not available"
  {
  }

  lemma NoClientLetters(m: string)
    requires m == "gemini client not available"
    ensures Lacks(m, {'k', 'u', 'q', 'f', 'r'})
  {
  }

  lemma LowerNoCandidates()
    ensures Lower(NoCandidatesError) == "no candidates in response"
  {
  }

  lemma NoCandidatesLetters(m: string)
    requires m == "no candidates in response"
    ensures Lacks(m, {'k', 'u', 'q', 'f', 'l'})
  {
  }

  lemma LowerNoContent()
    ensures Lower(NoContentError) == "no content in response candidate"
  {
  }

  lemma NoContentLetters(m: string)
    requires m == "no content in response candidate"
    ensures Lacks(m, {'k', 'u', 'q', 'f', 'l'})
  {
  }

  /** The first and second halves of the missing-key message. */
  const MissingKeyHead := "GEMINI_API_KEY is required"
  const MissingKeyTail := " when DEMO_MODE is False"

  lemma MissingKeyHalves()
    ensures MissingKeyError == MissingKeyHead + MissingKeyTail
  {
  }

  lemma LowerHead()
    ensures Lower(MissingKeyHead) == "gemini_api_key is required"
  {
  }

  lemma LowerTail()
    ensures Lower(MissingKeyTail) == " when demo_mode is false"
  {
  }

  lemma HeadLetters(h: string)
    requires h == "gemini_api_key is required"
    ensures |h| == 26 && h[10] == '_' && Lacks(h, {'t', 'b'})
    ensures forall i :: 0 <= i < |h| && h[i] == 'y' ==> i == 13
  {
  }

  lemma TailLetters(t: string)
    requires t == " when demo_mode is false"
    ensures Lacks(t, {'t', 'b', 'y'})
  {
  }

  /** In the lowered message the only "y" is that of "key", which follows an
      underscore rather than "api ", so "api key" does not occur. */
  lemma {:induction false} NoApiKeyPhrase(head: string, tail: string)
    requires |head| == 26 && head[10] == '_' && Lacks(tail, {'y'})
    requires forall i :: 0 <= i < |head| && head[i] == 'y' ==> i == 13
    ensures !Contains(head + tail, "api key")
  {
    var t := head + tail;
    var p := "api key";
    forall k: nat
      ensures !OccursAt(t, p, k)
    {
      if k + |p| <= |t| {
        if k + 6 >= |head| {
          assert t[k..k + |p|][6] == tail[k + 6 - |head|] != 'y';
        } else if k != 7 {
          assert t[k..k + |p|][6] == head[k + 6] != 'y';
        } else {
          assert t[k..k + |p|][3] == head[10] == '_';
        }
      }
    }
    Absent(t, p);
  }

  /** The error raised when no API key is configured mentions no keyword
      ("GEMINI_API_KEY" has underscores, not "api key"), so it is answered
      with the generic sentence, not with the API-configuration one. */
  lemma MissingKeyIsGeneric()
    ensures Classify(MissingKeyError) == Generic
  {
    MissingKeyHalves();
    LowerConcat(MissingKeyHead, MissingKeyTail);
    var head, tail := Lower(MissingKeyHead), Lower(MissingKeyTail);
    LowerHead();
    HeadLetters(head);
    LowerTail();
    TailLetters(tail);
    MissingKeyLetters(head, tail);
  }

  lemma MissingKeyLetters(head: string, tail: string)
    requires |head| == 26 && head[10] == '_' && Lacks(head, {'t', 'b'})
    requires forall i :: 0 <= i < |head| && head[i] == 'y' ==> i == 13
    requires Lacks(tail, {'t', 'b', 'y'})
    ensures var m := head + tail;
      !Contains(m, "api key") && !Contains(m, "authentication") && !Contains(m, "quota")
      && !Contains(m, "rate limit") && !Contains(m, "safety") && !Contains(m, "blocked")
      && !Contains(m, "timeout")
  {
    assert Lacks(tail, {'y'});
    NoApiKeyPhrase(head, tail);
    var m := head + tail;
    var cs: set<char> := {'t', 'b'};
    assert Lacks(tail, cs);
    LacksConcat(head, tail, cs);
    LacksLetter(m, "authentication", 2, cs);
    LacksLetter(m, "quota", 3, cs);
    LacksLetter(m, "rate limit", 2, cs);
    LacksLetter(m, "safety", 4, cs);
    LacksLetter(m, "blocked", 0, cs);
    LacksLetter(m, "timeout", 0, cs);
  }

  /** Live mode without an API key: on a cache miss the reply is the generic
      sentence, nothing is cached, no client is created, nothing is sent. */
  lemma MissingKeyReply(s: Settings, entries: map<CacheKey, Entry>, now: int,
                        message: string, history: seq<Message>, provider: seq<Turn> -> ProviderReply)
    requires !s.demoMode && s.apiKey == ""
    requires !Hit(entries, KeyOf(s, message, history), now)
    ensures Live(s, None, entries, now, message, history, provider)
      == Outcome(GenericText, entries, None, None)
  {
    MissingKeyIsGeneric();
  }

  // ---------------------------------------------------------------------
  // Titles

  /** A missing conversation, or one without messages, is titled "New Chat"
      and nothing else happens. */
  lemma SummaryOfNothing(s: Settings, convs: seq<Conversation>, client: Option<Client>,
                         entries: map<CacheKey, Entry>, now: int, id: Option<int>, user: Option<UserId>,
                         provider: seq<Turn> -> ProviderReply)
    requires Find(convs, id, user).None? || Find(convs, id, user).value.messages == []
    ensures Summary(s, convs, client, entries, now, id, user, provider)
      == Outcome(DefaultTitle, entries, client, None)
  {
  }

  /** In demo mode the title of a conversation with messages is "Chat about "
      and the first word of its first five messages' text. */
  lemma DemoSummary(s: Settings, convs: seq<Conversation>, client: Option<Client>,
                    entries: map<CacheKey, Entry>, now: int, id: Option<int>, user: Option<UserId>,
                    provider: seq<Turn> -> ProviderReply)
    requires s.demoMode
    requires Find(convs, id, user).Some? && Find(convs, id, user).value.messages != []
    ensures var text := MessageText(Take(Find(convs, id, user).value.messages, TitleMessages));
      Summary(s, convs, client, entries, now, id, user, provider)
        == Outcome(DemoTitle(text), entries, client, None)
  {
  }

  /** Whatever reaches the provider is the prompt for the call's history
      and message. */
  lemma SentIsPrompt(s: Settings, client: Option<Client>, entries: map<CacheKey, Entry>, now: int,
                     message: string, history: seq<Message>, provider: seq<Turn> -> ProviderReply)
    ensures var o := Live(s, client, entries, now, message, history, provider);
      o.sent.Some? ==> o.sent.value == Prompt(history, message)
  {
  }

  /** Outside demo mode the title is the cleaned reply of one standalone
      title request, so it never exceeds 50 characters. */
  lemma LiveSummaryBound(s: Settings, convs: seq<Conversation>, client: Option<Client>,
                         entries: map<CacheKey, Entry>, now: int, id: Option<int>, user: Option<UserId>,
                         provider: seq<Turn> -> ProviderReply)
    requires !s.demoMode
    ensures |Summary(s, convs, client, entries, now, id, user, provider).reply| <= MaxTitle
  {
    match Find(convs, id, user)
    case None =>
    case Some(c) =>
      var msgs := Take(c.messages, TitleMessages);
      if msgs != [] {
        var l := Live(s, client, entries, now, SummaryPrompt(MessageText(msgs)), [], provider);
        CleanTitleBound(l.reply);
      }
  }

  /** A title request that reaches the provider is a single user turn: the
      instruction and at most 200 characters of the first five messages,
      with no conversation context. */
  lemma LiveSummaryPrompt(s: Settings, convs: seq<Conversation>, client: Option<Client>,
                          entries: map<CacheKey, Entry>, now: int, id: Option<int>, user: Option<UserId>,
                          provider: seq<Turn> -> ProviderReply)
    requires !s.demoMode
    ensures var o := Summary(s, convs, client, entries, now, id, user, provider);
      o.sent.Some? ==>
        Find(convs, id, user).Some?
        && var text := MessageText(Take(Find(convs, id, user).value.messages, TitleMessages));
        o.sent.value == [Turn(User, SummaryPrompt(text))]
  {
    match Find(convs, id, user)
    case None =>
    case Some(c) =>
      var msgs := Take(c.messages, TitleMessages);
      if msgs != [] {
        var text := MessageText(msgs);
        SentIsPrompt(s, client, entries, now, SummaryPrompt(text), [], provider);
        assert Prompt([], SummaryPrompt(text)) == [Turn(User, SummaryPrompt(text))];
      }
  }

  /** When the provider fails, the title is the cleaned fallback sentence,
      not "New Chat": the sentences are returned as replies, and the
      exception handler around the call is never reached. */
  lemma SummaryOnProviderFailure(s: Settings, convs: seq<Conversation>, client: Option<Client>,
                                 entries: map<CacheKey, Entry>, now: int, id: Option<int>,
                                 user: Option<UserId>, provider: seq<Turn> -> ProviderReply)
    requires !s.demoMode && (client.Some? || s.apiKey != "")
    requires Find(convs, id, user).Some? && Find(convs, id, user).value.messages != []
    requires var text := MessageText(Take(Find(convs, id, user).value.messages, TitleMessages));
      !Hit(entries, KeyOf(s, SummaryPrompt(text), []), now)
      && Extract(provider([Turn(User, SummaryPrompt(text))])).Err?
    ensures var text := MessageText(Take(Find(convs, id, user).value.messages, TitleMessages));
      var e := Extract(provider([Turn(User, SummaryPrompt(text))])).error;
      Summary(s, convs, client, entries, now, id, user, provider).reply == CleanTitle(Fallback(e))
  {
    var c := Find(convs, id, user).value;
    var msgs := Take(c.messages, TitleMessages);
    assert msgs != [] by { assert |msgs| > 0; }
    var text := MessageText(msgs);
    assert Prompt([], SummaryPrompt(text)) == [Turn(User, SummaryPrompt(text))];
    var o := Live(s, client, entries, now, SummaryPrompt(text), [], provider);
    FailureNotCached(s, client, entries, now, SummaryPrompt(text), [], provider);
    assert Summary(s, convs, client, entries, now, id, user, provider) == o.(reply := CleanTitle(o.reply));
  }

  /** With a client at hand and no cached value, a failed provider call is
      answered by the fallback sentence for its error. */
  lemma LiveOnFailure(s: Settings, client: Option<Client>, entries: map<CacheKey, Entry>, now: int,
                      message: string, history: seq<Message>, provider: seq<Turn> -> ProviderReply)
    requires client.Some? && !Hit(entries, KeyOf(s, message, history), now)
    requires Extract(provider(Prompt(history, message))).Err?
    ensures Live(s, client, entries, now, message, history, provider)
      == Outcome(Fallback(Extract(provider(Prompt(history, message))).error), entries, client,
                 Some(Prompt(history, message)))
  {
  }
}
