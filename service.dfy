/**
 * `AIService`: the class whose only state is the lazily created client,
 * working against the shared response cache, the conversation store and
 * the provider. Each method is proved to compute the corresponding
 * function of Resolver.
 */
module Service {

  import opened Wrappers
  import opened Text
  import opened Demo
  import opened Failures
  import opened Conversations
  import opened Provider
  import opened Cache
  import opened Titles
  import opened Resolver

  class AIService {
    const settings: Settings
    /** The class-level `_client`. */
    var client: Option<Client>
    /** Every prompt handed to the provider so far, oldest first. */
    ghost var sentPrompts: seq<seq<Turn>>

    constructor (settings: Settings)
      ensures this.settings == settings && client == None && sentPrompts == []
    {
      this.settings := settings;
      client := None;
      sentPrompts := [];
    }

    /** `get_client` */
    method GetClient() returns (r: Result<Option<Client>, string>)
      modifies this`client
      ensures r == InitClient(settings, old(client))
      ensures client == if r.Ok? then r.value else old(client)
    {
      if client.None? && !settings.demoMode {
        if settings.apiKey == "" {
          return Err(MissingKeyError);
        }
        client := Some(Client(settings.apiKey));
      }
      return Ok(client);
    }

    /** `_get_gemini_response`: cache first, then one provider attempt whose
        failures all become fallback sentences. */
    method GeminiResponse(message: string, history: seq<Message>, cache: ResponseCache, now: int,
                          provider: seq<Turn> -> ProviderReply)
      returns (reply: string)
      modifies this`client, this`sentPrompts, cache
      ensures var o := Live(settings, old(client), old(cache.entries), now, message, history, provider);
        reply == o.reply && client == o.client && cache.entries == o.entries
        && sentPrompts == old(sentPrompts) + (if o.sent.Some? then [o.sent.value] else [])
    {
      var key := KeyOf(settings, message, history);
      var cached := cache.Get(key, now);
      if cached.Some? && cached.value != "" {
        return cached.value;
      }
      var error: string;
      var c := GetClient();
      match c {
        case Err(e) =>
          error := e;
        case Ok(None) =>
          error := NoClientError;
        case Ok(Some(cl)) =>
          var turns := BuildPrompt(history, message);
          sentPrompts := sentPrompts + [turns];
          match Extract(provider(turns)) {
            case Ok(text) =>
              cache.Set(key, text, CacheTimeout, now);
              return text;
            case Err(e) =>
              error := e;
          }
      }
      reply := Fallback(error);
    }

    /** `get_ai_response`: the demo reply in demo mode; otherwise the
        provider path with the recent history of the owned conversation. */
    method GetAIResponse(message: string, id: Option<int>, user: Option<UserId>, store: Store,
                         cache: ResponseCache, now: int, provider: seq<Turn> -> ProviderReply)
      returns (reply: string)
      modifies this`client, this`sentPrompts, cache
      ensures var o := Respond(settings, store.conversations, old(client), old(cache.entries), now,
                               message, id, user, provider);
        reply == o.reply && client == o.client && cache.entries == o.entries
        && sentPrompts == old(sentPrompts) + (if o.sent.Some? then [o.sent.value] else [])
    {
      if settings.demoMode {
        reply := DemoResponse(message);
        return;
      }
      var history: seq<Message> := [];
      if Given(id, user) {
        var found := Find(store.conversations, id, user);
        if found.Some? {
          history := Recent(found.value.messages);
        }
      }
      reply := GeminiResponse(message, history, cache, now, provider);
    }

    /** `get_conversation_summary` */
    method ConversationSummary(id: Option<int>, user: Option<UserId>, store: Store,
                               cache: ResponseCache, now: int, provider: seq<Turn> -> ProviderReply)
      returns (title: string)
      modifies this`client, this`sentPrompts, cache
      ensures var o := Summary(settings, store.conversations, old(client), old(cache.entries), now,
                               id, user, provider);
        title == o.reply && client == o.client && cache.entries == o.entries
        && sentPrompts == old(sentPrompts) + (if o.sent.Some? then [o.sent.value] else [])
    {
      var found := Find(store.conversations, id, user);
      if found.None? {
        return DefaultTitle;
      }
      var msgs := Take(found.value.messages, TitleMessages);
      if msgs == [] {
        return DefaultTitle;
      }
      var text := MessageText(msgs);
      if settings.demoMode {
        return DemoTitle(text);
      }
      var summary := GeminiResponse(SummaryPrompt(text), [], cache, now, provider);
      title := CleanTitle(summary);
    }
  }
}
