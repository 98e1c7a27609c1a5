/**
 * The stored conversations as the service sees them: lookup by id and
 * owner, the recent-history window given to the provider, and
 * lookup-or-create.
 */
module Conversations {

  import opened Wrappers
  import opened Text

  type UserId = nat

  /** A stored message; `timestamp` is its creation time. */
  datatype Message = Message(content: string, isUser: bool, timestamp: int)

  /** A stored conversation; `messages` is in the store's default order,
      oldest first (ascending timestamp). */
  datatype Conversation = Conversation(id: int, user: UserId, title: string, messages: seq<Message>)

  /** `[msg.content for msg in msgs]` */
  function Contents(msgs: seq<Message>): (r: seq<string>)
    ensures |r| == |msgs| && forall i :: 0 <= i < |msgs| ==> r[i] == msgs[i].content
  {
    seq(|msgs|, i requires 0 <= i < |msgs| => msgs[i].content)
  }

  /** How many recent messages are handed to the provider as context. */
  const ContextLimit: nat := 10

  const DefaultTitle := "New Chat"

  const UserRequiredError := "User is required to create a conversation"

  /** Python's truthiness of `conversation_id and user`: an id of None or 0
      counts as absent, as does a missing user. */
  predicate Given(id: Option<int>, user: Option<UserId>)
  {
    id.Some? && id.value != 0 && user.Some?
  }

  /** `Conversation.objects.get(id=..., user=...)`: the conversation with this
      id owned by this user, or None for `DoesNotExist`. */
  function Find(convs: seq<Conversation>, id: Option<int>, user: Option<UserId>): (r: Option<Conversation>)
    ensures r.Some? ==> r.value in convs && id == Some(r.value.id) && user == Some(r.value.user)
    ensures r.None? ==> forall c :: c in convs ==> !(id == Some(c.id) && user == Some(c.user))
  {
    if convs == [] then None
    else if id == Some(convs[0].id) && user == Some(convs[0].user) then Some(convs[0])
    else Find(convs[1..], id, user)
  }

  /** Ids are primary keys: no two stored conversations share one. */
  ghost predicate DistinctIds(convs: seq<Conversation>)
  {
    forall i, j :: 0 <= i < j < |convs| ==> convs[i].id != convs[j].id
  }

  /** With distinct ids, the lookup returns THE conversation that has both
      the id and the owner. */
  lemma {:induction false} FindOwned(convs: seq<Conversation>, c: Conversation)
    requires DistinctIds(convs)
    requires c in convs
    ensures Find(convs, Some(c.id), Some(c.user)) == Some(c)
  {
    if convs[0] != c {
      assert convs[0].id != c.id by {
        var j :| 0 <= j < |convs| && convs[j] == c;
      }
      assert DistinctIds(convs[1..]) by {
        forall i, j | 0 <= i < j < |convs[1..]|
          ensures convs[1..][i].id != convs[1..][j].id
        {
          assert convs[1..][i] == convs[i + 1] && convs[1..][j] == convs[j + 1];
        }
      }
      FindOwned(convs[1..], c);
    }
  }

  /** Messages are in non-decreasing timestamp order. */
  ghost predicate Chronological(msgs: seq<Message>)
  {
    forall i, j :: 0 <= i < j < |msgs| ==> msgs[i].timestamp <= msgs[j].timestamp
  }

  function Reverse<T>(s: seq<T>): (r: seq<T>)
    ensures |r| == |s|
    ensures forall k :: 0 <= k < |s| ==> r[k] == s[|s| - 1 - k]
  {
    if s == [] then [] else Reverse(s[1..]) + [s[0]]
  }

  /** `list(reversed(messages.order_by('-timestamp')[:10]))`: the newest ten
      messages, put back into oldest-first order. */
  function Recent(msgs: seq<Message>): seq<Message>
  {
    Reverse(Take(Reverse(msgs), ContextLimit))
  }

  /** The window is the last min(10, n) messages, in their stored order. */
  lemma RecentIsSuffix(msgs: seq<Message>)
    ensures |Recent(msgs)| == (if |msgs| < ContextLimit then |msgs| else ContextLimit)
    ensures Recent(msgs) == msgs[|msgs| - |Recent(msgs)|..]
  {
    var n := |Recent(msgs)|;
    var suffix := msgs[|msgs| - n..];
    forall k | 0 <= k < n
      ensures Recent(msgs)[k] == suffix[k]
    {
      assert Take(Reverse(msgs), ContextLimit)[n - 1 - k] == Reverse(msgs)[n - 1 - k];
    }
  }

  /** Over chronologically stored messages the window is itself
      chronological, and every message left out is no newer than every
      message kept. */
  lemma RecentIsNewest(msgs: seq<Message>)
    requires Chronological(msgs)
    ensures Chronological(Recent(msgs))
    ensures forall i, k :: 0 <= i < |msgs| - |Recent(msgs)| && 0 <= k < |Recent(msgs)| ==>
      msgs[i].timestamp <= Recent(msgs)[k].timestamp
  {
    RecentIsSuffix(msgs);
    var d := |msgs| - |Recent(msgs)|;
    forall i, k | 0 <= i < d && 0 <= k < |Recent(msgs)|
      ensures msgs[i].timestamp <= Recent(msgs)[k].timestamp
    {
      assert Recent(msgs)[k] == msgs[d + k];
    }
    forall i, j | 0 <= i < j < |Recent(msgs)|
      ensures Recent(msgs)[i].timestamp <= Recent(msgs)[j].timestamp
    {
      assert Recent(msgs)[i] == msgs[d + i] && Recent(msgs)[j] == msgs[d + j];
    }
  }

  /** The provider context of `get_ai_response`: empty unless an id and a
      user are given and the user owns a conversation with that id. */
  function ContextFor(convs: seq<Conversation>, id: Option<int>, user: Option<UserId>): seq<Message>
  {
    if Given(id, user) then
      match Find(convs, id, user)
      case Some(c) => Recent(c.messages)
      case None => []
    else []
  }

  /** The context holds at most ten messages; it is the latest part of the
      owned conversation when there is one, and empty otherwise. */
  lemma ContextWindow(convs: seq<Conversation>, id: Option<int>, user: Option<UserId>)
    ensures |ContextFor(convs, id, user)| <= ContextLimit
    ensures !Given(id, user) || Find(convs, id, user).None? ==> ContextFor(convs, id, user) == []
    ensures Given(id, user) && Find(convs, id, user).Some? ==>
      var msgs := Find(convs, id, user).value.messages;
      ContextFor(convs, id, user) == msgs[|msgs| - |ContextFor(convs, id, user)|..]
      && |ContextFor(convs, id, user)| == (if |msgs| < ContextLimit then |msgs| else ContextLimit)
  {
    if Given(id, user) && Find(convs, id, user).Some? {
      RecentIsSuffix(Find(convs, id, user).value.messages);
    }
  }

  /** The conversation table: the stored conversations and the next
      primary key to hand out. */
  class Store {
    var conversations: seq<Conversation>
    var nextId: int

    ghost predicate Valid()
      reads this
    {
      nextId >= 1 && DistinctIds(conversations)
      && forall i :: 0 <= i < |conversations| ==> 1 <= conversations[i].id < nextId
    }

    constructor ()
      ensures Valid() && conversations == [] && nextId == 1
    {
      conversations := [];
      nextId := 1;
    }

    /** `get_or_create_conversation`: the owned conversation with the given
        id; otherwise, when a user is given, a fresh "New Chat" for that
        user; with no user, the `ValueError`. */
    method GetOrCreateConversation(id: Option<int>, user: Option<UserId>)
      returns (r: Result<Conversation, string>)
      requires Valid()
      modifies this
      ensures Valid()
      ensures Given(id, user) && Find(old(conversations), id, user).Some? ==>
        r == Ok(Find(old(conversations), id, user).value)
        && conversations == old(conversations) && nextId == old(nextId)
      ensures (!Given(id, user) || Find(old(conversations), id, user).None?) && user.Some? ==>
        var created := Conversation(old(nextId), user.value, DefaultTitle, []);
        r == Ok(created) && conversations == old(conversations) + [created] && nextId == old(nextId) + 1
      ensures user.None? ==>
        r == Err(UserRequiredError) && conversations == old(conversations) && nextId == old(nextId)
    {
      if Given(id, user) {
        var found := Find(conversations, id, user);
        if found.Some? {
          return Ok(found.value);
        }
      }
      if user.Some? {
        var c := Conversation(nextId, user.value, DefaultTitle, []);
        conversations := conversations + [c];
        nextId := nextId + 1;
        return Ok(c);
      }
      return Err(UserRequiredError);
    }
  }
}
