/**
 * Demo mode: canned replies chosen by a fixed phrase table, with no cache,
 * no provider and no stored state involved.
 */
module Demo {

  import opened Wrappers
  import opened Text

  /** The response table, in declaration order (Python dicts iterate in
      insertion order, which decides the first substring match). */
  const Responses: seq<(string, string)> := [
    ("hello", "Hello! How can I help you today? (Demo Mode)"),
    ("hi", "Hi there! I'm ready to assist you. (Demo Mode)"),
    ("how are you", "I'm doing great! Thanks for asking. (Demo Mode)"),
    ("what is your name", "I'm your AI assistant powered by Gemini! (Demo Mode)"),
    ("what can you do", "I can help you with various tasks like answering questions, creative writing, coding help, and more! (Demo Mode)"),
    ("bye", "Goodbye! Have a great day! (Demo Mode)"),
    ("goodbye", "See you later! Feel free to come back anytime. (Demo Mode)"),
    ("help", "I'm here to help! You can ask me questions, request explanations, or chat about various topics. (Demo Mode)"),
    ("test", "This is a test response. Everything is working correctly! (Demo Mode)")
  ]

  /** `message.lower().strip()` */
  function Normalize(message: string): string
  {
    Strip(Lower(message), Whitespace)
  }

  /** The default reply; it quotes the message as received, not normalized. */
  function Echo(message: string): string
  {
    "Demo Mode: I received your message '" + message
      + "'. In real mode, I would provide an intelligent AI response using Gemini!"
  }

  predicate IsPhrase(key: string)
  {
    exists i :: 0 <= i < |Responses| && Responses[i].0 == key
  }

  /** No two table entries share a phrase, so a dictionary lookup is well defined. */
  lemma PhrasesDistinct()
    ensures forall i, j :: 0 <= i < j < |Responses| ==> Responses[i].0 != Responses[j].0
  {
  }

  /** The position of `key` in the table at or after `from`: the dictionary
      lookup `key in responses`. */
  function ExactIndex(key: string, from: nat): (r: Option<nat>)
    decreases |Responses| - from
    ensures r.Some? ==> from <= r.value < |Responses| && Responses[r.value].0 == key
    ensures r.None? ==> forall j :: from <= j < |Responses| ==> Responses[j].0 != key
  {
    if from >= |Responses| then None
    else if Responses[from].0 == key then Some(from)
    else ExactIndex(key, from + 1)
  }

  /** The first position at or after `from` whose phrase occurs in `key`. */
  function FirstContained(key: string, from: nat): (r: Option<nat>)
    decreases |Responses| - from
    ensures r.Some? ==>
      from <= r.value < |Responses| && Contains(key, Responses[r.value].0)
      && forall j :: from <= j < r.value ==> !Contains(key, Responses[j].0)
    ensures r.None? ==> forall j :: from <= j < |Responses| ==> !Contains(key, Responses[j].0)
  {
    if from >= |Responses| then None
    else if Contains(key, Responses[from].0) then Some(from)
    else FirstContained(key, from + 1)
  }

  /** The demo reply to `message`: the entry of the exact phrase, else the
      entry of the first phrase (in table order) contained in the normalized
      message, else the echo. The three lemmas below state each case. */
  function DemoReply(message: string): string
  {
    var key := Normalize(message);
    match ExactIndex(key, 0)
    case Some(i) => Responses[i].1
    case None =>
      match FirstContained(key, 0)
      case Some(i) => Responses[i].1
      case None => Echo(message)
  }

  /** A normalized message equal to a phrase gets that phrase's entry. */
  lemma ExactReply(message: string, i: nat)
    requires i < |Responses| && Responses[i].0 == Normalize(message)
    ensures DemoReply(message) == Responses[i].1
  {
    PhrasesDistinct();
  }

  /** Otherwise the first phrase of the table that occurs in the normalized
      message decides the entry. */
  lemma FirstContainedReply(message: string, i: nat)
    requires i < |Responses| && !IsPhrase(Normalize(message))
    requires Contains(Normalize(message), Responses[i].0)
    requires forall j :: 0 <= j < i ==> !Contains(Normalize(message), Responses[j].0)
    ensures DemoReply(message) == Responses[i].1
  {
    var key := Normalize(message);
    assert ExactIndex(key, 0).None?;
    assert FirstContained(key, 0) == Some(i);
  }

  /** With no phrase equal to or contained in it, the message is echoed. */
  lemma EchoReply(message: string)
    requires !IsPhrase(Normalize(message))
    requires forall j :: 0 <= j < |Responses| ==> !Contains(Normalize(message), Responses[j].0)
    ensures DemoReply(message) == Echo(message)
  {
    assert ExactIndex(Normalize(message), 0).None?;
  }

  /** `_get_demo_response`: an exact lookup, then a first-match search loop
      with early return, then the echo. */
  method DemoResponse(message: string) returns (reply: string)
    ensures reply == DemoReply(message)
  {
    var key := Normalize(message);
    var exact := ExactIndex(key, 0);
    if exact.Some? {
      return Responses[exact.value].1;
    }
    var i := 0;
    while i < |Responses|
      invariant 0 <= i <= |Responses|
      invariant FirstContained(key, i) == FirstContained(key, 0)
    {
      if Contains(key, Responses[i].0) {
        return Responses[i].1;
      }
      i := i + 1;
    }
    return Echo(message);
  }

  /** A demo reply is never empty. */
  lemma DemoReplyNonEmpty(message: string)
    ensures DemoReply(message) != ""
  {
    RepliesNonEmpty();
    assert |Echo(message)| > 0;
  }

  lemma RepliesNonEmpty()
    ensures forall i :: 0 <= i < |Responses| ==> Responses[i].1 != ""
  {
  }

  /** The phrases of the table, position by position. */
  lemma Phrases()
    ensures Responses[0].0 == "hello" && Responses[1].0 == "hi" && Responses[2].0 == "how are you"
    ensures Responses[3].0 == "what is your name" && Responses[4].0 == "what can you do"
    ensures Responses[5].0 == "bye" && Responses[6].0 == "goodbye" && Responses[7].0 == "help"
    ensures Responses[8].0 == "test"
  {
  }

  /** The replies the scenarios below end in. */
  lemma GreetingText()
    ensures Responses[0].1 == "Hello! How can I help you today? (Demo Mode)"
  {
  }

  lemma HiText()
    ensures Responses[1].1 == "Hi there! I'm ready to assist you. (Demo Mode)"
  {
  }

  lemma ByeText()
    ensures Responses[5].1 == "Goodbye! Have a great day! (Demo Mode)"
  {
  }

  /** A message already in normal form (no upper-case letters, no
      surrounding whitespace) is its own key. */
  lemma NormalizeUnchanged(message: string)
    requires message != [] && message[0] !in Whitespace && message[|message| - 1] !in Whitespace
    requires forall i :: 0 <= i < |message| ==> !IsUpperAscii(message[i])
    ensures Normalize(message) == message
  {
    assert Lower(message) == message;
    StripUnchanged(message, Whitespace);
  }

  /** "hello" is answered with the greeting entry. */
  lemma ExactHello()
    ensures DemoReply("hello") == "Hello! How can I help you today? (Demo Mode)"
  {
    ExactHelloEntry();
    GreetingText();
  }

  lemma ExactHelloEntry()
    ensures DemoReply("hello") == Responses[0].1
  {
    NormalizeUnchanged("hello");
    Phrases();
  }

  /** A message that only contains "hello" gets the same greeting, because
      "hello" is the first phrase of the table. */
  lemma {:induction false} ContainsHello(message: string)
    requires !IsPhrase(Normalize(message))
    requires Contains(Normalize(message), "hello")
    ensures DemoReply(message) == Responses[0].1
  {
    Phrases();
    FirstContainedReply(message, 0);
  }

  /** A phrase inside a longer message is matched by substring search:
      "I said hello there" gets the greeting. */
  lemma SaidHelloThere()
    ensures DemoReply("I said hello there") == "Hello! How can I help you today? (Demo Mode)"
  {
    SaidHelloThereEntry();
    GreetingText();
  }

  lemma SaidHelloThereEntry()
    ensures DemoReply("I said hello there") == Responses[0].1
  {
    assert Normalize("I said hello there") == "i said hello there" by {
      assert Lower("I said hello there") == "i said hello there";
      StripUnchanged("i said hello there", Whitespace);
    }
    HelloThereReply("I said hello there");
  }

  lemma HelloThereReply(message: string)
    requires Normalize(message) == "i said hello there"
    ensures DemoReply(message) == Responses[0].1
  {
    HelloInside();
    ContainsAt(Normalize(message), "hello", 7);
    ContainsHello(message);
  }

  lemma HelloInside()
    ensures OccursAt("i said hello there", "hello", 7)
    ensures !IsPhrase("i said hello there")
  {
    assert "i said hello there" == "i said " + "hello" + " there";
    OccursInMiddle("i said ", "hello", " there");
    Phrases();
    assert |"i said hello there"| == 18;
  }

  /** "this" is answered by the "hi" entry: "hi" is tried before every later
      phrase, and "hello" is too long to occur in it. */
  lemma ThisMatchesHi()
    ensures DemoReply("this") == "Hi there! I'm ready to assist you. (Demo Mode)"
  {
    ThisEntry();
    HiText();
  }

  lemma ThisEntry()
    ensures DemoReply("this") == Responses[1].1
  {
    NormalizeUnchanged("this");
    ThisReply("this");
  }

  lemma ThisReply(message: string)
    requires Normalize(message) == "this"
    ensures DemoReply(message) == Responses[1].1
  {
    var key := Normalize(message);
    Phrases();
    assert !IsPhrase(key) by { assert key == "this"; }
    assert Contains(key, Responses[1].0) by {
      assert key == "t" + "hi" + "s";
      OccursInMiddle("t", "hi", "s");
      ContainsAt(key, "hi", 1);
    }
    assert !Contains(key, Responses[0].0) by { ContainsLength(key, "hello"); }
    FirstContainedReply(message, 1);
  }

  /** "goodbye!" is not a phrase; "bye" occurs in it and comes before
      "goodbye" in the table, so it gets the "bye" entry. */
  lemma GoodbyeBangMatchesBye()
    ensures DemoReply("goodbye!") == "Goodbye! Have a great day! (Demo Mode)"
  {
    GoodbyeBangEntry();
    ByeText();
  }

  lemma GoodbyeBangEntry()
    ensures DemoReply("goodbye!") == Responses[5].1
  {
    NormalizeUnchanged("goodbye!");
    GoodbyeBangFacts();
    ContainsAt("goodbye!", "bye", 4);
    ContainsBye("goodbye!");
  }

  /** A key that is not a phrase, contains "bye" and none of the five
      phrases before it gets the "bye" entry. */
  lemma ContainsBye(key: string)
    requires !IsPhrase(key) && Contains(key, "bye")
    requires !Contains(key, "hello") && !Contains(key, "hi") && !Contains(key, "how are you")
    requires !Contains(key, "what is your name") && !Contains(key, "what can you do")
    ensures forall message :: Normalize(message) == key ==> DemoReply(message) == Responses[5].1
  {
    Phrases();
    forall j | 0 <= j < 5
      ensures !Contains(key, Responses[j].0)
    {
      if j == 0 {} else if j == 1 {} else if j == 2 {} else if j == 3 {} else {}
    }
    forall message | Normalize(message) == key
      ensures DemoReply(message) == Responses[5].1
    {
      FirstContainedReply(message, 5);
    }
  }

  lemma GoodbyeBangFacts()
    ensures OccursAt("goodbye!", "bye", 4)
    ensures !IsPhrase("goodbye!")
    ensures !Contains("goodbye!", "hello") && !Contains("goodbye!", "hi")
    ensures !Contains("goodbye!", "how are you") && !Contains("goodbye!", "what is your name")
    ensures !Contains("goodbye!", "what can you do")
  {
    ByeInside("goodbye!");
    GoodbyeBangNotPhrase("goodbye!");
    NoGreetingIn("goodbye!");
    ContainsLength("goodbye!", "how are you");
    ContainsLength("goodbye!", "what is your name");
    ContainsLength("goodbye!", "what can you do");
  }

  lemma ByeInside(key: string)
    requires key == "goodbye!"
    ensures OccursAt(key, "bye", 4)
  {
    assert key == "good" + "bye" + "!";
    OccursInMiddle("good", "bye", "!");
  }

  lemma GoodbyeBangNotPhrase(key: string)
    requires key == "goodbye!"
    ensures !IsPhrase(key)
  {
    Phrases();
    assert key[7] == '!';
  }

  lemma NoGreetingIn(key: string)
    requires key == "goodbye!"
    ensures !Contains(key, "hello") && !Contains(key, "hi")
  {
    assert Lacks(key, {'h'});
    LacksLetter(key, "hello", 0, {'h'});
    LacksLetter(key, "hi", 0, {'h'});
  }
}
