/**
 * Conversation titles: the prompt that asks for one, the demo-mode title,
 * and the clean-up applied to the provider's answer.
 */
module Titles {

  import opened Wrappers
  import opened Text
  import opened Conversations

  /** How many of the first messages the title is made from. */
  const TitleMessages: nat := 5

  /** How many characters of the joined messages go into the prompt. */
  const PromptBodyLimit: nat := 200

  const SummaryInstruction := "Create a short title (max 6 words) for this conversation: "

  const MaxTitle: nat := 50

  /** How much of an over-long title is kept before the ellipsis. */
  const KeptPrefix: nat := 47

  const Ellipsis := "..."

  const DemoPrefix := "Chat about "

  const DemoFallbackWord := "topic"

  /** `" ".join([msg.content for msg in messages])` */
  function MessageText(msgs: seq<Message>): string
  {
    Join(Contents(msgs), " ")
  }

  /** The request for a title: the fixed instruction followed by at most the
      first 200 characters of the messages' text. */
  function SummaryPrompt(text: string): (p: string)
    ensures SummaryInstruction <= p
    ensures p[|SummaryInstruction|..] <= text
    ensures |p| - |SummaryInstruction| == (if |text| < PromptBodyLimit then |text| else PromptBodyLimit)
  {
    SummaryInstruction + Take(text, PromptBodyLimit)
  }

  /** The demo-mode title. */
  function DemoTitle(text: string): string
  {
    DemoPrefix + match FirstWord(text) case Some(w) => w case None => DemoFallbackWord
  }

  /** The demo title is "Chat about " and one word: the first
      whitespace-separated word of the text, or "topic" if it has none. */
  lemma DemoTitleShape(text: string)
    ensures DemoPrefix <= DemoTitle(text)
    ensures var word := DemoTitle(text)[|DemoPrefix|..];
      word != [] && (forall k :: 0 <= k < |word| ==> word[k] !in Whitespace)
      && (word == DemoFallbackWord <==> FirstWord(text).None? || FirstWord(text) == Some(DemoFallbackWord))
    ensures FirstWord(text).Some? ==> DemoTitle(text) == DemoPrefix + FirstWord(text).value
    ensures FirstWord(text).None? ==> DemoTitle(text) == DemoPrefix + DemoFallbackWord
  {
    var word := DemoTitle(text)[|DemoPrefix|..];
    match FirstWord(text)
    case Some(w) => assert word == w;
    case None =>
      assert word == DemoFallbackWord;
      assert forall k :: 0 <= k < |word| ==> word[k] in "topic";
  }

  /** `if len(summary) > 50: summary = summary[:47] + "..."` */
  function Shorten(s: string): (r: string)
    ensures |r| <= MaxTitle
    ensures |s| <= MaxTitle ==> r == s
    ensures |s| > MaxTitle ==> |r| == MaxTitle && r[..KeptPrefix] == s[..KeptPrefix] && r[KeptPrefix..] == Ellipsis
  {
    if |s| > MaxTitle then s[..KeptPrefix] + Ellipsis else s
  }

  /** `summary.strip().strip('"').strip("'")`, then the length cap. */
  function CleanTitle(reply: string): string
  {
    Shorten(Strip(Strip(Strip(reply, Whitespace), {'"'}), {'\''}))
  }

  /** A cleaned title never exceeds 50 characters, and one that did not
      need cutting is exactly the stripped reply. */
  lemma CleanTitleBound(reply: string)
    ensures |CleanTitle(reply)| <= MaxTitle
    ensures var stripped := Strip(Strip(Strip(reply, Whitespace), {'"'}), {'\''});
      |stripped| <= MaxTitle ==> CleanTitle(reply) == stripped
  {
  }

  /** A reply of only quotes cleans to the empty title: the live path can
      return "" where one might expect a fallback. */
  lemma QuotesCleanToEmpty()
    ensures CleanTitle("\"\"") == ""
  {
    assert Strip("\"\"", Whitespace) == "\"\"" by {
      StripUnchanged("\"\"", Whitespace);
    }
    assert Run("\"\"", {'"'}, true) == 2;
  }

  /** Quote stripping happens after whitespace stripping, so whitespace that
      sits inside the quotes survives. */
  lemma InnerWhitespaceSurvives()
    ensures CleanTitle("' x '") == " x "
  {
    StripsToInner();
    CleanTitleBound("' x '");
  }

  lemma StripsToInner()
    ensures Strip(Strip(Strip("' x '", Whitespace), {'"'}), {'\''}) == " x "
  {
    StripUnchanged("' x '", Whitespace);
    StripUnchanged("' x '", {'"'});
    StripSingleQuotes();
  }

  lemma StripSingleQuotes()
    ensures Strip("' x '", {'\''}) == " x "
  {
    assert Run("' x '", {'\''}, true) == 1;
    assert TrailingRun(" x '", {'\''}) == 1;
  }
}
