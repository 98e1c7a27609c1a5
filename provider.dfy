/**
 * What is sent to and received from the generation provider: the turns of
 * the prompt, and the candidates of a reply.
 */
module Provider {

  import opened Wrappers
  import opened Conversations

  datatype Role = User | Model

  /** The role string the provider expects. */
  function RoleName(r: Role): string
  {
    match r
    case User => "user"
    case Model => "model"
  }

  /** One turn of the prompt: a role and the text of its one part. */
  datatype Turn = Turn(role: Role, text: string)

  /** A candidate of the reply, reduced to the texts of its content parts; a
      candidate without content is one with no parts. */
  datatype Candidate = Candidate(parts: seq<string>)

  /** What one call to the provider comes back with: an exception carrying
      its text, or a response with zero or more candidates. */
  datatype ProviderReply = Raised(error: string) | Returned(candidates: seq<Candidate>)

  const NoCandidatesError := "No candidates in response"
  const NoContentError := "No content in response candidate"

  /** A stored message as a prompt turn: the user's messages speak as
      "user", the assistant's as "model". */
  function TurnOf(m: Message): Turn
  {
    Turn(if m.isUser then User else Model, m.content)
  }

  /** The prompt for `message` after `history`: one turn per history
      message in order, then the new message as the final user turn. */
  function Prompt(history: seq<Message>, message: string): (p: seq<Turn>)
    ensures |p| == |history| + 1
    ensures forall i :: 0 <= i < |history| ==>
      p[i].text == history[i].content && (p[i].role == User <==> history[i].isUser)
    ensures p[|history|] == Turn(User, message)
  {
    if history == [] then [Turn(User, message)]
    else [TurnOf(history[0])] + Prompt(history[1..], message)
  }

  /** The loop of `_get_gemini_response` that appends one turn per history
      message, then the new message. */
  method BuildPrompt(history: seq<Message>, message: string) returns (turns: seq<Turn>)
    ensures turns == Prompt(history, message)
  {
    turns := [];
    var i := 0;
    while i < |history|
      invariant 0 <= i <= |history|
      invariant |turns| == i
      invariant forall k :: 0 <= k < i ==> turns[k] == TurnOf(history[k])
    {
      turns := turns + [TurnOf(history[i])];
      i := i + 1;
    }
    turns := turns + [Turn(User, message)];
  }

  /** The text of the first part of the first candidate, or the text of the
      error the source raises on the way there. */
  function Extract(reply: ProviderReply): (r: Result<string, string>)
    ensures r.Ok? <==>
      reply.Returned? && |reply.candidates| > 0 && |reply.candidates[0].parts| > 0
    ensures r.Ok? ==> r.value == reply.candidates[0].parts[0]
    ensures reply.Raised? ==> r == Err(reply.error)
    ensures reply.Returned? && reply.candidates == [] ==> r == Err(NoCandidatesError)
    ensures reply.Returned? && reply.candidates != [] && reply.candidates[0].parts == [] ==>
      r == Err(NoContentError)
  {
    match reply
    case Raised(e) => Err(e)
    case Returned(cands) =>
      if |cands| > 0 then
        if |cands[0].parts| > 0 then Ok(cands[0].parts[0]) else Err(NoContentError)
      else Err(NoCandidatesError)
  }
}
