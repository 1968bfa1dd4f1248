/** The message generator of agent/gptDm.py: pick a personalization sentence,
    fill in the prompt template, ask the language model, and fall back to one
    canned message when the model fails or answers with nothing. */
module GptDm {
  import opened Common
  import opened Text

  /** What the chat-completion call gives back: the content of the first
      choice, or an exception (network error, timeout, no choices, a `None`
      content whose `.strip()` raises). */
  datatype LlmReply = Completed(content: string) | LlmRaised

  const CannedMessage: string := "Hey!" + " I’ve been journaling with Sentari AI lately—it’s been surprisingly grounding ✨"
  const DefaultCompetitor: string := "Dreamland Journals"

  const InterestsLead: string := "They seem genuinely into "
  const CompetitorLead: string := "They follow "
  const CompetitorTail: string := ", which shares reflective and mindful journaling content."

  /** Python truthiness of `interests: str | None`: neither `None` nor `""`. */
  predicate Truthy(interests: Option<string>)
    ensures interests.None? ==> !Truthy(interests)
    ensures interests == Some("") ==> !Truthy(interests)
    ensures interests.Some? && |interests.value| > 0 ==> Truthy(interests)
  {
    interests.Some? && interests.value != ""
  }

  /** The personalization sentence: it names the interests when there are
      any, and the competitor account otherwise. */
  function Personalization(competitor: string, interests: Option<string>): (r: string)
    ensures Truthy(interests) ==> StartsWith(r, InterestsLead) && Contains(r, interests.value)
    ensures !Truthy(interests) ==> StartsWith(r, CompetitorLead) && Contains(r, competitor)
  {
    if Truthy(interests) then
      var r := InterestsLead + interests.value + ".";
      assert OccursAt(r, interests.value, |InterestsLead|);
      r
    else
      var r := CompetitorLead + competitor + CompetitorTail;
      assert OccursAt(r, competitor, |CompetitorLead|);
      r
  }

  /** The prompt template of agent/gptDm.py, split around the recipient and
      around the guideline line that holds the personalization sentence. */
  const AgentPromptHead: string :=
    "\nYou are writing a short, natural Instagram DM (1–2 sentences) as a friendly journaling enthusiast reaching out to "
  const AgentPromptMiddle: string :=
    ".\nYou’re introducing *Sentari AI*, a journaling companion that helps people reflect on moods and personal growth.\n\n"
    + "💬 Guidelines:\n"
    + "- Make it sound like a genuine person, not a brand.\n"
    + "- Mention “Sentari AI” exactly once, woven naturally into the sentence.\n"
    + "- Be warm, curious, and human — like someone who also loves journaling."
  const AgentPromptTail: string :=
    "- Vary the message style each time: some reflective, some curious, some lightly funny.\n"
    + "- Use emojis *only when they truly fit* the vibe (e.g. ✨, 🌿, 💭, 📖).\n"
    + "- No “Hey, check this out!” or hashtags.\n"
    + "- It should feel personal, spontaneous, and unique.\n"

  /** A template `head @user middle NL "- " sentence NL tail` mentions the
      recipient as `@user` and carries the sentence as a guideline line of its own. */
  lemma {:induction false} TemplateMentions(head: string, toUser: string, middle: string, sentence: string, tail: string)
    ensures Contains(head + "@" + toUser + middle + "\n- " + sentence + "\n" + tail, "@" + toUser)
    ensures Contains(head + "@" + toUser + middle + "\n- " + sentence + "\n" + tail, "\n- " + sentence + "\n")
  {
    var p := head + "@" + toUser + middle + "\n- " + sentence + "\n" + tail;
    var mention := "@" + toUser;
    assert p[|head|..|head| + |mention|] == mention;
    assert OccursAt(p, mention, |head|);
    var line := "\n- " + sentence + "\n";
    var at := |head| + |mention| + |middle|;
    assert p == (head + mention + middle) + line + tail;
    assert p[at..at + |line|] == line;
    assert OccursAt(p, line, at);
  }

  /** The prompt sent to the model: it addresses `@toUser` and lists the
      personalization sentence as one of its guidelines. */
  function AgentPrompt(toUser: string, personalization: string): (r: string)
    ensures Contains(r, "@" + toUser)
    ensures Contains(r, "\n- " + personalization + "\n")
  {
    TemplateMentions(AgentPromptHead, toUser, AgentPromptMiddle, personalization, AgentPromptTail);
    AgentPromptHead + "@" + toUser + AgentPromptMiddle + "\n- " + personalization + "\n" + AgentPromptTail
  }

  /** `msg = content.strip(); return msg or CANNED` with the `except` branch
      also returning the canned message: the result is never empty and never
      starts or ends with whitespace; a non-blank answer is passed through
      stripped, anything else becomes the canned message. */
  function FinishReply(reply: LlmReply): (r: string)
    ensures r != [] && Stripped(r)
    ensures reply.Completed? && Strip(reply.content) != [] ==> r == Strip(reply.content)
    ensures reply.LlmRaised? || Strip(reply.content) == [] ==> r == CannedMessage
  {
    match reply
    case LlmRaised =>
      assert CannedMessage[0] == 'H' && CannedMessage[|CannedMessage| - 1] == '✨';
      CannedMessage
    case Completed(content) =>
      assert CannedMessage[0] == 'H' && CannedMessage[|CannedMessage| - 1] == '✨';
      var msg := Strip(content);
      if msg != [] then msg else CannedMessage
  }

  /** `generate_dm`: the model is a total function from the prompt to its
      reply, so the exception path and the blank-answer path are inputs like
      any other. No exception leaves the function and the message is never empty. */
  function GenerateDm(toUser: string, competitor: string, interests: Option<string>,
                      llm: string -> LlmReply): (r: string)
    ensures r != [] && Stripped(r)
    ensures var reply := llm(AgentPrompt(toUser, Personalization(competitor, interests)));
      && (reply.LlmRaised? ==> r == CannedMessage)
      && (reply.Completed? && Strip(reply.content) != [] ==> r == Strip(reply.content))
      && (reply.Completed? && Strip(reply.content) == [] ==> r == CannedMessage)
  {
    var personalization := Personalization(competitor, interests);
    var prompt := AgentPrompt(toUser, personalization);
    FinishReply(llm(prompt))
  }
}
