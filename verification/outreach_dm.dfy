/** `generate_gpt_dm` of multiaccount.py: classify the target's biography
    into an interest label, build the worker's own prompt around the
    personalization sentence, and fall back to the canned message exactly
    as agent/gptDm.py does. */
module OutreachDm {
  import opened Common
  import opened Text
  import opened GptDm

  const MindfulJournaling: string := "mindful journaling"
  const TravelAndExploration: string := "travel and exploration"
  const WellnessAndGrowth: string := "wellness and personal growth"
  const ArtAndCreativity: string := "art and creativity"

  /** The `if`/`elif` chain on the lower-cased biography. */
  function InterestOf(bio: string): (r: Option<string>)
    ensures r.Some? ==> r.value != []
  {
    var b := Lower(bio);
    if Contains(b, "journal") || Contains(b, "mindful") then Some(MindfulJournaling)
    else if Contains(b, "travel") then Some(TravelAndExploration)
    else if Contains(b, "fitness") then Some(WellnessAndGrowth)
    else if Contains(b, "art") || Contains(b, "design") then Some(ArtAndCreativity)
    else None
  }

  // ----- an independent statement of the classification: first match in a rule table -----

  datatype InterestRule = InterestRule(keywords: seq<string>, interest: string)

  /** The chain's conditions in the order they are tried. */
  const InterestRules: seq<InterestRule> := [
    InterestRule(["journal", "mindful"], MindfulJournaling),
    InterestRule(["travel"], TravelAndExploration),
    InterestRule(["fitness"], WellnessAndGrowth),
    InterestRule(["art", "design"], ArtAndCreativity)
  ]

  predicate RuleMatches(text: string, rule: InterestRule)
  {
    exists k | 0 <= k < |rule.keywords| :: Contains(text, rule.keywords[k])
  }

  /** The index of the first rule whose keywords occur in `text`. */
  function FirstMatching(text: string, rules: seq<InterestRule>): (r: Option<nat>)
    ensures r.Some? ==> r.value < |rules| && RuleMatches(text, rules[r.value])
    ensures r.Some? ==> forall j :: 0 <= j < r.value ==> !RuleMatches(text, rules[j])
    ensures r.None? ==> forall j :: 0 <= j < |rules| ==> !RuleMatches(text, rules[j])
  {
    if rules == [] then None
    else if RuleMatches(text, rules[0]) then Some(0)
    else
      match FirstMatching(text, rules[1..])
      case None => None
      case Some(i) => Some(i + 1)
  }

  /** Matching a rule is matching one of its keywords, spelled out for the
      one- and two-keyword rules of the table. */
  lemma RuleMatchesAny(text: string, rule: InterestRule)
    requires 1 <= |rule.keywords| <= 2
    ensures |rule.keywords| == 1 ==> (RuleMatches(text, rule) <==> Contains(text, rule.keywords[0]))
    ensures |rule.keywords| == 2 ==> (RuleMatches(text, rule) <==> Contains(text, rule.keywords[0]) || Contains(text, rule.keywords[1]))
  {
    if Contains(text, rule.keywords[0]) {
      assert RuleMatches(text, rule);
    }
    if |rule.keywords| == 2 && Contains(text, rule.keywords[1]) {
      assert RuleMatches(text, rule);
    }
  }

  /** The chain is first-match over the rule table: the label returned is that
      of the earliest rule with a keyword in the lower-cased biography, and
      there is no label exactly when no rule has one. */
  lemma InterestIsFirstMatch(bio: string)
    ensures var m := FirstMatching(Lower(bio), InterestRules);
      InterestOf(bio) == if m.None? then None else Some(InterestRules[m.value].interest)
  {
    var b := Lower(bio);
    var rs := InterestRules;
    RuleMatchesAny(b, rs[0]);
    RuleMatchesAny(b, rs[1]);
    RuleMatchesAny(b, rs[2]);
    RuleMatchesAny(b, rs[3]);
    var m := FirstMatching(b, rs);
    if m.Some? {
      assert m.value < 4;
    }
  }

  /** Precedence and substring matching at work: a travel journal counts as
      journaling, and "art" is found inside "party". */
  lemma InterestExamples()
    ensures InterestOf("Travel Journal") == Some(MindfulJournaling)
    ensures InterestOf("party planner") == Some(ArtAndCreativity)
    ensures InterestOf("") == None
  {
    var b := Lower("Travel Journal");
    assert b[7..14] == "journal";
    assert OccursAt(b, "journal", 7);
    var p := Lower("party planner");
    assert p[1..4] == "art";
    assert OccursAt(p, "art", 1);
    assert !Contains(p, "journal") && !Contains(p, "mindful") && !Contains(p, "travel") && !Contains(p, "fitness") by {
      assert forall k :: 0 <= k < |p| ==> p[k] != 'j' && p[k] != 'm' && p[k] != 'v' && p[k] != 'f';
      assert !Contains(p, "travel") by {
        forall k | 0 <= k <= |p| - 6 ensures !OccursAt(p, "travel", k) {
          assert p[k..k + 6][3] == p[k + 3];
        }
      }
      assert !Contains(p, "journal") by {
        forall k | 0 <= k <= |p| - 7 ensures !OccursAt(p, "journal", k) {
          assert p[k..k + 7][0] == p[k];
        }
      }
      assert !Contains(p, "mindful") by {
        forall k | 0 <= k <= |p| - 7 ensures !OccursAt(p, "mindful", k) {
          assert p[k..k + 7][0] == p[k];
        }
      }
      assert !Contains(p, "fitness") by {
        forall k | 0 <= k <= |p| - 7 ensures !OccursAt(p, "fitness", k) {
          assert p[k..k + 7][0] == p[k];
        }
      }
    }
  }

  /** The prompt template of multiaccount.py (its last three guidelines differ
      from agent/gptDm.py's). */
  const WorkerPromptHead: string :=
    "\nYou are writing a short, natural Instagram DM (1–2 sentences) as a friendly journaling enthusiast reaching out to "
  const WorkerPromptMiddle: string :=
    ".\nYou’re introducing *Sentari AI*, a journaling companion that helps people reflect on moods and personal growth.\n\n"
    + "💬 Guidelines:\n"
    + "- Make it sound like a genuine person, not a brand.\n"
    + "- Mention “Sentari AI” exactly once, woven naturally into the sentence.\n"
    + "- Be warm, curious, and human — like someone who also loves journaling."
  const WorkerPromptTail: string :=
    "- Vary the message style each time: some reflective, some curious, some lightly funny.\n"
    + "- Use emojis *only when they fit* (✨, 🌿, 💭, 📖).\n"
    + "- Avoid “Hey, check this out!” or hashtags.\n"
    + "- Make it sound personal and spontaneous.\n"

  function WorkerPrompt(toUser: string, personalization: string): (r: string)
    ensures Contains(r, "@" + toUser)
    ensures Contains(r, "\n- " + personalization + "\n")
  {
    TemplateMentions(WorkerPromptHead, toUser, WorkerPromptMiddle, personalization, WorkerPromptTail);
    WorkerPromptHead + "@" + toUser + WorkerPromptMiddle + "\n- " + personalization + "\n" + WorkerPromptTail
  }

  /** `generate_gpt_dm(to_user, bio, competitor)`: the prompt is personalized
      with the biography's interest label, or with the competitor when the
      biography matches no rule; the result is never empty. */
  function GenerateGptDm(toUser: string, bio: string, competitor: string, llm: string -> LlmReply): (r: string)
    ensures r != [] && Stripped(r)
    ensures var reply := llm(WorkerPrompt(toUser, Personalization(competitor, InterestOf(bio))));
      && (reply.LlmRaised? ==> r == CannedMessage)
      && (reply.Completed? && Strip(reply.content) != [] ==> r == Strip(reply.content))
      && (reply.Completed? && Strip(reply.content) == [] ==> r == CannedMessage)
  {
    var interests := InterestOf(bio);
    var personalization := Personalization(competitor, interests);
    var prompt := WorkerPrompt(toUser, personalization);
    FinishReply(llm(prompt))
  }

  /** The personalization sentence names the matched interest, or the
      competitor when nothing in the biography matched. */
  lemma PersonalizationOfBio(bio: string, competitor: string)
    ensures InterestOf(bio).Some? ==> Contains(Personalization(competitor, InterestOf(bio)), InterestOf(bio).value)
    ensures InterestOf(bio).None? ==> Contains(Personalization(competitor, InterestOf(bio)), competitor)
  {
  }
}
