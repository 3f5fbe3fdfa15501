/** The evaluation assistant that opens after the assessment is submitted: a canned
    evaluation built from the form data, a keyword-driven responder, the conversation
    it keeps, and the Markdown report it offers for download. */
module Chatbot {
  import opened Wrappers
  import opened Assoc
  import opened Text
  import opened Forms
  import BudgetStep

  datatype Role = User | Assistant | System
  datatype Message = Message(role: Role, content: string)
  datatype CostItem = CostItem(category: string, amount: string, description: string)
  datatype Costs = Costs(total: string, breakdown: seq<CostItem>)
  datatype Evaluation = Evaluation(summary: string, methodology: string, timeline: string,
                                   costs: Costs, recommendations: seq<string>)

  const SystemPrompt := "You are an AI Implementation Specialist that helps analyze enterprise requirements and provide detailed AI implementation plans."
  const Greeting := "Hello! I'm your AI Implementation Specialist. I've analyzed your requirements form and prepared a comprehensive evaluation. You can view the detailed analysis in the Evaluation tab, or ask me specific questions about the implementation plan, methodology, or costs."

  /** The two messages a conversation starts with. */
  const Seed := [Message(System, SystemPrompt), Message(Assistant, Greeting)]

  // ---------------------------------------------------------------------------------
  // Reading the form data the way the template literals do

  /** `formData.section?.field`. */
  function Field(fd: FormData, section: string, field: string): Option<Value>
  {
    match Get(fd, section)
    case None => None
    case Some(rec) => Get(rec, field)
  }

  /** `${v || fallback}`: a missing value or empty text gives the fallback; an array is
      truthy even when empty and prints comma-joined. */
  function TextOr(v: Option<Value>, fallback: string): (r: string)
    ensures v.None? || !Truthy(v.value) ==> r == fallback
    ensures v.Some? && Truthy(v.value) ==> r == JsString(v.value)
  {
    match v
    case None => fallback
    case Some(Str(s)) => if s == "" then fallback else s
    case Some(x) => JsString(x)
  }

  /** `${v?.[0] || fallback}`: the first element of an array or the first character of a
      text, or the fallback when there is none or it is falsy (empty text, the number 0). */
  function FirstItemOr(v: Option<Value>, fallback: string): (r: string)
    ensures v.Some? && v.value.Strs? && |v.value.items| > 0 && v.value.items[0] != "" ==> r == v.value.items[0]
    ensures v.None? || (v.value.Strs? && (v.value.items == [] || v.value.items[0] == "")) ==> r == fallback
  {
    match v
    case None => fallback
    case Some(Strs(items)) => if |items| == 0 || items[0] == "" then fallback else items[0]
    case Some(Str(s)) => if |s| == 0 then fallback else [s[0]]
    case Some(Nums(ns)) => if |ns| == 0 || ns[0] == 0 then fallback else IntToString(ns[0])
  }

  /** `v?.includes(pat)`: substring search on text, element search on an array. */
  predicate Includes(v: Option<Value>, pat: string)
  {
    match v
    case None => false
    case Some(Str(s)) => Contains(s, pat)
    case Some(Strs(items)) => pat in items
    case Some(Nums(_)) => false
  }

  // ---------------------------------------------------------------------------------
  // The cost estimate

  const Band1 := "$75,000 - $125,000"
  const Band2 := "$150,000 - $250,000"
  const Band3 := "$300,000 - $450,000"
  const Band4 := "$500,000 - $750,000"

  /** The first band whose marker the budget range contains, else the top band. */
  function CostTotal(budgetRange: Option<Value>): (total: string)
    ensures total in [Band1, Band2, Band3, Band4]
  {
    if Includes(budgetRange, "50k") then Band1
    else if Includes(budgetRange, "100k") then Band2
    else if Includes(budgetRange, "250k") then Band3
    else Band4
  }

  lemma LowCard(card: string, pre: string, post: string)
    requires card == pre + "50k" + post
    ensures CostTotal(Some(Str(card))) == Band1
  {
    ContainsMiddle(pre, "50k", post);
  }

  /** `includes` fails when the first character of `pat` does not occur in `s`. */
  lemma FirstCharAbsent(s: string, pat: string)
    requires |pat| > 0 && forall i :: 0 <= i < |s| ==> s[i] != pat[0]
    ensures !Contains(s, pat)
  {
    Absent(s, pat);
  }

  lemma TopCardMarkers(card: string)
    requires card == "500k-1m"
    ensures !Contains(card, "50k") && !Contains(card, "100k")
  {
    assert card[0..][..3] == "500";
    assert card[5..][..2] == "1m";
    forall i | 0 <= i < |card| && card[i] == '5' ensures i == 0 { }
    Absent(card, "50k");
    forall i | 0 <= i < |card| && card[i] == '1' ensures i == 5 { }
    Absent(card, "100k");
  }

  lemma OverCardMarkers(card: string)
    requires card == "over-1m"
    ensures !Contains(card, "50k") && !Contains(card, "100k")
  {
    FirstCharAbsent(card, "50k");
    assert card[5..][..2] == "1m";
    forall i | 0 <= i < |card| && card[i] == '1' ensures i == 5 { }
    Absent(card, "100k");
  }

  /** The two cards above "250k-500k" fall through every marker to the top band. */
  lemma HighCard(card: string)
    requires card == "500k-1m" || card == "over-1m"
    ensures CostTotal(Some(Str(card))) == Band4
  {
    if card == "500k-1m" {
      TopCardMarkers(card);
    } else {
      OverCardMarkers(card);
    }
    FirstCharAbsent(card, "250k");
  }

  /** Every budget card up to "250k-500k" contains "50k" and lands in the lowest band, the
      two cards above it in the highest: no card reaches the two middle bands. */
  lemma CardBand(k: nat)
    requires k < |BudgetStep.BudgetCards|
    ensures CostTotal(Some(Str(BudgetStep.BudgetCards[k]))) == if k < 4 then Band1 else Band4
  {
    var cards := BudgetStep.BudgetCards;
    var card := cards[k];
    if k == 0 {
      assert card == "under-" + "50k" + "";
      LowCard(card, "under-", "");
    } else if k == 1 {
      assert card == "" + "50k" + "-100k";
      LowCard(card, "", "-100k");
    } else if k == 2 {
      assert card == "100k-2" + "50k" + "";
      LowCard(card, "100k-2", "");
    } else if k == 3 {
      assert card == "2" + "50k" + "-500k";
      LowCard(card, "2", "-500k");
    } else {
      HighCard(card);
    }
  }

  /** A budget range never chosen, or cleared, gets the highest band. */
  lemma UnchosenBand()
    ensures CostTotal(Some(Str(""))) == Band4 && CostTotal(None) == Band4
  {
    assert !Contains("", "50k") && !Contains("", "100k") && !Contains("", "250k");
  }

  // ---------------------------------------------------------------------------------
  // The evaluation

  const MethodologyText := "Phase 1: Discovery & Planning (4-6 weeks)\n- Detailed requirements analysis\n- Technical architecture design\n- Stakeholder alignment sessions\n- Proof of concept development\n\nPhase 2: Implementation (8-12 weeks)\n- Core AI system development\n- Integration with existing systems\n- Initial testing and validation\n- User training programs\n\nPhase 3: Deployment & Optimization (4-6 weeks)\n- Production deployment\n- Performance monitoring\n- User feedback integration\n- Continuous optimization"

  const TimelineText := "Total Project Duration: 16-24 weeks\n\nMilestone 1 (Week 6): Completed discovery and approved technical design\nMilestone 2 (Week 12): Core functionality implemented and tested\nMilestone 3 (Week 18): Full deployment and user training completed\nMilestone 4 (Week 24): Performance optimization and handover"

  const Breakdown := [
    CostItem("Discovery & Planning", "$25,000 - $40,000", "Requirements analysis, technical design, and project planning"),
    CostItem("AI Development", "$40,000 - $80,000", "Custom AI model development and training"),
    CostItem("Integration & Testing", "$20,000 - $35,000", "System integration and comprehensive testing"),
    CostItem("Training & Support", "$15,000 - $25,000", "User training and 6-month support package"),
    CostItem("Infrastructure", "$10,000 - $20,000", "Cloud infrastructure and deployment costs")
  ]

  // The fixed pieces of the summary and recommendation templates.
  const SummaryOpening := "Based on your assessment, your "
  const SummaryMiddle := " sector shows strong potential for AI implementation. Your primary challenges around "
  const SummaryClosing := " can be effectively addressed through targeted AI solutions."
  const PilotOpening := "Start with a pilot project focusing on "
  const PilotClosing := " to demonstrate ROI"
  const CloudOpening := "Leverage your existing "
  const CloudClosing := " infrastructure to reduce implementation costs"
  const FixedRecommendations := [
    "Implement a phased rollout approach to minimize business disruption",
    "Establish clear success metrics and KPIs before implementation begins",
    "Invest in team training to ensure successful adoption and long-term success",
    "Consider starting with pre-built AI solutions before developing custom models",
    "Ensure data quality and governance processes are in place before AI implementation"
  ]

  function CompanyText(fd: FormData): string
  {
    TextOr(Field(fd, "organization", "companyName"), "organization")
  }

  /** The pieces of the summary template, placeholders filled in. */
  function SummaryParts(fd: FormData): seq<string>
  {
    [ SummaryOpening + CompanyText(fd),
      " in the ", TextOr(Field(fd, "organization", "industry"), "technology"),
      SummaryMiddle, FirstItemOr(Field(fd, "challenges", "selectedChallenges"), "operational efficiency"),
      SummaryClosing ]
  }

  function Summary(fd: FormData): string
  {
    Join(SummaryParts(fd), "")
  }

  /** The parts of the evaluation that do not depend on the answers: the methodology, the
      timeline, the cost breakdown and the last five recommendations. */
  datatype Script = Script(methodology: string, timeline: string, breakdown: seq<CostItem>, advice: seq<string>)

  /** The texts the site's mock evaluation uses. */
  const MockScript := Script(MethodologyText, TimelineText, Breakdown, FixedRecommendations)

  /** Two recommendations built from the answers, then the fixed advice unchanged. */
  function Recommendations(fd: FormData, advice: seq<string>): (recs: seq<string>)
    ensures |recs| == 2 + |advice| && recs[2..] == advice
  {
    [ PilotOpening + FirstItemOr(Field(fd, "challenges", "selectedChallenges"), "your primary challenge") + PilotClosing,
      CloudOpening + FirstItemOr(Field(fd, "technical", "cloudProviders"), "cloud") + CloudClosing ]
    + advice
  }

  /** `generateInitialEvaluation`, given the fixed texts it fills in. */
  function GenerateEvaluation(fd: FormData, script: Script): Evaluation
  {
    Evaluation(Summary(fd), script.methodology, script.timeline,
               Costs(CostTotal(Field(fd, "budget", "budgetRange")), script.breakdown),
               Recommendations(fd, script.advice))
  }

  /** The summary names the company when one was entered. */
  lemma SummaryNamesCompany(fd: FormData, name: string)
    requires Field(fd, "organization", "companyName") == Some(Str(name))
    ensures Contains(Summary(fd), name)
  {
    if name != "" {
      var parts := SummaryParts(fd);
      ContainsJoined(parts, "", 0);
      ContainsMiddle(SummaryOpening, name, "");
      assert SummaryOpening + name + "" == parts[0];
      ContainsTrans(Summary(fd), parts[0], name);
    }
  }

  /** Without a company name the summary speaks of "your organization". */
  lemma SummaryDefaultsToOrganization(fd: FormData)
    requires Field(fd, "organization", "companyName").None? || Field(fd, "organization", "companyName") == Some(Str(""))
    ensures Contains(Summary(fd), SummaryOpening + "organization")
  {
    ContainsJoined(SummaryParts(fd), "", 0);
  }

  /** The first challenge selected is the one the summary and the pilot recommendation
      are about; the first cloud provider is the infrastructure the second one builds on. */
  lemma EvaluationFollowsSelections(fd: FormData, advice: seq<string>)
    ensures var v := Field(fd, "challenges", "selectedChallenges");
            v.Some? && v.value.Strs? && |v.value.items| > 0 ==>
              Contains(Summary(fd), v.value.items[0]) && Contains(Recommendations(fd, advice)[0], v.value.items[0])
    ensures var v := Field(fd, "technical", "cloudProviders");
            v.Some? && v.value.Strs? && |v.value.items| > 0 ==>
              Contains(Recommendations(fd, advice)[1], v.value.items[0])
  {
    var v := Field(fd, "challenges", "selectedChallenges");
    if v.Some? && v.value.Strs? && |v.value.items| > 0 && v.value.items[0] != "" {
      ContainsJoined(SummaryParts(fd), "", 4);
      ContainsMiddle(PilotOpening, v.value.items[0], PilotClosing);
    }
    var w := Field(fd, "technical", "cloudProviders");
    if w.Some? && w.value.Strs? && |w.value.items| > 0 && w.value.items[0] != "" {
      ContainsMiddle(CloudOpening, w.value.items[0], CloudClosing);
    }
  }

  /** Every evaluation of the mock script lists five cost items and seven recommendations. */
  lemma MockEvaluationShape(fd: FormData)
    ensures |GenerateEvaluation(fd, MockScript).costs.breakdown| == 5
    ensures |GenerateEvaluation(fd, MockScript).recommendations| == 7
  {
  }

  /** An empty form gets every placeholder: "organization", "technology", "operational
      efficiency", "your primary challenge" and "cloud". */
  lemma EmptyFormPlaceholders(advice: seq<string>)
    ensures SummaryParts([]) == [SummaryOpening + "organization", " in the ", "technology",
                                 SummaryMiddle, "operational efficiency", SummaryClosing]
    ensures Recommendations([], advice)[0] == PilotOpening + "your primary challenge" + PilotClosing
    ensures Recommendations([], advice)[1] == CloudOpening + "cloud" + CloudClosing
  {
  }

  // ---------------------------------------------------------------------------------
  // The responder

  datatype Topic = AboutCost | AboutTimeline | AboutMethodology | AboutRecommendations | Unrecognised

  const CostWords := ["cost", "price", "budget"]
  const TimelineWords := ["timeline", "time", "duration"]
  const MethodologyWords := ["methodology", "approach", "process"]
  const RecommendationWords := ["recommendation", "advice", "suggest"]

  /** Some word of the group occurs in the question. */
  predicate Mentions(lower: string, words: seq<string>)
  {
    exists w :: w in words && Contains(lower, w)
  }

  /** The first group with a word in the lower-cased question decides the topic. */
  function TopicOf(lower: string): Topic
  {
    if Mentions(lower, CostWords) then AboutCost
    else if Mentions(lower, TimelineWords) then AboutTimeline
    else if Mentions(lower, MethodologyWords) then AboutMethodology
    else if Mentions(lower, RecommendationWords) then AboutRecommendations
    else Unrecognised
  }

  /** The "timeline" keyword is never the one that decides: "time" is inside it. */
  lemma TimelineImpliesTime(s: string)
    requires Contains(s, "timeline")
    ensures Contains(s, "time")
  {
    ContainsIff(s, "timeline");
    var i :| OccursAt(s, "timeline", i);
    assert s[i..i + 4] == s[i..i + 8][..4];
    assert OccursAt(s, "time", i);
    OccursAtContains(s, "time", i);
  }

  /** What the estimate is reported as: the evaluation's total, when there is one. */
  function EstimatedTotal(ev: Option<Evaluation>): string
  {
    if ev.Some? && ev.value.costs.total != "" then ev.value.costs.total else "to be determined"
  }

  // The canned answers.
  const CostOpening := "Based on your assessment, the estimated project cost is "
  const CostClosing := ". This includes discovery, development, integration, training, and support. The investment is structured to provide maximum value and ROI for your organization."
  const TimelineAnswer := "The implementation timeline is typically 16-24 weeks, broken down into three main phases: Discovery & Planning (4-6 weeks), Implementation (8-12 weeks), and Deployment & Optimization (4-6 weeks). We can adjust this timeline based on your specific requirements and urgency."
  const MethodologyAnswer := "Our methodology follows a proven three-phase approach: 1) Discovery & Planning - where we analyze your requirements and design the solution, 2) Implementation - where we develop and integrate the AI systems, and 3) Deployment & Optimization - where we deploy to production and optimize performance."
  const RecommendationsAnswer := "My key recommendations for your organization include starting with a pilot project to demonstrate ROI, leveraging your existing infrastructure, implementing a phased rollout, establishing clear success metrics, and investing in team training for successful adoption."
  const FallbackOpening := "Thank you for your question about "
  const FallbackClosing := ". Based on your assessment, I can provide detailed information about costs, timeline, methodology, or recommendations. What specific aspect would you like me to elaborate on?"

  /** The canned answer to a question. */
  function Reply(input: string, ev: Option<Evaluation>): string
  {
    match TopicOf(ToLower(input))
    case AboutCost => CostOpening + EstimatedTotal(ev) + CostClosing
    case AboutTimeline => TimelineAnswer
    case AboutMethodology => MethodologyAnswer
    case AboutRecommendations => RecommendationsAnswer
    case Unrecognised => FallbackOpening + ("\"" + input + "\"") + FallbackClosing
  }

  /** A cost question is answered with the evaluation's total, whatever it is. */
  lemma CostReplyQuotesTotal(input: string, ev: Option<Evaluation>)
    requires TopicOf(ToLower(input)) == AboutCost && ev.Some?
    ensures Contains(Reply(input, ev), ev.value.costs.total)
  {
    if ev.value.costs.total != "" {
      ContainsMiddle(CostOpening, ev.value.costs.total, CostClosing);
    }
  }

  /** Without an evaluation, or with an empty total, a cost question gets "to be determined". */
  lemma CostReplyUndetermined(input: string, ev: Option<Evaluation>)
    requires TopicOf(ToLower(input)) == AboutCost && (ev.None? || ev.value.costs.total == "")
    ensures Contains(Reply(input, ev), "to be determined")
  {
    ContainsMiddle(CostOpening, "to be determined", CostClosing);
  }

  /** An unrecognised question is echoed back in quotes as typed, case included. */
  /** Every keyword the responder looks for, in the order it tests them. */
  const Keywords := CostWords + TimelineWords + MethodologyWords + RecommendationWords

  /** The cost keywords are tested first: a question naming a cost keyword gets the cost
      answer whatever else it mentions. */
  lemma CostKeywordWins(input: string, ev: Option<Evaluation>, w: string)
    requires w in CostWords && Contains(ToLower(input), w)
    ensures TopicOf(ToLower(input)) == AboutCost
    ensures Reply(input, ev) == CostOpening + EstimatedTotal(ev) + CostClosing
  {
  }

  /** A question naming no keyword at all gets the fallback answer. */
  lemma NoKeywordFallback(input: string, ev: Option<Evaluation>)
    requires forall w :: w in Keywords ==> !Contains(ToLower(input), w)
    ensures TopicOf(ToLower(input)) == Unrecognised
    ensures Reply(input, ev) == FallbackOpening + ("\"" + input + "\"") + FallbackClosing
  {
    var lower := ToLower(input);
    forall w | w in CostWords ensures !Contains(lower, w) {
      assert w in Keywords;
    }
    forall w | w in TimelineWords ensures !Contains(lower, w) {
      assert w in Keywords;
    }
    forall w | w in MethodologyWords ensures !Contains(lower, w) {
      assert w in Keywords;
    }
    forall w | w in RecommendationWords ensures !Contains(lower, w) {
      assert w in Keywords;
    }
  }

  lemma FallbackQuotesQuestion(input: string, ev: Option<Evaluation>)
    requires TopicOf(ToLower(input)) == Unrecognised
    ensures Contains(Reply(input, ev), "\"" + input + "\"")
  {
    ContainsMiddle(FallbackOpening, "\"" + input + "\"", FallbackClosing);
  }

  /** Keyword matching ignores case: asking in capitals gets the same answer as asking in
      lower case, except that the fallback repeats the question as it was typed. */
  lemma ReplyIgnoresCase(input: string, ev: Option<Evaluation>)
    requires TopicOf(ToLower(input)) != Unrecognised
    ensures Reply(ToLower(input), ev) == Reply(input, ev)
  {
    ToLowerIdempotent(input);
  }

  // ---------------------------------------------------------------------------------
  // The conversation

  /** The messages shown in the chat: all but the system ones, in order. */
  function Visible(msgs: seq<Message>): (r: seq<Message>)
    ensures forall i :: 0 <= i < |r| ==> r[i].role != System
  {
    if |msgs| == 0 then []
    else
      var init := Visible(msgs[..|msgs| - 1]);
      assert msgs == msgs[..|msgs| - 1] + [msgs[|msgs| - 1]];
      if msgs[|msgs| - 1].role == System then init else init + [msgs[|msgs| - 1]]
  }

  lemma {:induction false} VisibleAppend(a: seq<Message>, b: seq<Message>)
    ensures Visible(a + b) == Visible(a) + Visible(b)
    decreases |b|
  {
    if |b| == 0 {
      assert a + b == a;
    } else {
      var n := |b| - 1;
      assert (a + b)[..|a + b| - 1] == a + b[..n];
      VisibleAppend(a, b[..n]);
    }
  }

  /** Only the opening message of a conversation may be a system message. */
  predicate OnlyOpeningSystem(msgs: seq<Message>)
  {
    forall i :: 0 < i < |msgs| ==> msgs[i].role != System
  }

  /** In such a conversation the filter hides exactly the opening system prompt, if any,
      and shows every other message in order. */
  lemma {:induction false} VisibleDropsOnlyPrompt(msgs: seq<Message>)
    requires OnlyOpeningSystem(msgs)
    ensures Visible(msgs) == if |msgs| > 0 && msgs[0].role == System then msgs[1..] else msgs
  {
    if |msgs| > 1 {
      var n := |msgs| - 1;
      var init := msgs[..n];
      assert OnlyOpeningSystem(init);
      VisibleDropsOnlyPrompt(init);
      assert msgs[n].role != System;
      if msgs[0].role == System {
        assert init[1..] + [msgs[n]] == msgs[1..];
      } else {
        assert init + [msgs[n]] == msgs;
      }
    } else if |msgs| == 1 {
      assert msgs[..0] == [];
    }
  }

  /** The system prompt never shows: a fresh chat displays the greeting alone. */
  lemma SeedShowsGreeting()
    ensures Visible(Seed) == [Message(Assistant, Greeting)]
  {
    var seed := Seed;
    assert seed[..|seed| - 1] == [seed[0]];
    assert [seed[0]][..0] == [];
    assert Visible([seed[0]]) == [];
  }

  class ChatSession {
    var messages: seq<Message>
    var input: string
    var isLoading: bool
    var evaluation: Option<Evaluation>
    /** The fixed texts the evaluation is generated with. */
    const script: Script

    /** Only the opening message of a conversation may be a system message. */
    predicate Valid()
      reads this
    {
      OnlyOpeningSystem(messages)
    }

    /** The messages the chat panel renders: all of them but the opening system prompt. */
    function Shown(): (r: seq<Message>)
      reads this
      requires Valid()
      ensures r == if |messages| > 0 && messages[0].role == System then messages[1..] else messages
    {
      VisibleDropsOnlyPrompt(messages);
      Visible(messages)
    }

    constructor()
      ensures Valid()
      ensures messages == [] && input == "" && !isLoading && evaluation == None
      ensures script == MockScript
    {
      script := MockScript;
      messages := [];
      input := "";
      isLoading := false;
      evaluation := None;
    }

    /** The effect that runs when the chat is open: an empty conversation is seeded and
        the evaluation generated; a conversation under way is left alone. */
    method Open(fd: FormData)
      requires Valid()
      modifies this`messages, this`evaluation, this`isLoading
      ensures Valid()
      ensures old(messages) == [] ==>
        messages == Seed && evaluation == Some(GenerateEvaluation(fd, script)) && !isLoading
      ensures old(messages) != [] ==>
        messages == old(messages) && evaluation == old(evaluation) && isLoading == old(isLoading)
    {
      if messages == [] {
        messages := Seed;
        isLoading := true;
        evaluation := Some(GenerateEvaluation(fd, script));
        isLoading := false;
      }
    }

    /** Typing in the text area. */
    method SetInput(text: string)
      modifies this`input
      ensures input == text
    {
      input := text;
    }

    /** `handleSendMessage`: a question that trims to nothing is ignored; otherwise the
        question as typed and its answer are appended and the text area is cleared. */
    method SendMessage()
      requires Valid()
      modifies this`messages, this`input, this`isLoading
      ensures Valid()
      ensures Trim(old(input)) == "" ==>
        messages == old(messages) && input == old(input) && isLoading == old(isLoading)
      ensures Trim(old(input)) != "" ==>
        messages == old(messages) + [Message(User, old(input)), Message(Assistant, Reply(old(input), evaluation))] &&
        input == "" && !isLoading
    {
      if Trim(input) == "" {
        return;
      }
      var question := input;
      messages := messages + [Message(User, question)];
      input := "";
      isLoading := true;
      messages := messages + [Message(Assistant, Reply(question, evaluation))];
      isLoading := false;
    }
  }

  /** A question and its answer both show in the chat, after what was shown before. */
  lemma TurnShows(before: seq<Message>, question: string, answer: string)
    ensures Visible(before + [Message(User, question), Message(Assistant, answer)])
         == Visible(before) + [Message(User, question), Message(Assistant, answer)]
  {
    var turn := [Message(User, question), Message(Assistant, answer)];
    VisibleAppend(before, turn);
    assert turn[..|turn| - 1] == [turn[0]];
    assert [turn[0]][..0] == [];
    assert Visible([turn[0]]) == [turn[0]];
  }

  // ---------------------------------------------------------------------------------
  // The downloadable report

  function ItemText(item: CostItem): string
  {
    "- " + item.category + ": " + item.amount + "\n  " + item.description
  }

  function ItemTexts(items: seq<CostItem>): seq<string>
  {
    seq(|items|, i requires 0 <= i < |items| => ItemText(items[i]))
  }

  function RecommendationTexts(recs: seq<string>): seq<string>
  {
    seq(|recs|, i requires 0 <= i < |recs| => "- " + recs[i])
  }

  const ReportHeading := "\n# AI Implementation Evaluation\n\n## Executive Summary\n"
  const MethodologyHeading := "\n\n## Implementation Methodology\n"
  const TimelineHeading := "\n\n## Timeline\n"
  const CostsHeading := "\n\n## Project Costs\n"
  const BreakdownHeading := "\n\n### Cost Breakdown\n"
  const RecommendationsHeading := "\n\n## Key Recommendations\n"
  const ReportEnd := "\n    "

  /** The pieces of the Markdown report of an evaluation, one after another. */
  function ReportParts(e: Evaluation): seq<string>
  {
    [ ReportHeading, e.summary,
      MethodologyHeading, e.methodology,
      TimelineHeading, e.timeline,
      CostsHeading, "Total: " + e.costs.total,
      BreakdownHeading, Join(ItemTexts(e.costs.breakdown), "\n\n"),
      RecommendationsHeading, Join(RecommendationTexts(e.recommendations), "\n"),
      ReportEnd ]
  }

  function ReportText(e: Evaluation): string
  {
    Join(ReportParts(e), "")
  }

  /** `downloadEvaluation`: nothing to download before an evaluation exists. */
  function DownloadEvaluation(ev: Option<Evaluation>): (r: Option<string>)
    ensures r.None? <==> ev.None?
    ensures r.Some? ==> r.value == ReportText(ev.value)
  {
    match ev
    case None => None
    case Some(e) => Some(ReportText(e))
  }

  /** The report carries every part of the evaluation: summary, methodology, timeline, the
      total, and every cost item and recommendation as a list entry. */
  lemma ReportListsEverything(e: Evaluation)
    ensures Contains(ReportText(e), e.summary) && Contains(ReportText(e), e.methodology)
    ensures Contains(ReportText(e), e.timeline) && Contains(ReportText(e), "Total: " + e.costs.total)
    ensures forall k :: 0 <= k < |e.costs.breakdown| ==> Contains(ReportText(e), ItemText(e.costs.breakdown[k]))
    ensures forall k :: 0 <= k < |e.recommendations| ==> Contains(ReportText(e), "- " + e.recommendations[k])
  {
    var parts := ReportParts(e);
    ContainsJoined(parts, "", 1);
    ContainsJoined(parts, "", 3);
    ContainsJoined(parts, "", 5);
    ContainsJoined(parts, "", 7);
    ContainsJoined(parts, "", 9);
    ContainsJoined(parts, "", 11);
    forall k | 0 <= k < |e.costs.breakdown|
      ensures Contains(ReportText(e), ItemText(e.costs.breakdown[k]))
    {
      ContainsJoined(ItemTexts(e.costs.breakdown), "\n\n", k);
      ContainsTrans(ReportText(e), parts[9], ItemText(e.costs.breakdown[k]));
    }
    forall k | 0 <= k < |e.recommendations|
      ensures Contains(ReportText(e), "- " + e.recommendations[k])
    {
      ContainsJoined(RecommendationTexts(e.recommendations), "\n", k);
      ContainsTrans(ReportText(e), parts[11], "- " + e.recommendations[k]);
    }
  }
}
