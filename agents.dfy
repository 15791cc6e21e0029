/**
 * The step handlers of the logo-design workflow. Each handler is a function from the state record
 * to the state record it returns; what the language model replies, what the JSON parser makes of
 * it and what the image service returns are parameters.
 */
module Agents {
  import opened Wrappers
  import opened Text
  import opened LogoState

  // ---------------------------------------------------------------------------------------------
  // Chat: the consultation turn and its two-sided completion gate
  // ---------------------------------------------------------------------------------------------

  /** The user's side of the gate: one of these must occur in the user's message. */
  const AffirmativeTokens: seq<string> := ["yes", "go ahead", "correct", "that's right", "sounds good"]

  /** The assistant's side of the gate; the third phrase is written with a curly apostrophe. */
  const SummaryPhrases: seq<string> :=
    ["to summarize", "summary", "here\U{2019}s what i understood", "let me recap", "does this accurately capture"]

  predicate UserSaidYes(userInput: string) {
    ContainsAny(Strip(Lower(userInput)), AffirmativeTokens)
  }

  predicate AssistantProvidedSummary(reply: string) {
    ContainsAny(Lower(reply), SummaryPhrases)
  }

  predicate ConsultationComplete(userInput: string, reply: string) {
    UserSaidYes(userInput) && AssistantProvidedSummary(reply)
  }

  /** The chat handler: records the turn, decides whether the consultation is over, clears the input. */
  function ChatAgent(s: LogoDesignState, reply: string): LogoDesignState {
    var history := s.conversationHistory + [Message(User, s.userInput), Message(Assistant, reply)];
    s.(conversationHistory := history,
       currentStep := if ConsultationComplete(s.userInput, reply) then Summary else Chat,
       userInput := "")
  }

  /** The gate is the conjunction of an affirmative token in the user's message and a summary phrase in the reply. */
  lemma ChatGate(s: LogoDesignState, reply: string)
    ensures ChatAgent(s, reply).currentStep in {Summary, Chat}
    ensures ChatAgent(s, reply).currentStep == Summary <==>
      && (exists k :: 0 <= k < |AffirmativeTokens| && HasOccurrence(Strip(Lower(s.userInput)), AffirmativeTokens[k]))
      && (exists k :: 0 <= k < |SummaryPhrases| && HasOccurrence(Lower(reply), SummaryPhrases[k]))
  {
    ContainsAnyIff(Strip(Lower(s.userInput)), AffirmativeTokens);
    ContainsAnyIff(Lower(reply), SummaryPhrases);
  }

  lemma {:induction false} ContainsAnyIgnoresStrip(s: string, phrases: seq<string>)
    requires forall k :: 0 <= k < |phrases| ==> TrimmedPhrase(phrases[k])
    ensures ContainsAny(Strip(s), phrases) == ContainsAny(s, phrases)
    decreases |phrases|
  {
    if |phrases| > 0 {
      StripKeepsPhrase(s, phrases[0]);
      ContainsAnyIgnoresStrip(s, phrases[1..]);
    }
  }

  /** Stripping the user's message never changes the user's side of the gate: no token starts or ends blank. */
  lemma UserGateIgnoresStrip(userInput: string)
    ensures UserSaidYes(userInput) == ContainsAny(Lower(userInput), AffirmativeTokens)
  {
    ContainsAnyIgnoresStrip(Lower(userInput), AffirmativeTokens);
  }

  /** The gate is a substring test: a user who answers "that's incorrect" passes the user's side. */
  lemma NegatedAnswerPassesGate()
    ensures UserSaidYes("No, that's incorrect")
  {
    var s := Strip(Lower("No, that's incorrect"));
    assert Lower("No, that's incorrect") == "no, that's incorrect";
    assert s == "no, that's incorrect";
    assert OccursAt(s, "correct", 13);
    ContainsAnyIff(s, AffirmativeTokens);
    assert AffirmativeTokens[2] == "correct";
  }

  /** The handler appends the user's input then the reply, clears the input and touches nothing else but the step. */
  lemma ChatAgentUpdate(s: LogoDesignState, reply: string)
    ensures var r := ChatAgent(s, reply);
      && |r.conversationHistory| == |s.conversationHistory| + 2
      && r.conversationHistory[..|s.conversationHistory|] == s.conversationHistory
      && r.conversationHistory[|s.conversationHistory|] == Message(User, s.userInput)
      && r.conversationHistory[|s.conversationHistory| + 1] == Message(Assistant, reply)
      && r.userInput == ""
      && ChangesOnly(s, r, {ConversationHistory, CurrentStep, UserInput})
  {
  }

  // ---------------------------------------------------------------------------------------------
  // The message list sent to the model by the chat handler
  // ---------------------------------------------------------------------------------------------

  datatype PromptMessage = SystemMessage(content: string) | HumanMessage(content: string)

  /** The user entries of a history, in order, as human messages; assistant entries are dropped. */
  function UserTurns(history: seq<Message>): seq<PromptMessage>
    decreases |history|
  {
    if |history| == 0 then []
    else
      var last := history[|history| - 1];
      UserTurns(history[..|history| - 1]) + (if last.role == User then [HumanMessage(last.content)] else [])
  }

  /** Filtering distributes over concatenation, so the human messages keep the order of the history. */
  lemma {:induction false} UserTurnsAppend(a: seq<Message>, b: seq<Message>)
    ensures UserTurns(a + b) == UserTurns(a) + UserTurns(b)
    decreases |b|
  {
    if |b| == 0 {
      assert a + b == a;
    } else {
      assert (a + b)[..|a + b| - 1] == a + b[..|b| - 1];
      UserTurnsAppend(a, b[..|b| - 1]);
    }
  }

  /** Builds the chat prompt: the system prompt, the user turns of the history, then the pending input if any. */
  method BuildChatMessages(systemPrompt: string, s: LogoDesignState) returns (messages: seq<PromptMessage>)
    ensures messages == [SystemMessage(systemPrompt)] + UserTurns(s.conversationHistory)
                        + (if s.userInput != "" then [HumanMessage(s.userInput)] else [])
  {
    var history := s.conversationHistory;
    messages := [SystemMessage(systemPrompt)];
    for i := 0 to |history|
      invariant messages == [SystemMessage(systemPrompt)] + UserTurns(history[..i])
    {
      assert history[..i + 1][..i] == history[..i];
      if history[i].role == User {
        messages := messages + [HumanMessage(history[i].content)];
      }
    }
    assert history[..|history|] == history;
    if s.userInput != "" {
      messages := messages + [HumanMessage(s.userInput)];
    }
  }

  // ---------------------------------------------------------------------------------------------
  // Summary and design: parse-ok / parse-fail branching
  // ---------------------------------------------------------------------------------------------

  const SummaryParseError: string := "Failed to parse client requirements"

  /** `parsed` is what the JSON parser made of `reply`; `None` is a decode error. */
  function SummaryAgent(s: LogoDesignState, reply: string, parsed: Option<Requirements>): LogoDesignState {
    match parsed
    case Some(requirements) =>
      s.(clientRequirements := Some(requirements), chatSummary := Some(reply), currentStep := Design)
    case None =>
      s.(errorMessage := Some(SummaryParseError), currentStep := Error)
  }

  lemma SummaryOutcome(s: LogoDesignState, reply: string, parsed: Option<Requirements>)
    ensures var r := SummaryAgent(s, reply, parsed);
      && (r.currentStep == Design <==> parsed.Some?)
      && (parsed.Some? ==>
            && r.clientRequirements == parsed && r.chatSummary == Some(reply)
            && ChangesOnly(s, r, {ClientRequirements, ChatSummary, CurrentStep}))
      && (parsed.None? ==>
            && r.currentStep == Error && r.errorMessage == Some("Failed to parse client requirements")
            && ChangesOnly(s, r, {ErrorMessage, CurrentStep}))
  {
  }

  /** What the designer's model call comes to: the parsed concepts, a decode error, or another exception. */
  datatype DesignerReply = Designed(concepts: seq<Concept>) | Unparsable | Failed(reason: string)

  const DesignParseError: string := "Failed to parse design concepts"
  const DesignErrorPrefix: string := "Designer agent error: "

  function DesignerAgent(s: LogoDesignState, reply: DesignerReply): LogoDesignState {
    match reply
    case Designed(concepts) => s.(designConcepts := Some(concepts), currentStep := Generate)
    case Unparsable => s.(errorMessage := Some(DesignParseError), currentStep := Error)
    case Failed(reason) => s.(errorMessage := Some(DesignErrorPrefix + reason), currentStep := Error)
  }

  lemma DesignerOutcome(s: LogoDesignState, reply: DesignerReply)
    ensures var r := DesignerAgent(s, reply);
      && (r.currentStep == Generate <==> reply.Designed?)
      && (reply.Designed? ==>
            r.designConcepts == Some(reply.concepts) && ChangesOnly(s, r, {DesignConcepts, CurrentStep}))
      && (reply.Unparsable? ==>
            r.currentStep == Error && r.errorMessage == Some("Failed to parse design concepts"))
      && (reply.Failed? ==>
            && r.currentStep == Error
            && r.errorMessage == Some("Designer agent error: " + reply.reason))
      && (!reply.Designed? ==> ChangesOnly(s, r, {ErrorMessage, CurrentStep}))
  {
  }

  // ---------------------------------------------------------------------------------------------
  // Generation: one logo record per concept, one assistant message, one more attempt
  // ---------------------------------------------------------------------------------------------

  /** What the image service returns for one concept. */
  datatype ImageResult = ImageResult(imageUrl: string, generationTime: Option<string>, model: Option<string>)

  function LogoRecord(c: Concept, image: ImageResult): Logo {
    Logo(c.conceptId, c.name, image.imageUrl,
         Variations(image.imageUrl, image.imageUrl, image.imageUrl),
         GenerationMetadata(c.generationPrompt, image.generationTime.GetOr("unknown"),
                            image.model.GetOr("replicate/unknown")))
  }

  /**
   * Generates one image per concept and gathers the records in concept order; `render` gives the
   * service's answer for a concept, `None` when the call raises, which fails the whole batch.
   */
  function GenerateAll(concepts: seq<Concept>, render: Concept -> Option<ImageResult>): (r: Option<seq<Logo>>)
    ensures r.Some? <==> forall i :: 0 <= i < |concepts| ==> render(concepts[i]).Some?
    ensures r.Some? ==>
      && |r.value| == |concepts|
      && forall i :: 0 <= i < |concepts| ==> r.value[i] == LogoRecord(concepts[i], render(concepts[i]).value)
    decreases |concepts|
  {
    if |concepts| == 0 then Some([])
    else
      match render(concepts[0])
      case None => None
      case Some(image) =>
        match GenerateAll(concepts[1..], render)
        case None => None
        case Some(rest) => Some([LogoRecord(concepts[0], image)] + rest)
  }

  const ImageHeaderLine: string := "\U{1F5BC}\U{FE0F} Here are your logo concepts:"

  function ImageUrls(logos: seq<Logo>): seq<string> {
    seq(|logos|, i requires 0 <= i < |logos| => logos[i].imageUrl)
  }

  /** The assistant message listing the generated images, one per line after the header. */
  function ImageMessage(logos: seq<Logo>): Message {
    Message(Assistant, ImageHeaderLine + "\n" + Join("\n", ImageUrls(logos)))
  }

  /** Reading the message back line by line gives the header and then exactly the N image URLs. */
  lemma ImageMessageLines(logos: seq<Logo>)
    requires forall i :: 0 <= i < |logos| ==> '\n' !in logos[i].imageUrl
    ensures Split(ImageMessage(logos).content, '\n') ==
            [ImageHeaderLine] + (if |logos| == 0 then [""] else ImageUrls(logos))
  {
    var urls := ImageUrls(logos);
    assert '\n' !in ImageHeaderLine;
    if |logos| == 0 {
      SplitAfterPlainPrefix(ImageHeaderLine, "", '\n');
      assert ImageMessage(logos).content == ImageHeaderLine + ['\n'] + "";
    } else {
      var lines := [ImageHeaderLine] + urls;
      assert lines[0] == ImageHeaderLine && lines[1..] == urls;
      assert Join("\n", lines) == ImageMessage(logos).content;
      SplitJoin(lines, '\n');
    }
  }

  /** The generator handler; `None` when it raises (no concepts to iterate, or an image call failed). */
  function GeneratorAgent(s: LogoDesignState, render: Concept -> Option<ImageResult>): Option<LogoDesignState> {
    match s.designConcepts
    case None => None
    case Some(concepts) =>
      match GenerateAll(concepts, render)
      case None => None
      case Some(logos) =>
        Some(s.(conversationHistory := s.conversationHistory + [ImageMessage(logos)],
                generatedLogos := Some(logos),
                generationAttempts := Some(s.generationAttempts.GetOr(0) + 1),
                currentStep := Ranking))
  }

  lemma GeneratorOutcome(s: LogoDesignState, render: Concept -> Option<ImageResult>)
    ensures GeneratorAgent(s, render).Some? <==>
      s.designConcepts.Some? && forall c :: c in s.designConcepts.value ==> render(c).Some?
    ensures GeneratorAgent(s, render).Some? ==>
      var r := GeneratorAgent(s, render).value;
      var concepts := s.designConcepts.value;
      && r.generatedLogos.Some?
      && var logos := r.generatedLogos.value;
      && |logos| == |concepts|
      && (forall i :: 0 <= i < |concepts| ==>
            && logos[i] == LogoRecord(concepts[i], render(concepts[i]).value)
            && logos[i].imageUrl == render(concepts[i]).value.imageUrl
            && logos[i].conceptId == concepts[i].conceptId
            && logos[i].conceptName == concepts[i].name
            && logos[i].variations == Variations(logos[i].imageUrl, logos[i].imageUrl, logos[i].imageUrl))
      && r.conversationHistory == s.conversationHistory + [ImageMessage(logos)]
      && r.generationAttempts == Some(s.generationAttempts.GetOr(0) + 1)
      && r.currentStep == Ranking
      && ChangesOnly(s, r, {ConversationHistory, GeneratedLogos, GenerationAttempts, CurrentStep})
  {
    if s.designConcepts.Some? {
      var concepts := s.designConcepts.value;
      if forall c :: c in concepts ==> render(c).Some? {
        assert forall i :: 0 <= i < |concepts| ==> render(concepts[i]).Some?;
      } else {
        var c :| c in concepts && render(c).None?;
        var i :| 0 <= i < |concepts| && concepts[i] == c;
        assert GenerateAll(concepts, render).None?;
      }
    }
  }

  // ---------------------------------------------------------------------------------------------
  // Ranking: regeneration only while attempts remain
  // ---------------------------------------------------------------------------------------------

  /** The regeneration rule, with the handler's defaults of 0 attempts made and 3 allowed. */
  predicate RegenerationNeeded(overallQuality: string, attempts: Option<int>, maxAttempts: Option<int>) {
    overallQuality == "fail" && attempts.GetOr(0) < maxAttempts.GetOr(3)
  }

  /** The verdict the handler currently hard-codes instead of assessing the images. */
  const SimulatedRanking: RankingReport := RankingReport("pass", 1)

  function RankingAgent(s: LogoDesignState, ranking: RankingReport): LogoDesignState {
    var needs := RegenerationNeeded(ranking.overallQuality, s.generationAttempts, s.maxAttempts);
    s.(rankingResults := Some(ranking),
       needsRegeneration := needs,
       currentStep := if needs then Regenerate else UserReview)
  }

  lemma RankingOutcome(s: LogoDesignState, ranking: RankingReport)
    ensures var r := RankingAgent(s, ranking);
      && r.currentStep in {Regenerate, UserReview}
      && (r.currentStep == Regenerate <==> r.needsRegeneration)
      && (r.needsRegeneration <==>
            ranking.overallQuality == "fail" && s.generationAttempts.GetOr(0) < s.maxAttempts.GetOr(3))
      && r.rankingResults == Some(ranking)
      && ChangesOnly(s, r, {RankingResults, NeedsRegeneration, CurrentStep})
  {
  }

  /** Once the attempts are used up, no verdict sends the workflow back to generation. */
  lemma RankingExhausted(s: LogoDesignState, ranking: RankingReport)
    requires s.generationAttempts.GetOr(0) >= s.maxAttempts.GetOr(3)
    ensures RankingAgent(s, ranking).currentStep == UserReview
    ensures !RankingAgent(s, ranking).needsRegeneration
  {
  }

  /** With the hard-coded "pass" verdict the outcome is always user review, whatever the counters. */
  lemma SimulatedRankingNeverRegenerates(s: LogoDesignState)
    ensures RankingAgent(s, SimulatedRanking).currentStep == UserReview
    ensures !RankingAgent(s, SimulatedRanking).needsRegeneration
  {
  }

  // ---------------------------------------------------------------------------------------------
  // Feedback: action lookup with a default label
  // ---------------------------------------------------------------------------------------------

  datatype FeedbackAnalysis = FeedbackAnalysis(action: string)

  const ActionMap: map<string, Step> :=
    map["redesign" := Design, "regenerate" := Generate, "approve" := Package, "package" := Package]

  /** `action_map.get(action, "user_review")`. */
  function ActionStep(action: string): Step {
    if action in ActionMap then ActionMap[action] else UserReview
  }

  const FeedbackParseError: string := "Failed to parse feedback analysis"

  function FeedbackAgent(s: LogoDesignState, parsed: Option<FeedbackAnalysis>): LogoDesignState {
    match parsed
    case Some(analysis) =>
      s.(currentStep := ActionStep(analysis.action),
         iterationCount := s.iterationCount + 1,
         userFeedback := Some(""))
    case None =>
      s.(errorMessage := Some(FeedbackParseError), currentStep := Error)
  }

  lemma FeedbackOutcome(s: LogoDesignState, parsed: Option<FeedbackAnalysis>)
    ensures var r := FeedbackAgent(s, parsed);
      && (parsed.Some? ==>
            var action := parsed.value.action;
            && r.currentStep == (if action == "redesign" then Design
                                 else if action == "regenerate" then Generate
                                 else if action == "approve" || action == "package" then Package
                                 else UserReview)
            && r.iterationCount == s.iterationCount + 1
            && r.userFeedback == Some("")
            && ChangesOnly(s, r, {CurrentStep, IterationCount, UserFeedback}))
      && (parsed.None? ==>
            && r.currentStep == Error && r.errorMessage == Some("Failed to parse feedback analysis")
            && ChangesOnly(s, r, {ErrorMessage, CurrentStep}))
  {
  }

  // ---------------------------------------------------------------------------------------------
  // Package: keep the best concept, record the package path
  // ---------------------------------------------------------------------------------------------

  /** The logos whose concept is the ranking's best one, in their original order. */
  function BestConcepts(logos: seq<Logo>, bestId: int): (best: seq<Logo>)
    ensures |best| <= |logos|
    ensures forall x :: x in best <==> x in logos && x.conceptId == bestId
    decreases |logos|
  {
    if |logos| == 0 then []
    else (if logos[0].conceptId == bestId then [logos[0]] else []) + BestConcepts(logos[1..], bestId)
  }

  /** The filter distributes over concatenation: it keeps the relative order of the logos it keeps. */
  lemma {:induction false} BestConceptsAppend(a: seq<Logo>, b: seq<Logo>, bestId: int)
    ensures BestConcepts(a + b, bestId) == BestConcepts(a, bestId) + BestConcepts(b, bestId)
    decreases |a|
  {
    if |a| > 0 {
      assert (a + b)[1..] == a[1..] + b;
      BestConceptsAppend(a[1..], b, bestId);
    } else {
      assert a + b == b;
    }
  }

  /** The `best_concepts` list; `None` when the handler raises (a ranking but no generated logos). */
  function SelectBest(s: LogoDesignState): Option<seq<Logo>> {
    match s.rankingResults
    case None => Some([])
    case Some(ranking) =>
      match s.generatedLogos
      case None => None
      case Some(logos) => Some(BestConcepts(logos, ranking.bestConceptId))
  }

  lemma SelectBestOutcome(s: LogoDesignState)
    ensures s.rankingResults.None? ==> SelectBest(s) == Some([])
    ensures SelectBest(s).None? <==> s.rankingResults.Some? && s.generatedLogos.None?
    ensures SelectBest(s).Some? && s.rankingResults.Some? ==>
      forall x :: x in SelectBest(s).value <==>
        x in s.generatedLogos.value && x.conceptId == s.rankingResults.value.bestConceptId
  {
  }

  /** The colour palette of the package: the first concept's, or empty. */
  function ExtractColorPalette(concepts: Option<seq<Concept>>): map<string, string> {
    if concepts.None? || concepts.value == [] then map[] else concepts.value[0].colorPalette.GetOr(map[])
  }

  /** `packages/<package_id>.pdf`, the package id being `logo_package_` and a timestamp. */
  function PackagePath(stamp: string): string {
    "packages/" + "logo_package_" + stamp + ".pdf"
  }

  /**
   * The package handler. The best-concept list and the palette only go into a manifest that is
   * discarded, so the state changes in the path and the step alone; `None` when the filter raises.
   */
  function PackageAgent(s: LogoDesignState, stamp: string): Option<LogoDesignState> {
    if SelectBest(s).None? then None
    else Some(s.(finalPackage := Some(PackagePath(stamp)), currentStep := Complete))
  }

  lemma PackageOutcome(s: LogoDesignState, stamp: string)
    ensures PackageAgent(s, stamp).None? <==> s.rankingResults.Some? && s.generatedLogos.None?
    ensures PackageAgent(s, stamp).Some? ==>
      var r := PackageAgent(s, stamp).value;
      && r.finalPackage == Some("packages/logo_package_" + stamp + ".pdf")
      && r.currentStep == Complete
      && ChangesOnly(s, r, {FinalPackage, CurrentStep})
  {
    assert "packages/" + "logo_package_" + stamp + ".pdf" == "packages/logo_package_" + stamp + ".pdf";
  }

  /**
   * After a design pass, generation and ranking, the palette the package handler extracts is the
   * first designed concept's, whatever concept the ranking chose as best.
   */
  lemma PackagePaletteIsFirstDesigned(s: LogoDesignState, concepts: seq<Concept>,
                                      render: Concept -> Option<ImageResult>, ranking: RankingReport)
    requires concepts != []
    requires GeneratorAgent(DesignerAgent(s, Designed(concepts)), render).Some?
    ensures var ranked := RankingAgent(GeneratorAgent(DesignerAgent(s, Designed(concepts)), render).value, ranking);
      ExtractColorPalette(ranked.designConcepts) == concepts[0].colorPalette.GetOr(map[])
  {
    var designed := DesignerAgent(s, Designed(concepts));
    GeneratorOutcome(designed, render);
    var generated := GeneratorAgent(designed, render).value;
    assert SameAt(designed, generated, DesignConcepts);
  }
}
