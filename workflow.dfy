/**
 * The workflow around the handlers: the graph's edge table, and the orchestrator that keeps one
 * state per session and drives the handlers when a user message arrives.
 */
module Workflow {
  import opened Wrappers
  import opened Text
  import opened LogoState
  import opened Agents

  // ---------------------------------------------------------------------------------------------
  // The graph's edge table
  // ---------------------------------------------------------------------------------------------

  datatype Node = ChatNode | SummaryNode | DesignNode | GenerateNode | RankingNode | FeedbackNode | PackageNode

  datatype Target = GoTo(node: Node) | End

  /**
   * Where the graph goes from `from` when the state's step label is `step`; `None` when the
   * conditional edges of `from` have no entry for that label.
   */
  function Edge(from: Node, step: Step): Option<Target> {
    match from
    case ChatNode =>
      if step == Chat then Some(GoTo(ChatNode))
      else if step == Summary then Some(GoTo(SummaryNode))
      else None
    case SummaryNode => Some(GoTo(DesignNode))
    case DesignNode => Some(GoTo(GenerateNode))
    case GenerateNode => Some(GoTo(RankingNode))
    case RankingNode =>
      if step == Regenerate then Some(GoTo(GenerateNode))
      else if step == UserReview then Some(GoTo(FeedbackNode))
      else None
    case FeedbackNode =>
      if step == Design then Some(GoTo(DesignNode))
      else if step == Generate then Some(GoTo(GenerateNode))
      else if step == Package then Some(GoTo(PackageNode))
      else None
    case PackageNode => Some(End)
  }

  /** The chat handler's step always has an edge: back to chat, or on to the summary. */
  lemma ChatRouted(s: LogoDesignState, reply: string)
    ensures Edge(ChatNode, ChatAgent(s, reply).currentStep) ==
            Some(GoTo(if ConsultationComplete(s.userInput, reply) then SummaryNode else ChatNode))
  {
  }

  /** From ranking the graph goes back to generation exactly when regeneration is needed, else to feedback. */
  lemma RankingRouted(s: LogoDesignState, ranking: RankingReport)
    ensures Edge(RankingNode, RankingAgent(s, ranking).currentStep) ==
            Some(GoTo(if RankingAgent(s, ranking).needsRegeneration then GenerateNode else FeedbackNode))
  {
  }

  /**
   * The feedback handler's step has an edge exactly when the reply parsed and named one of the four
   * known actions; the default "user_review" and "error" lead nowhere.
   */
  lemma FeedbackRouted(s: LogoDesignState, parsed: Option<FeedbackAnalysis>)
    ensures Edge(FeedbackNode, FeedbackAgent(s, parsed).currentStep).Some? <==>
            parsed.Some? && parsed.value.action in {"redesign", "regenerate", "approve", "package"}
  {
  }

  /** No conditional edge is labelled "error" or leaves a node on an unexpected label. */
  lemma ErrorIsDeadEnd()
    ensures forall n :: n in {ChatNode, RankingNode, FeedbackNode} ==> Edge(n, Error).None?
    ensures Edge(FeedbackNode, UserReview).None?
  {
  }

  /**
   * The ranking-generation loop never exceeds the attempt cap: a pass back through generation
   * starts below the cap, and the attempt it records brings the counter at most up to the cap.
   */
  lemma RegenerationStaysWithinCap(s: LogoDesignState, ranking: RankingReport, render: Concept -> Option<ImageResult>)
    requires Edge(RankingNode, RankingAgent(s, ranking).currentStep) == Some(GoTo(GenerateNode))
    requires GeneratorAgent(RankingAgent(s, ranking), render).Some?
    ensures var g := GeneratorAgent(RankingAgent(s, ranking), render).value;
      && g.generationAttempts == Some(s.generationAttempts.GetOr(0) + 1)
      && g.generationAttempts.value <= g.maxAttempts.GetOr(3)
  {
    RankingOutcome(s, ranking);
    GeneratorOutcome(RankingAgent(s, ranking), render);
  }

  /**
   * The cap is not kept along the feedback edge: feedback asking to regenerate leads to generation,
   * which records one more attempt without looking at the cap, so it can go past it.
   */
  lemma FeedbackRegenerateExceedsCap(s: LogoDesignState, render: Concept -> Option<ImageResult>)
    requires s.generationAttempts == Some(3) && s.maxAttempts == Some(3)
    requires GeneratorAgent(FeedbackAgent(s, Some(FeedbackAnalysis("regenerate"))), render).Some?
    ensures Edge(FeedbackNode, FeedbackAgent(s, Some(FeedbackAnalysis("regenerate"))).currentStep) == Some(GoTo(GenerateNode))
    ensures var g := GeneratorAgent(FeedbackAgent(s, Some(FeedbackAnalysis("regenerate"))), render).value;
      g.generationAttempts == Some(4) && g.maxAttempts == Some(3)
  {
    GeneratorOutcome(FeedbackAgent(s, Some(FeedbackAnalysis("regenerate"))), render);
  }

  // ---------------------------------------------------------------------------------------------
  // Sessions
  // ---------------------------------------------------------------------------------------------

  const Greeting: string :=
    "\U{1F44B} Hello! I\U{2019}m Alex, your logo design assistant. Let's begin by understanding your brand. "
    + "Can you tell me about your company, its industry, and your target audience?"

  /** The state a new session starts from: every optional field empty, one greeting in the history. */
  function InitialState(): LogoDesignState {
    var empty := LogoDesignState(
      userInput := "", conversationHistory := [], userFeedback := None, iterationCount := 0,
      chatSummary := None, designConcepts := None, generatedLogos := None, rankingResults := None,
      finalPackage := None, currentStep := Chat, needsRegeneration := false, userApproved := false,
      errorMessage := None, clientRequirements := None, generationAttempts := Some(0), maxAttempts := Some(3));
    empty.(conversationHistory := empty.conversationHistory + [Message(Assistant, Greeting)])
  }

  lemma InitialStateShape()
    ensures var s := InitialState();
      && s.currentStep == Chat && s.iterationCount == 0
      && s.generationAttempts == Some(0) && s.maxAttempts == Some(3)
      && s.conversationHistory == [Message(Assistant, Greeting)]
      && s.userInput == "" && s.errorMessage.None? && s.finalPackage.None?
      && s.designConcepts.None? && s.generatedLogos.None? && s.rankingResults.None?
      && s.userFeedback.None? && s.chatSummary.None? && s.clientRequirements.None?
      && !s.needsRegeneration && !s.userApproved
  {
  }

  /** Everything the outside world contributes to one message: model replies, parses, images, the clock. */
  datatype External = External(
    chatReply: string,
    summaryReply: string,
    summaryParsed: Option<Requirements>,
    designerReply: DesignerReply,
    render: Concept -> Option<ImageResult>,
    ranking: RankingReport,
    packageStamp: string)

  /** What the caller gets back; `Raised` is an exception that leaves the orchestrator. */
  datatype Response = SessionNotFound | Conversation(conversation: seq<Message>, currentStep: Step) | Raised

  /** The state stored for the session after a message, and the response. */
  datatype Turn = Turn(stored: LogoDesignState, response: Response)

  /** The user's message becomes the pending input and one more user entry of the history. */
  function ReceiveMessage(s: LogoDesignState, message: string): LogoDesignState {
    s.(userInput := message, conversationHistory := s.conversationHistory + [Message(User, message)])
  }

  /**
   * The fixed cascade run after the chat handler moves to "summary": summary, design, generate,
   * ranking and package, one after the other, whatever step each of them sets.
   */
  function Cascade(s: LogoDesignState, ext: External): (r: Option<LogoDesignState>)
    ensures r.None? <==>
      GeneratorAgent(DesignerAgent(SummaryAgent(s, ext.summaryReply, ext.summaryParsed), ext.designerReply), ext.render).None?
  {
    var designed := DesignerAgent(SummaryAgent(s, ext.summaryReply, ext.summaryParsed), ext.designerReply);
    match GeneratorAgent(designed, ext.render)
    case None => None
    case Some(generated) =>
      GeneratorOutcome(designed, ext.render);
      PackageAgent(RankingAgent(generated, ext.ranking), ext.packageStamp)
  }

  /**
   * One message for an existing session. The stored dictionary is updated in place before any
   * handler runs, and the chat handler extends the same history list, so when the cascade raises
   * the stored state is that dictionary: still at "chat", with the turn's entries in its history.
   */
  function HandleMessage(s: LogoDesignState, message: string, ext: External): Turn {
    var received := ReceiveMessage(s, message);
    if received.currentStep != Chat then
      Turn(received, Conversation(received.conversationHistory, received.currentStep))
    else
      var chatted := ChatAgent(received, ext.chatReply);
      if chatted.currentStep != Summary then
        Turn(chatted, Conversation(chatted.conversationHistory, chatted.currentStep))
      else
        match Cascade(chatted, ext)
        case Some(done) => Turn(done, Conversation(done.conversationHistory, done.currentStep))
        case None => Turn(received.(conversationHistory := chatted.conversationHistory), Raised)
  }

  /** Outside "chat" no handler runs: only the input and one user entry change. */
  lemma IdleTurn(s: LogoDesignState, message: string, ext: External)
    requires s.currentStep != Chat
    ensures var t := HandleMessage(s, message, ext);
      && t.stored.conversationHistory == s.conversationHistory + [Message(User, message)]
      && t.stored.userInput == message
      && ChangesOnly(s, t.stored, {UserInput, ConversationHistory})
      && t.response == Conversation(t.stored.conversationHistory, s.currentStep)
  {
  }

  /**
   * A chat turn that does not complete the consultation adds three entries: the user's message
   * here, then the same message and the reply from the chat handler.
   */
  lemma ChatTurn(s: LogoDesignState, message: string, ext: External)
    requires s.currentStep == Chat && !ConsultationComplete(message, ext.chatReply)
    ensures var t := HandleMessage(s, message, ext);
      && t.stored.conversationHistory == s.conversationHistory
           + [Message(User, message), Message(User, message), Message(Assistant, ext.chatReply)]
      && t.stored.currentStep == Chat
      && t.stored.userInput == ""
      && ChangesOnly(s, t.stored, {UserInput, ConversationHistory})
      && t.response == Conversation(t.stored.conversationHistory, Chat)
  {
  }

  /** The chat prompt of a turn ends with the user's message twice: once from the history, once as input. */
  lemma ChatPromptRepeatsMessage(s: LogoDesignState, message: string, systemPrompt: string)
    requires message != ""
    ensures var received := ReceiveMessage(s, message);
      [SystemMessage(systemPrompt)] + UserTurns(received.conversationHistory) + [HumanMessage(received.userInput)]
      == [SystemMessage(systemPrompt)] + UserTurns(s.conversationHistory) + [HumanMessage(message), HumanMessage(message)]
  {
    UserTurnsAppend(s.conversationHistory, [Message(User, message)]);
    assert UserTurns([Message(User, message)]) == [HumanMessage(message)] by {
      assert [Message(User, message)][..0] == [];
    }
  }

  /**
   * When the images come back, the cascade ends at "complete" with one more generation attempt, the
   * package path, the ranking it was given and one more assistant entry; feedback never runs.
   */
  lemma CascadeOutcome(c: LogoDesignState, ext: External)
    requires Cascade(c, ext).Some?
    ensures var d := Cascade(c, ext).value;
      && d.currentStep == Complete
      && d.generationAttempts == Some(c.generationAttempts.GetOr(0) + 1)
      && d.maxAttempts == c.maxAttempts
      && d.finalPackage == Some(PackagePath(ext.packageStamp))
      && d.rankingResults == Some(ext.ranking)
      && d.iterationCount == c.iterationCount
      && d.userFeedback == c.userFeedback
      && |d.conversationHistory| == |c.conversationHistory| + 1
      && d.conversationHistory[..|c.conversationHistory|] == c.conversationHistory
      && d.conversationHistory[|c.conversationHistory|].role == Assistant
  {
    var designed := DesignerAgent(SummaryAgent(c, ext.summaryReply, ext.summaryParsed), ext.designerReply);
    GeneratorOutcome(designed, ext.render);
    var generated := GeneratorAgent(designed, ext.render).value;
    var ranked := RankingAgent(generated, ext.ranking);
    PackageOutcome(ranked, ext.packageStamp);
    assert Cascade(c, ext) == PackageAgent(ranked, ext.packageStamp);
    assert generated.conversationHistory == c.conversationHistory + [ImageMessage(generated.generatedLogos.value)];
  }

  /**
   * A completed consultation runs the whole cascade in one call. When it raises, the stored session
   * stays at "chat" with the turn's three entries; otherwise it ends at "complete".
   */
  lemma CascadeTurn(s: LogoDesignState, message: string, ext: External)
    requires s.currentStep == Chat && ConsultationComplete(message, ext.chatReply)
    ensures var chatted := ChatAgent(ReceiveMessage(s, message), ext.chatReply);
      var t := HandleMessage(s, message, ext);
      && chatted.conversationHistory == s.conversationHistory
           + [Message(User, message), Message(User, message), Message(Assistant, ext.chatReply)]
      && (t.response == Raised <==> Cascade(chatted, ext).None?)
      && (t.response == Raised ==>
            && t.stored.currentStep == Chat && t.stored.userInput == message
            && t.stored.conversationHistory == chatted.conversationHistory
            && ChangesOnly(s, t.stored, {UserInput, ConversationHistory}))
      && (t.response != Raised ==>
            && t.stored == Cascade(chatted, ext).value
            && t.response == Conversation(t.stored.conversationHistory, Complete))
  {
    var received := ReceiveMessage(s, message);
    var chatted := ChatAgent(received, ext.chatReply);
    assert chatted.currentStep == Summary;
    if Cascade(chatted, ext).Some? {
      CascadeOutcome(chatted, ext);
    }
  }

  /** The cascade does not stop at "error": a summary that fails to parse still ends at "complete". */
  lemma CascadeOverwritesError(s: LogoDesignState, message: string, ext: External)
    requires s.currentStep == Chat && ConsultationComplete(message, ext.chatReply)
    requires ext.summaryParsed.None? && ext.designerReply.Designed?
    requires forall c :: c in ext.designerReply.concepts ==> ext.render(c).Some?
    ensures HandleMessage(s, message, ext).stored.currentStep == Complete
    ensures HandleMessage(s, message, ext).stored.errorMessage == Some(SummaryParseError)
  {
    var chatted := ChatAgent(ReceiveMessage(s, message), ext.chatReply);
    var designed := DesignerAgent(SummaryAgent(chatted, ext.summaryReply, ext.summaryParsed), ext.designerReply);
    GeneratorOutcome(designed, ext.render);
    CascadeTurn(s, message, ext);
    CascadeOutcome(chatted, ext);
  }

  /**
   * The cascade never takes the regenerate edge: even a failing verdict with attempts to spare,
   * for which the graph would go back to generation, ends the session at "complete".
   */
  lemma CascadeIgnoresRegenerate(s: LogoDesignState, message: string, ext: External)
    requires s.currentStep == Chat && ConsultationComplete(message, ext.chatReply)
    requires ext.designerReply.Designed?
    requires forall c :: c in ext.designerReply.concepts ==> ext.render(c).Some?
    requires ext.ranking.overallQuality == "fail" && s.generationAttempts.GetOr(0) + 1 < s.maxAttempts.GetOr(3)
    ensures var chatted := ChatAgent(ReceiveMessage(s, message), ext.chatReply);
      var designed := DesignerAgent(SummaryAgent(chatted, ext.summaryReply, ext.summaryParsed), ext.designerReply);
      var generated := GeneratorAgent(designed, ext.render).value;
      Edge(RankingNode, RankingAgent(generated, ext.ranking).currentStep) == Some(GoTo(GenerateNode))
    ensures HandleMessage(s, message, ext).stored.currentStep == Complete
  {
    var chatted := ChatAgent(ReceiveMessage(s, message), ext.chatReply);
    var designed := DesignerAgent(SummaryAgent(chatted, ext.summaryReply, ext.summaryParsed), ext.designerReply);
    GeneratorOutcome(designed, ext.render);
    CascadeTurn(s, message, ext);
    CascadeOutcome(chatted, ext);
  }

  /**
   * Where a stored session can rest: at "chat" before any generation, or at "complete" after exactly
   * one. The attempt counter therefore never exceeds the cap of three, and feedback never runs.
   */
  ghost predicate Resting(s: LogoDesignState) {
    && s.maxAttempts == Some(3)
    && s.iterationCount == 0
    && ((s.currentStep == Chat && s.generationAttempts == Some(0))
        || (s.currentStep == Complete && s.generationAttempts == Some(1)))
  }

  lemma HandleMessageKeepsResting(s: LogoDesignState, message: string, ext: External)
    requires Resting(s)
    ensures Resting(HandleMessage(s, message, ext).stored)
    ensures HandleMessage(s, message, ext).stored.generationAttempts.value <= HandleMessage(s, message, ext).stored.maxAttempts.value
  {
    if s.currentStep == Chat && ConsultationComplete(message, ext.chatReply) {
      CascadeTurn(s, message, ext);
      var chatted := ChatAgent(ReceiveMessage(s, message), ext.chatReply);
      if Cascade(chatted, ext).Some? {
        CascadeOutcome(chatted, ext);
      }
    }
  }

  ghost predicate AllResting(sessions: map<string, LogoDesignState>) {
    forall id :: id in sessions ==> Resting(sessions[id])
  }

  /** Storing a resting state under one id keeps every stored state resting. */
  lemma StoreKeepsResting(sessions: map<string, LogoDesignState>, id: string, s: LogoDesignState)
    requires AllResting(sessions) && Resting(s)
    ensures AllResting(sessions[id := s])
  {
  }

  class LogoDesignOrchestrator {
    var sessions: map<string, LogoDesignState>

    ghost predicate Valid()
      reads this
    {
      AllResting(sessions)
    }

    constructor ()
      ensures Valid() && sessions == map[]
    {
      sessions := map[];
    }

    /** Starts (or restarts) a session at the greeting and returns the greeting. */
    method StartSession(sessionId: string) returns (greeting: string)
      requires Valid()
      modifies this
      ensures Valid()
      ensures sessions == old(sessions)[sessionId := InitialState()]
      ensures forall id :: id in old(sessions) && id != sessionId ==> id in sessions && sessions[id] == old(sessions)[id]
      ensures greeting == Greeting
    {
      var state := InitialState().(conversationHistory := []);
      state := state.(conversationHistory := state.conversationHistory + [Message(Assistant, Greeting)]);
      sessions := sessions[sessionId := state];
      greeting := Greeting;
    }

    /** Handles one user message for a session, driving the handlers as `HandleMessage` describes. */
    method ProcessUserMessage(sessionId: string, message: string, ext: External) returns (response: Response)
      requires Valid()
      modifies this
      ensures Valid()
      ensures sessionId !in old(sessions) ==> response == SessionNotFound && sessions == old(sessions)
      ensures sessionId in old(sessions) ==>
        var t := HandleMessage(old(sessions)[sessionId], message, ext);
        && response == t.response
        && sessions == old(sessions)[sessionId := t.stored]
    {
      if sessionId !in sessions {
        return SessionNotFound;
      }
      ghost var before := sessions[sessionId];
      ghost var stored := sessions;
      assert Resting(before);
      HandleMessageKeepsResting(before, message, ext);
      ghost var t := HandleMessage(before, message, ext);
      var state := sessions[sessionId];
      state := state.(userInput := message);
      state := state.(conversationHistory := state.conversationHistory + [Message(User, message)]);
      assert state == ReceiveMessage(before, message);
      if state.currentStep == Chat {
        var received := state;
        state := ChatAgent(state, ext.chatReply);
        if state.currentStep == Summary {
          var chatted := state;
          state := SummaryAgent(state, ext.summaryReply, ext.summaryParsed);
          state := DesignerAgent(state, ext.designerReply);
          var generated := GeneratorAgent(state, ext.render);
          if generated.None? {
            // the stored dictionary is the one updated in place above, and the chat handler
            // extended its history list, so that is what the session keeps when generation raises
            assert Cascade(chatted, ext).None?;
            sessions := sessions[sessionId := received.(conversationHistory := chatted.conversationHistory)];
            StoreKeepsResting(stored, sessionId, t.stored);
            return Raised;
          }
          state := generated.value;
          state := RankingAgent(state, ext.ranking);
          PackageOutcome(state, ext.packageStamp);
          state := PackageAgent(state, ext.packageStamp).value;
          assert Cascade(chatted, ext) == Some(state);
        }
      }
      assert state == t.stored;
      sessions := sessions[sessionId := state];
      StoreKeepsResting(stored, sessionId, t.stored);
      response := Conversation(state.conversationHistory, state.currentStep);
    }
  }
}
