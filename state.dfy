/**
 * The record every step handler of the logo-design workflow receives and returns
 * (`LogoDesignState`), with the JSON-shaped values it carries.
 */
module LogoState {
  import opened Wrappers

  datatype Role = User | Assistant

  /** One `{"role": ..., "content": ...}` entry of the conversation history. */
  datatype Message = Message(role: Role, content: string)

  /** The values `current_step` takes. */
  datatype Step =
    | Chat | Summary | Design | Generate | Ranking | Regenerate | UserReview | Package | Complete | Error

  /** The exact label each step has in the state dictionary and in the workflow graph. */
  function Label(step: Step): string {
    match step
    case Chat => "chat"
    case Summary => "summary"
    case Design => "design"
    case Generate => "generate"
    case Ranking => "ranking"
    case Regenerate => "regenerate"
    case UserReview => "user_review"
    case Package => "package"
    case Complete => "complete"
    case Error => "error"
  }

  /** Distinct steps have distinct labels, so the closed step type loses nothing against the strings. */
  lemma LabelInjective(a: Step, b: Step)
    ensures Label(a) == Label(b) ==> a == b
  {
  }

  /** The parsed client brief; its sections are opaque to the workflow. */
  datatype Requirements = Requirements(sections: map<string, string>)

  /** One design concept as the designer returns it. */
  datatype Concept = Concept(
    conceptId: int,
    name: string,
    colorPalette: Option<map<string, string>>,
    generationPrompt: string)

  datatype Variations = Variations(primary: string, horizontal: string, icon: string)

  datatype GenerationMetadata = GenerationMetadata(promptUsed: string, generationTime: string, model: string)

  /** One generated logo record. */
  datatype Logo = Logo(
    conceptId: int,
    conceptName: string,
    imageUrl: string,
    variations: Variations,
    metadata: GenerationMetadata)

  /** The part of `ranking_results` the workflow reads: the verdict and the chosen concept. */
  datatype RankingReport = RankingReport(overallQuality: string, bestConceptId: int)

  /**
   * The shared workflow state. `generationAttempts` and `maxAttempts` are `None` when the key is
   * absent, so that the handlers' `state.get(key, default)` is `GetOr(default)`.
   */
  datatype LogoDesignState = LogoDesignState(
    userInput: string,
    conversationHistory: seq<Message>,
    userFeedback: Option<string>,
    iterationCount: int,
    chatSummary: Option<string>,
    designConcepts: Option<seq<Concept>>,
    generatedLogos: Option<seq<Logo>>,
    rankingResults: Option<RankingReport>,
    finalPackage: Option<string>,
    currentStep: Step,
    needsRegeneration: bool,
    userApproved: bool,
    errorMessage: Option<string>,
    clientRequirements: Option<Requirements>,
    generationAttempts: Option<int>,
    maxAttempts: Option<int>)

  /** The keys of the state dictionary. */
  datatype Key =
    | UserInput | ConversationHistory | UserFeedback | IterationCount | ChatSummary | DesignConcepts
    | GeneratedLogos | RankingResults | FinalPackage | CurrentStep | NeedsRegeneration | UserApproved
    | ErrorMessage | ClientRequirements | GenerationAttempts | MaxAttempts

  predicate SameAt(a: LogoDesignState, b: LogoDesignState, k: Key) {
    match k
    case UserInput => a.userInput == b.userInput
    case ConversationHistory => a.conversationHistory == b.conversationHistory
    case UserFeedback => a.userFeedback == b.userFeedback
    case IterationCount => a.iterationCount == b.iterationCount
    case ChatSummary => a.chatSummary == b.chatSummary
    case DesignConcepts => a.designConcepts == b.designConcepts
    case GeneratedLogos => a.generatedLogos == b.generatedLogos
    case RankingResults => a.rankingResults == b.rankingResults
    case FinalPackage => a.finalPackage == b.finalPackage
    case CurrentStep => a.currentStep == b.currentStep
    case NeedsRegeneration => a.needsRegeneration == b.needsRegeneration
    case UserApproved => a.userApproved == b.userApproved
    case ErrorMessage => a.errorMessage == b.errorMessage
    case ClientRequirements => a.clientRequirements == b.clientRequirements
    case GenerationAttempts => a.generationAttempts == b.generationAttempts
    case MaxAttempts => a.maxAttempts == b.maxAttempts
  }

  /** `b` is `{**a, <keys>: ...}`: it agrees with `a` on every key outside `keys`. */
  ghost predicate ChangesOnly(a: LogoDesignState, b: LogoDesignState, keys: set<Key>) {
    forall k :: k !in keys ==> SameAt(a, b, k)
  }
}
