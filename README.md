# Logo-design workflow: a verified model of its step state machine

The system walks a client through a logo-design consultation. A session starts at the `chat`
step with a greeting. Each user message is recorded and, while the session is at `chat`, answered
by the chat handler, which decides whether the consultation is over. When it is, the orchestrator
runs summary, design, image generation, ranking and packaging in one go. Every handler receives
the whole workflow state and returns it with some keys changed (`{**state, ...}` in the source).

The model:

- `state.dfy` (module `LogoState`): the state record of `backend/agents/tech_logo/state.py`, one
  field per key; the step labels as a closed datatype `Step` (with `Label` giving each exact
  string, distinct for distinct steps); and `ChangesOnly(a, b, keys)`, the statement that `b` agrees with `a` outside `keys`.
- `text.dfy` (module `Text`): the Python string operations the rules use: `lower` (ASCII letters),
  `strip`, the substring test `p in s`, `any(...)` over a phrase list, `join` and `split`, with
  proofs that the scanning substring test agrees with the positional definition, that `strip`
  never changes whether a phrase with non-blank ends is found, and that split undoes join.
- `agents.dfy` (module `Agents`): each handler of `backend/agents/tech_logo/agents.py` as a
  function on the state. What the language model replies, what `json.loads` makes of it and what
  the image service returns are parameters. The chat handler's prompt is built by a method with
  the source's loop. A handler that can raise returns `Option`, where `None` is the exception.
- `workflow.dfy` (module `Workflow`): the graph's edge table as a function `Edge`, the handling of
  one message as a function `HandleMessage`, and the class `LogoDesignOrchestrator` whose field
  `sessions` is the session dictionary. Its methods update that field as the source does:
  the stored dictionary is changed in place before any handler runs. The chat handler extends the
  history list that the stored dictionary shares. So when the cascade raises, the stored session
  is that dictionary, still at `chat`.

What is proved, in the system's terms:

- The consultation gate is two-sided. The chat handler moves to `summary` exactly when an
  affirmative token occurs in the lower-cased, stripped user message AND a summary phrase occurs
  in the lower-cased reply. Otherwise it stays at `chat`. The strip makes no difference, and the
  test is a plain substring test: "No, that's incorrect" passes the user's side because it
  contains "correct".
- Summary, design and feedback go to `error` with their fixed messages when the reply does not
  parse. Otherwise each changes exactly the keys it returns.
- Generation turns N concepts into N logo records in concept order. Each record carries its
  concept's id and name, and all three variations are the image URL. The handler adds exactly one
  assistant message whose lines are the header and then the N URLs, and counts one more attempt.
  One failed image call fails the batch.
- Ranking asks for regeneration exactly when the verdict is `"fail"` and attempts remain (defaults
  0 and 3). Once the attempts are used up, it never does. With the hard-coded `"pass"` verdict the
  outcome is always `user_review`. A pass back through generation stays within the cap.
- Packaging keeps, in order, the logos of the ranking's best concept, and none when there is no
  ranking. It changes only the package path and the step. Its colour palette is the first designed
  concept's, whichever concept the ranking chose.
- Sessions: a new session is at `chat` with one greeting and counters 0 and 3. An unknown id is
  answered with "Session not found" and nothing changes. Outside `chat` only the input and one user
  entry change. A chat turn that stays at `chat` adds three entries, the user's message twice and
  the reply. A completed consultation runs the fixed cascade, which never consults the step in
  between. Feedback and the regenerate edge are therefore never taken, and the session ends at
  `complete`.
- Invariant of the orchestrator: every stored session is either at `chat` with no generation
  attempt, or at `complete` after exactly one. So the attempt counter never exceeds its cap.

The cascade does not stop at an `error` step: a summary that fails to parse still ends at
`complete`, and the error message is kept (`CascadeOverwritesError`).

The attempt cap holds only where the ranking handler guards it. The orchestrator's cascade and the
ranking → generate edge stay within it. The feedback → generate edge does not: generation records
one more attempt without looking at the cap, so a session at 3 of 3 attempts reaches 4
(`FeedbackRegenerateExceedsCap`).

## Model

| member | source | states |
|---|---|---|
| Agents.ChatGate | backend/agents/tech_logo/agents.py:59-73 | the step becomes `summary` iff an affirmative token occurs in the stripped lower-cased input and a summary phrase occurs in the lower-cased reply; otherwise `chat` |
| Agents.UserGateIgnoresStrip | backend/agents/tech_logo/agents.py:59-62 | stripping the user's message never changes the user's side of the gate |
| Agents.NegatedAnswerPassesGate | backend/agents/tech_logo/agents.py:62 | the substring test accepts "No, that's incorrect" as affirmative |
| Agents.ChatAgentUpdate | backend/agents/tech_logo/agents.py:52-75 | the history grows by the user's input then the reply, in that order; the input is cleared; only history, step and input change |
| Agents.BuildChatMessages | backend/agents/tech_logo/agents.py:39-48 | the prompt is the system prompt, the user entries of the history in order, then the input if non-empty; assistant entries are dropped |
| Agents.UserTurnsAppend | backend/agents/tech_logo/agents.py:42-44 | the user-entry filter distributes over concatenation, so it keeps history order |
| Agents.SummaryOutcome | backend/agents/tech_logo/agents.py:132-145 | a parsed reply gives `design` with the requirements and the raw reply; a decode error gives `error` with "Failed to parse client requirements"; nothing else changes |
| Agents.DesignerOutcome | backend/agents/tech_logo/agents.py:210-231 | parsed concepts give `generate`; a decode error gives "Failed to parse design concepts"; any other exception gives "Designer agent error: " and its text |
| Agents.GenerateAll | backend/agents/tech_logo/agents.py:244-273 | the batch succeeds iff every image call succeeds, and then yields one record per concept, in concept order |
| Agents.GeneratorOutcome | backend/agents/tech_logo/agents.py:273-293 | N concepts give N records, record i built from concept i and its image result: the concept's id and name, the image URL and three variations equal to it; one more attempt, step `ranking`, one appended image message; the handler raises when `design_concepts` is None or an image call fails, and an empty concept list succeeds with a header-only message |
| Agents.ImageMessageLines | backend/agents/tech_logo/agents.py:281-286 | the image message reads back as the header line followed by exactly the N URLs |
| Agents.RankingOutcome | backend/agents/tech_logo/agents.py:368-379 | regeneration is needed iff the verdict is "fail" and attempts (default 0) are below the maximum (default 3); the step is `regenerate` iff so, else `user_review` |
| Agents.RankingExhausted | backend/agents/tech_logo/agents.py:368-373 | once attempts reach the maximum, no verdict leads to regeneration |
| Agents.SimulatedRankingNeverRegenerates | backend/agents/tech_logo/agents.py:335-373 | with the hard-coded "pass" verdict the outcome is always `user_review` and no regeneration |
| Agents.FeedbackOutcome | backend/agents/tech_logo/agents.py:415-440 | redesign, regenerate, approve and package map to design, generate, package, package, anything else to `user_review`; the iteration count grows by one and the feedback is cleared; a decode error gives `error` |
| Agents.BestConcepts | backend/agents/tech_logo/agents.py:449-452 | a logo is kept iff it is among the generated logos and its concept id is the best one |
| Agents.BestConceptsAppend | backend/agents/tech_logo/agents.py:449-452 | the filter distributes over concatenation, so the kept logos keep their order |
| Agents.SelectBestOutcome | backend/agents/tech_logo/agents.py:446-452 | the best-concept list is empty without a ranking, and holds exactly the logos of the best concept with one |
| Agents.PackagePaletteIsFirstDesigned | backend/agents/tech_logo/agents.py:459-491 | after design, generation and ranking, the package's palette is the first designed concept's (or empty when it has none), whatever the ranking's best concept is |
| Agents.PackageOutcome | backend/agents/tech_logo/agents.py:442-482 | the package path is "packages/logo_package_" + stamp + ".pdf", the step `complete`, and nothing else changes; the handler raises only with a ranking but no logos |
| LogoState.LabelInjective | backend/agents/tech_logo/workflow.py:27-59 | distinct steps carry distinct labels, so routing on the step is routing on its label |
| Workflow.ChatRouted | backend/agents/tech_logo/workflow.py:27-34 | the chat handler's step always has an edge: to chat, or to summary when the gate holds |
| Workflow.RankingRouted | backend/agents/tech_logo/workflow.py:40-47 | from ranking the graph goes to generate iff regeneration is needed, else to feedback |
| Workflow.FeedbackRouted | backend/agents/tech_logo/workflow.py:49-57 | the feedback handler's step has an edge iff the reply parsed and its action is one of the four known ones |
| Workflow.ErrorIsDeadEnd | backend/agents/tech_logo/workflow.py:27-59 | no conditional edge is labelled `error`, and feedback's default `user_review` has none |
| Workflow.RegenerationStaysWithinCap | backend/agents/tech_logo/workflow.py:40-47 | a pass from ranking back through generation records one more attempt and stays at or below the cap |
| Workflow.FeedbackRegenerateExceedsCap | backend/agents/tech_logo/workflow.py:49-57 | with 3 of 3 attempts used, feedback asking to regenerate is routed to generate, and generation records a 4th attempt against a cap of 3 |
| Workflow.InitialStateShape | backend/agents/tech_logo/workflow.py:71-99 | a new session is at `chat` with counters 0 and 3; input empty; feedback, summary, concepts, logos, ranking, package, error and requirements absent; both flags false; one assistant greeting |
| Workflow.IdleTurn | backend/agents/tech_logo/workflow.py:110-113 | outside `chat` no handler runs: the state differs only in the input and one appended user entry |
| Workflow.ChatTurn | backend/agents/tech_logo/workflow.py:110-117 | a chat turn that stays at `chat` adds three entries: the message, the message again and the reply |
| Workflow.ChatPromptRepeatsMessage | backend/agents/tech_logo/workflow.py:110-114 | the chat prompt of a turn ends with the user's message twice |
| Workflow.CascadeOutcome | backend/agents/tech_logo/workflow.py:117-131 | a cascade whose images come back ends at `complete` with one more attempt, the package path and one more assistant entry, with the iteration count and feedback untouched |
| Workflow.CascadeTurn | backend/agents/tech_logo/workflow.py:113-134 | a completed consultation raises iff the cascade does; then the stored session stays at `chat` with the turn's three entries, otherwise it is the cascade's result |
| Workflow.CascadeOverwritesError | backend/agents/tech_logo/workflow.py:117-131 | a summary parse failure does not stop the cascade: the session ends at `complete` with the error message kept |
| Workflow.CascadeIgnoresRegenerate | backend/agents/tech_logo/workflow.py:117-131 | when the graph's regenerate edge would apply, the cascade still ends at `complete` |
| Workflow.HandleMessageKeepsResting | backend/agents/tech_logo/workflow.py:102-138 | every message keeps a stored session at `chat` with 0 attempts or at `complete` with 1 |
| Workflow.LogoDesignOrchestrator.constructor | backend/agents/tech_logo/workflow.py:67-69 | the orchestrator starts with no sessions |
| Workflow.LogoDesignOrchestrator.StartSession | backend/agents/tech_logo/workflow.py:71-100 | stores the initial state under the id, replacing any earlier one and leaving the others, and returns the greeting |
| Workflow.LogoDesignOrchestrator.ProcessUserMessage | backend/agents/tech_logo/workflow.py:102-138 | an unknown id gives "Session not found" and no change; a known id stores the state `HandleMessage` describes and returns its response; the session invariant is kept |

## Left out

- The language-model calls, the prompt texts and `json.loads`: each reply, and what the parser makes of it, is a parameter. A parse is an `Option`.
- An exception from a model call in the chat, summary or feedback handler: the source does not catch it, and the model takes each reply as given.
- A parsed feedback reply without an `"action"` key, which raises `KeyError` in the source: the parsed value always carries an action.
- The image service and its submit-and-poll HTTP protocol (`backend/llms/logo.py`): an image call is a function from the concept to an optional result. So two equal concepts get the same answer.
- The concurrency of `asyncio.gather`: the batch is a sequential map that keeps concept order. Any failure fails it, as in the source.
- The log-file write and the `print` calls of the handlers and the orchestrator.
- The timestamp of the package id: it is the parameter `stamp`.
- The package manifest, the brand guidelines and the usage guidelines: constant data that is built and discarded. The best-concept list and the palette are modelled, since they also go only into it.
- The ranking's per-concept assessments and scores: no rule reads them, so the ranking is its verdict and its best concept id.
- Python's full Unicode `lower()`: only ASCII letters are lowered.
- `generation_attempts` or `max_attempts` present with the value `None` (a `TypeError` in the source): `None` in the model means the key is absent, so the default applies.
- The LangGraph runtime behind `create_logo_design_workflow`: only its edge table is modelled, since the orchestrator never runs the compiled graph.
- Defects that stop the real cascade before it ends. The model follows the intended rules and does not claim the cascade runs end to end. These are:
  - the designer calls a missing `llm_manager`;
  - the generator reads `generation_prompt` where concepts carry `midjourney_prompt`;
  - it reads `image_url` where the service returns `image_urls`;
  - it calls `os.makedirs("")`;
  - the orchestrator awaits the synchronous generator;
  - the generator runs its batch with `asyncio.run`, which raises `RuntimeError` inside the event loop that serves `/chat`, and the fallback `run_until_complete` on that running loop raises `RuntimeError` again, uncaught, so every generator call from the orchestrator raises.
- `backend/main.py`, `backend/llms/openai.py` and the front-end files: HTTP routes, client wrappers and UI.
- Concurrent requests for one session: calls are sequential method calls on the orchestrator.
