/** The coaching side of app.js: the context snapshot and the automatic prompt
    sent to the coach, the choice between the direct provider and the relay in
    `fetchCoachAdvice`, and the app state with its auto-prompt cooldown. */
module Coach {
  import opened Common
  import opened Scoring
  import opened Milestones

  const AutoPromptCooldownMs: int := 45_000
  const GroqEndpoint: string := "https://api.groq.com/openai/v1/chat/completions"
  const GroqModel: string := "llama3-70b-8192"
  const RelayPath: string := "/api/coach"
  const NoAnswer: string := "Keine Antwort."
  const NewSessionReason: string := "Es gibt ein neues Training. Bitte aktualisiere den Plan."

  /** The instruction the direct tier sends as its first system message. */
  const CoachPersona: string :=
    "Du bist ein professioneller Front-Lever-Coach. Antworte klar, motivierend und konkret. Gib priorisierte Schritte, Load-Management und kurze Technik-Cues."

  /** The canned replies used when the relay cannot be reached. */
  const ExampleCoachReplies: seq<string> := [
    "Fokus heute: 4x8s Advanced Tuck, RPE 7, 90s Pause.",
    "Achte auf eine leichte Beckenkippung nach hinten und aktives Lat-Engagement.",
    "Nächster Schritt: 3x6s One-Leg, danach 2x10s Tuck als Volume-Backoff."
  ]

  // ---------------------------------------------------------------------------
  // Context and automatic prompt

  /** The snapshot `buildContext` hands to the coach. */
  datatype Context = Context(totalScore: int, latest: Option<Session>, sessions: seq<Session>, nextMilestone: string)

  /** `buildContext`: the total score, the newest session (null when there is
      none), the six newest sessions in list order, and the title of the next
      milestone (the last one once all are met). */
  function BuildContext(sessions: seq<Session>): (c: Context)
    ensures c.totalScore == TotalScore(sessions)
    ensures c.latest == None <==> sessions == []
    ensures c.latest.Some? ==> c.latest.value == sessions[0]
    ensures |c.sessions| == Min(6, |sessions|) && c.sessions == sessions[..|c.sessions|]
    ensures c.nextMilestone == NextMilestone(c.totalScore).title
    ensures c.totalScore >= FinalRequirement ==> c.nextMilestone == Ladder[|Ladder| - 1].title
  {
    var total := TotalScore(sessions);
    var next := NextMilestone(total);
    Context(total, if sessions == [] then None else Some(sessions[0]),
            sessions[..Min(6, |sessions|)], next.title)
  }

  /** After `addSession`, the context shows the new session as the latest,
      adds its score to the total, and keeps it in front of the five sessions
      that were newest before. */
  lemma ContextAfterAddSession(s: Session, sessions: seq<Session>)
    ensures var c := BuildContext([s] + sessions);
      && c.latest == Some(s)
      && c.totalScore == Score(s) + TotalScore(sessions)
      && c.sessions == [s] + sessions[..Min(5, |sessions|)]
  {
    NewestSixAfterPrepend(s, sessions);
    TotalScorePrepend(s, sessions);
  }

  lemma NewestSixAfterPrepend(s: Session, sessions: seq<Session>)
    ensures ([s] + sessions)[..Min(6, |sessions| + 1)] == [s] + sessions[..Min(5, |sessions|)]
  {
    var k := Min(5, |sessions|);
    assert ([s] + sessions)[..k + 1] == [s] + sessions[..k];
  }

  /** One line of the prompt `buildAutoPrompt` joins with newlines; only the
      data each line carries is kept, not its wording. */
  datatype PromptLine =
    | ReasonLine(reason: string)
    | GoalLine(totalScore: int, milestoneTitle: string)
    | LatestLine(latest: Option<Session>)
    | HistoryLine(history: seq<Session>)
    | RequestLine

  /** `buildAutoPrompt(reason)`: the reason first, then the goal with score and
      next milestone, the latest entry, the five newest sessions, and the
      fixed request for a plan. */
  function BuildAutoPrompt(sessions: seq<Session>, reason: string): (lines: seq<PromptLine>)
    ensures |lines| == 5
    ensures lines[0] == ReasonLine(reason) && lines[4] == RequestLine
    ensures lines[1] == GoalLine(TotalScore(sessions), NextMilestone(TotalScore(sessions)).title)
    ensures lines[2] == LatestLine(if sessions == [] then None else Some(sessions[0]))
    ensures lines[3].HistoryLine? && |lines[3].history| == Min(5, |sessions|)
    ensures lines[3].history == sessions[..|lines[3].history|]
  {
    var total := TotalScore(sessions);
    [ ReasonLine(reason),
      GoalLine(total, NextMilestone(total).title),
      LatestLine(if sessions == [] then None else Some(sessions[0])),
      HistoryLine(sessions[..Min(5, |sessions|)]),
      RequestLine ]
  }

  /** The automatic prompt and the context agree: the same latest session and
      milestone, and the prompt's history is the front of the context's list. */
  lemma AutoPromptAgreesWithContext(sessions: seq<Session>, reason: string)
    ensures var c := BuildContext(sessions);
      var lines := BuildAutoPrompt(sessions, reason);
      && lines[2].latest == c.latest
      && lines[1].milestoneTitle == c.nextMilestone
      && lines[3].history == c.sessions[..Min(5, |c.sessions|)]
  {
  }

  // ---------------------------------------------------------------------------
  // Advice tiers

  /** The coach configuration: the relay base address and the provider key
      ("" when unset). */
  datatype Config = Config(apiBase: string, apiKey: string)

  datatype ChatMessage = SystemText(text: string) | SystemContext(context: Context) | UserText(text: string)

  /** The one request `fetchCoachAdvice` sends. */
  datatype AdviceRequest =
    | DirectRequest(url: string, bearer: string, model: string, messages: seq<ChatMessage>)
    | RelayRequest(url: string, message: string, context: Context)

  /** What became of that request: it failed (network error, a status that is
      not OK, a body that is not JSON), or it answered with the reply field
      (`choices[0].message.content` from the provider, `reply` from the relay),
      which may be missing. */
  datatype FetchOutcome = Failed | Answered(reply: Option<string>)

  /** Why the direct tier gave up: it throws instead of falling back. */
  datatype AdviceError = DirectTierFailed

  /** `apiBase.replace(/\/$/, "")`: one trailing slash removed. */
  function StripTrailingSlash(base: string): (r: string)
    ensures |base| > 0 && base[|base| - 1] == '/' ==> r + "/" == base
    ensures (|base| == 0 || base[|base| - 1] != '/') ==> r == base
  {
    if |base| > 0 && base[|base| - 1] == '/' then base[..|base| - 1] else base
  }

  /** The relay endpoint: the base without its trailing slash followed by
      "/api/coach", or "/api/coach" alone when nothing is left of the base. */
  function RelayEndpoint(apiBase: string): (url: string)
    ensures url == StripTrailingSlash(apiBase) + RelayPath
    ensures apiBase == "" || apiBase == "/" ==> url == RelayPath
  {
    var baseUrl := if apiBase != "" then StripTrailingSlash(apiBase) else "";
    if baseUrl != "" then baseUrl + RelayPath else RelayPath
  }

  /** The request `fetchCoachAdvice` builds: the direct provider when a key is
      set, otherwise the relay. */
  function PlanAdviceRequest(config: Config, sessions: seq<Session>, message: string): (req: AdviceRequest)
    ensures req.DirectRequest? <==> config.apiKey != ""
    ensures req.DirectRequest? ==>
      && req.url == GroqEndpoint && req.bearer == config.apiKey && req.model == GroqModel
      && req.messages == [SystemText(CoachPersona), SystemContext(BuildContext(sessions)), UserText(message)]
    ensures req.RelayRequest? ==>
      req.url == RelayEndpoint(config.apiBase) && req.message == message && req.context == BuildContext(sessions)
  {
    if config.apiKey != "" then
      DirectRequest(GroqEndpoint, config.apiKey, GroqModel,
                    [SystemText(CoachPersona), SystemContext(BuildContext(sessions)), UserText(message)])
    else
      RelayRequest(RelayEndpoint(config.apiBase), message, BuildContext(sessions))
  }

  /** `reply || "Keine Antwort."`: a missing or empty reply becomes the default text. */
  function ReplyOrDefault(reply: Option<string>): (text: string)
    ensures text != ""
    ensures reply.Some? && reply.value != "" ==> text == reply.value
    ensures !(reply.Some? && reply.value != "") ==> text == NoAnswer
  {
    if reply.Some? && reply.value != "" then reply.value else NoAnswer
  }

  /** The advice `fetchCoachAdvice` returns for the outcome of its request;
      `pick` stands for `Math.floor(Math.random() * 3)`. */
  function ResolveAdvice(req: AdviceRequest, outcome: FetchOutcome, pick: nat): (r: Result<string, AdviceError>)
    requires pick < |ExampleCoachReplies|
    ensures r.Failure? <==> req.DirectRequest? && outcome.Failed?
    ensures r.Success? ==> r.value != ""
    ensures req.RelayRequest? && outcome.Failed? ==> r.value in ExampleCoachReplies
  {
    match outcome
    case Answered(reply) => Success(ReplyOrDefault(reply))
    case Failed =>
      if req.DirectRequest? then Failure(DirectTierFailed) else Success(ExampleCoachReplies[pick])
  }

  /** `fetchCoachAdvice(message)`. With a key only the direct provider is
      asked, and its failure is thrown; without one only the relay is asked,
      and its failure yields a canned reply, so this path never throws. Any
      advice returned is non-empty. */
  function FetchCoachAdvice(config: Config, sessions: seq<Session>, message: string,
                            outcome: FetchOutcome, pick: nat): (r: Result<string, AdviceError>)
    requires pick < |ExampleCoachReplies|
    ensures config.apiKey != "" ==> (r.Failure? <==> outcome.Failed?)
    ensures config.apiKey == "" ==> r.Success?
    ensures config.apiKey == "" && outcome.Failed? ==> r == Success(ExampleCoachReplies[pick])
    ensures outcome.Answered? ==> r == Success(ReplyOrDefault(outcome.reply))
    ensures r.Success? ==> r.value != ""
  {
    ResolveAdvice(PlanAdviceRequest(config, sessions, message), outcome, pick)
  }

  /** The tail of `requestCoachUpdate`: the advice for the prompt is posted to
      the chat (Some), or a failure is caught and only logged (None), so an
      automatic trigger never throws. It is silent exactly when the direct
      provider fails. */
  function AutoPromptReply(config: Config, sessions: seq<Session>, prompt: string,
                           outcome: FetchOutcome, pick: nat): (posted: Option<string>)
    requires pick < |ExampleCoachReplies|
    ensures posted.None? <==> config.apiKey != "" && outcome.Failed?
    ensures posted.Some? ==> posted.value != ""
    ensures config.apiKey == "" && outcome.Failed? ==> posted == Some(ExampleCoachReplies[pick])
    ensures outcome.Answered? ==> posted == Some(ReplyOrDefault(outcome.reply))
  {
    match FetchCoachAdvice(config, sessions, prompt, outcome, pick)
    case Success(advice) => Some(advice)
    case Failure(_) => None
  }

  // ---------------------------------------------------------------------------
  // App state and the auto-prompt cooldown

  /** The app's module state: the session list (newest first), the coach
      configuration, the per-date challenge completion flags, and the time of
      the last automatic prompt. */
  class App {
    var sessions: seq<Session>
    var config: Config
    var challenges: map<string, bool>
    var lastAutoPromptAt: int

    /** The state once loaded from storage; no automatic prompt yet. */
    constructor (sessions: seq<Session>, config: Config, challenges: map<string, bool>)
      ensures this.sessions == sessions && this.config == config && this.challenges == challenges
      ensures lastAutoPromptAt == 0
    {
      this.sessions := sessions;
      this.config := config;
      this.challenges := challenges;
      lastAutoPromptAt := 0;
    }

    /** `requestCoachUpdate(reason)` at time `now`: suppressed while less than
      45 s have passed since the last automatic prompt; otherwise the time is
      recorded first and the prompt to send is returned. */
    method RequestCoachUpdate(reason: string, now: int) returns (prompt: Option<seq<PromptLine>>)
      modifies this`lastAutoPromptAt
      ensures prompt.Some? <==> now - old(lastAutoPromptAt) >= AutoPromptCooldownMs
      ensures prompt.Some? ==> lastAutoPromptAt == now && prompt.value == BuildAutoPrompt(sessions, reason)
      ensures prompt.None? ==> lastAutoPromptAt == old(lastAutoPromptAt)
    {
      if now - lastAutoPromptAt < AutoPromptCooldownMs {
        return None;
      }
      lastAutoPromptAt := now;
      prompt := Some(BuildAutoPrompt(sessions, reason));
    }

    /** `addSession(session)`: the session goes in front of the list, then an
      automatic prompt about the new training is requested. */
    method AddSession(session: Session, now: int) returns (prompt: Option<seq<PromptLine>>)
      modifies this`sessions, this`lastAutoPromptAt
      ensures sessions == [session] + old(sessions)
      ensures |sessions| == |old(sessions)| + 1 && sessions[0] == session
      ensures forall i :: 0 <= i < |old(sessions)| ==> sessions[i + 1] == old(sessions)[i]
      ensures prompt.Some? <==> now - old(lastAutoPromptAt) >= AutoPromptCooldownMs
      ensures prompt.Some? ==> lastAutoPromptAt == now && prompt.value == BuildAutoPrompt(sessions, NewSessionReason)
      ensures prompt.None? ==> lastAutoPromptAt == old(lastAutoPromptAt)
    {
      sessions := [session] + sessions;
      prompt := RequestCoachUpdate(NewSessionReason, now);
    }

    /** The challenge button: today's challenge is marked done. */
    method CompleteChallenge(today: string)
      modifies this`challenges
      ensures challenges == old(challenges)[today := true]
    {
      challenges := challenges[today := true];
    }
  }

  /** Two automatic triggers `gap` milliseconds apart on a freshly loaded app
      (the first at a clock reading of at least 45 s): the second fires only if
      45 s have passed, so 1 s apart gives one prompt and 46 s apart two. */
  method TwoTriggers(first: int, gap: int) returns (fired: nat)
    requires first >= AutoPromptCooldownMs
    ensures fired == if gap >= AutoPromptCooldownMs then 2 else 1
  {
    var app := new App([], Config("", ""), map[]);
    var p1 := app.RequestCoachUpdate("Neue Konfiguration.", first);
    var p2 := app.RequestCoachUpdate("Neue Konfiguration.", first + gap);
    fired := (if p1.Some? then 1 else 0) + (if p2.Some? then 1 else 0);
  }
}
