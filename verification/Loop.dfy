/** The agentic loop as a transition system. One advance is a chain of steps, each ending in one
    durable effect (a write of the Conversation, a question raised, an Operation run), so a crash
    between any two effects is a step like any other. */
module Loop {
  import opened Wrappers
  import opened CanonicalJson
  import opened Conversations
  import Keys

  // ------------------------------------------------------------------ what the environment supplies

  datatype Config = Config(maxEscalations: nat, maxAttempts: nat)

  datatype AssistantInfo = AssistantInfo(enabled: bool, maxTurns: Option<nat>)

  /** A granted Operation, as far as the loop looks at it. */
  datatype Grant = Grant(requiresApproval: bool, mutating: bool, reconciles: bool)

  /** A call after name resolution: the name recorded on the intent, and the arguments. */
  datatype Call = Call(operation: string, args: Json)

  datatype Outcome = Value | Error | Suspension(waitingFor: Party, wakes: bool, asks: bool)

  datatype Finish = Answered | WantsTools | CutShort | Abnormal

  /** `spent` is what the attempt truly cost; `usage` is what the provider reported, if anything. */
  datatype ModelReply =
    | Transient(spent: Usage)
    | Fatal(spent: Usage)
    | Response(finish: Finish, text: string, calls: seq<Call>, usage: Option<Usage>, spent: Usage)

  /** What an Operation says it spent on a model of its own. */
  datatype Report = NoReport | Report(prompt: int, completion: int)

  // ------------------------------------------------------------------ state

  /** One invocation of `execute`. `yes` is the question whose yes let it run; `landed` says whether
      the effect took place, whatever the invocation answered. */
  datatype Execution = Execution(key: nat, operation: string, args: Json, yes: Option<nat>, landed: bool)

  /** Everything that survives a crash. The last five fields are history the loop never reads:
      rows put over an unanswered intent, every question ever confirmed, true spend, spend that no
      row records, and advances completed. */
  datatype Store = Store(
    conversation: Conversation,
    questions: seq<Question>,
    executions: seq<Execution>,
    overlaid: bool,
    confirmed: set<nat>,
    spend: Usage,
    lost: Usage,
    completed: nat)

  datatype Phase =
    | Guards
    | Escalating
    | Committing(counts: bool)
    | Reconciling(intent: Entry)
    | Prompting(attempt: nat, messages: seq<Message>)
    | Calling
    | Gating(call: Call, key: nat)
    | Asking(call: Call, key: nat)
    | Executing(call: Call, key: nat, yes: Option<nat>)
    | Executed(call: Call, key: nat, yes: Option<nat>, outcome: Outcome, question: Option<nat>,
               report: Report, spent: Usage)

  /** The in-memory half of an advance. `unsaved` is what rows gained since the last write, `base`
      and `allowance` count rows, and `overlaid` is the in-memory twin of the store's. */
  datatype Turn = Turn(
    conversation: Conversation,
    phase: Phase,
    granted: map<string, Grant>,
    calls: seq<Call>,
    narration: string,
    bill: Usage,
    costEntry: Option<nat>,
    overlaid: bool,
    unsaved: Usage,
    base: nat,
    allowance: nat)

  datatype State = State(store: Store, turn: Option<Turn>)

  datatype Step =
    // one advance
    | Begin
    | Guard(assistant: Option<AssistantInfo>, granted: map<string, Grant>)
    | Escalate
    | Commit
    | Reconcile(verdict: Option<Outcome>)
    | Attempt(reply: ModelReply)
    | GiveUp
    | Intend
    | EndCalls
    | Gate(read: bool)
    | Ask
    | Execute(outcome: Outcome, landed: bool, report: Report, spent: Usage)
    | Record
    // the environment
    | Crash
    | LeaseExpires
    | SetAnswer(question: nat, confirmed: Option<bool>, spoken: bool)
    | Delete(question: nat)
    | WatchAnswered(text: string)
    | WatchGone(read: bool)
    | WatchWoken
    | Deliver(text: string)

  // ------------------------------------------------------------------ rows and conversations

  function PlainRow(kind: Kind, text: string): Entry {
    Blank.(kind := kind, text := text)
  }

  function IntentRow(call: Call, text: string, key: nat, usage: Usage): Entry {
    Blank.(kind := ToolIntent, text := text, toolName := call.operation, toolArgs := call.args,
           key := Some(key), usage := usage)
  }

  function ResultRow(operation: string, key: Option<nat>, stamp: Option<string>): Entry {
    Blank.(kind := ToolResult, toolName := operation, key := key, argsHash := stamp)
  }

  function RequestRow(operation: string, hash: string, question: nat): Entry {
    Blank.(kind := ApprovalRequest, toolName := operation, argsHash := Some(hash), questionId := Some(question))
  }

  function Escalated(c: Conversation): Conversation {
    Appended(c.(escalations := c.escalations + 1), PlainRow(ErrorNote, "stuck"))
  }

  function Suspended(c: Conversation, party: Party, wakes: bool, question: Option<nat>): Conversation {
    c.(status := Waiting, waitingFor := party, wakes := wakes, currentQuestion := question, leased := false)
  }

  function EndedFull(c: Conversation): Conversation {
    var noted := if |c.entries| < MAX_ENTRIES then Appended(c, PlainRow(ErrorNote, "full")) else c;
    noted.(status := Failed, waitingFor := Nobody, leased := false, currentQuestion := None)
  }

  function TurnLimit(c: Conversation, assistant: AssistantInfo): nat {
    if c.maxTurns.Some? then c.maxTurns.value
    else if assistant.maxTurns.Some? then assistant.maxTurns.value
    else 20
  }

  function OperationUsage(report: Report): Option<Usage> {
    if report.NoReport? || report.prompt < 0 || report.completion < 0 then None
    else Some(Usage(report.prompt, report.completion))
  }

  /** Add to what a row already carries. */
  function AddUsage(entries: seq<Entry>, at: nat, usage: Usage): seq<Entry>
    requires at < |entries|
  {
    entries[at := entries[at].(usage := Plus(entries[at].usage, usage))]
  }

  predicate Overlays(c: Conversation) {
    UnresolvedIntent(c.entries).Some?
  }

  // ------------------------------------------------------------------ the steps of an advance

  function BeginTurn(s: State): State {
    var c := s.store.conversation;
    s.(turn := Some(Turn(c.(leased := true), Guards, map[], [], "", NoUsage, None, s.store.overlaid,
                         NoUsage, |c.entries|, 0)))
  }

  /** To the escalation tier, noting whether an unanswered intent is now buried. */
  function ToEscalation(t: Turn, c: Conversation): Turn {
    t.(conversation := Escalated(c), phase := Escalating, overlaid := t.overlaid || Overlays(c))
  }

  function GuardTurn(t: Turn, assistant: Option<AssistantInfo>, granted: map<string, Grant>): Turn {
    var c := t.conversation;
    if IsFull(c) then
      t.(conversation := EndedFull(c), phase := Committing(true),
         overlaid := t.overlaid || (|c.entries| < MAX_ENTRIES && Overlays(c)))
    else if assistant.None? then
      ToEscalation(t, c)
    else if !assistant.value.enabled then
      t.(conversation := c.(leased := false), phase := Committing(false))
    else
      var limit := TurnLimit(c, assistant.value);
      if c.turnCount >= limit then
        ToEscalation(t, c.(maxTurns := Some(limit + TURN_GRANT_ON_ESCALATION)))
      else
        var running := c.(status := Running, waitingFor := Nobody);
        var unresolved := UnresolvedIntent(c.entries);
        if unresolved.Some? then
          t.(conversation := running, phase := Reconciling(unresolved.value), granted := granted)
        else
          t.(conversation := running, phase := Prompting(1, BuildMessages(c.entries)), granted := granted)
  }

  function EscalateStep(cfg: Config, s: State): State
    requires s.turn.Some?
  {
    var t := s.turn.value;
    var c := t.conversation;
    if c.escalations > cfg.maxEscalations then
      var failed := c.(status := Failed, leased := false, currentQuestion := None);
      s.(turn := Some(t.(conversation := failed, phase := Committing(true))))
    else
      var (questions, id) := Raise(s.store.questions, Keys.EscalationKey(c.escalations));
      var asked := c.(status := Waiting, waitingFor := User, currentQuestion := Some(id), leased := false);
      s.(store := s.store.(questions := questions),
         turn := Some(t.(conversation := asked, phase := Committing(true))))
  }

  function CommitStep(s: State): State
    requires s.turn.Some? && s.turn.value.phase.Committing?
  {
    var t := s.turn.value;
    State(s.store.(conversation := t.conversation, overlaid := t.overlaid,
                   completed := s.store.completed + if t.phase.counts then 1 else 0),
          None)
  }

  /** What recovery concludes about an interrupted call; None is "nothing can say". */
  function Settlement(granted: map<string, Grant>, intent: Entry, verdict: Option<Outcome>): Option<Outcome> {
    if intent.toolName !in granted then Some(Error)
    else if !granted[intent.toolName].mutating then Some(Value)
    else if !granted[intent.toolName].reconciles then None
    else verdict
  }

  function SettledStamp(granted: map<string, Grant>, intent: Entry, settled: Option<Outcome>): Option<string> {
    if settled == Some(Value) && intent.toolName in granted && granted[intent.toolName].requiresApproval
    then Some(ArgsHash(intent.toolArgs)) else None
  }

  function ReconcileStep(s: State, verdict: Option<Outcome>): State
    requires s.turn.Some? && s.turn.value.phase.Reconciling?
  {
    var t := s.turn.value.(allowance := s.turn.value.allowance + 1);
    var intent := t.phase.intent;
    var settled := Settlement(t.granted, intent, verdict);
    var row := ResultRow(intent.toolName, intent.key, SettledStamp(t.granted, intent, settled));
    var c := Appended(t.conversation, row);
    if settled.None? then
      s.(turn := Some(ToEscalation(t, c)))
    else if settled.value.Suspension? then
      var id := if settled.value.asks && intent.key.Some?
                then FindByKey(s.store.questions, Keys.CallKey(intent.key.value), 0) else None;
      s.(turn := Some(t.(conversation := Suspended(c, settled.value.waitingFor, settled.value.wakes, id),
                         phase := Committing(true))))
    else
      State(s.store.(conversation := c, overlaid := t.overlaid),
            Some(t.(conversation := c, phase := Prompting(1, BuildMessages(c.entries)), unsaved := NoUsage)))
  }

  function AttemptStep(s: State, reply: ModelReply): State
    requires s.turn.Some? && s.turn.value.phase.Prompting?
  {
    var t := s.turn.value;
    var c := t.conversation;
    var store := s.store.(spend := Plus(s.store.spend, reply.spent));
    var unbilled := store.(lost := Plus(store.lost, reply.spent));
    match reply
    case Transient(_) =>
      State(unbilled, Some(t.(conversation := Appended(c, PlainRow(ErrorNote, "transient")),
                              phase := Prompting(t.phase.attempt + 1, t.phase.messages),
                              allowance := t.allowance + 1)))
    case Fatal(_) => State(unbilled, Some(ToEscalation(t, c)))
    case Response(finish, text, calls, usage, _) =>
      var counted := c.(turnCount := c.turnCount + 1);
      var bill := if usage.Some? then usage.value else NoUsage;
      var billed := if usage.Some? then store else unbilled;
      match finish
      case Abnormal => State(unbilled, Some(ToEscalation(t, counted)))
      case WantsTools =>
        State(billed, Some(t.(conversation := counted, phase := Calling, calls := calls, narration := text,
                              bill := bill, costEntry := None, allowance := t.allowance + 2 * |calls|)))
      case _ =>
        var done := Appended(counted, PlainRow(Reply, text).(usage := bill)).(status := Done, leased := false);
        State(billed, Some(t.(conversation := done, phase := Committing(true),
                              unsaved := Plus(t.unsaved, bill))))
  }

  /** The intent is written before the Operation runs; the Turn's cost goes on the first of them. */
  function IntendStep(s: State): State
    requires s.turn.Some? && s.turn.value.calls != []
  {
    var t := s.turn.value;
    var call := t.calls[0];
    var key := NextSeq(t.conversation.entries);
    var first := t.costEntry.None?;
    var row := IntentRow(call, if first then t.narration else "", key, if first then t.bill else NoUsage);
    var c := Appended(t.conversation, row);
    State(s.store.(conversation := c, overlaid := t.overlaid),
          Some(t.(conversation := c, phase := Gating(call, key), calls := t.calls[1..], unsaved := NoUsage,
                  costEntry := if first then Some(|t.conversation.entries|) else t.costEntry)))
  }

  function EndCallsStep(s: State): State
    requires s.turn.Some?
  {
    var t := s.turn.value;
    var ended := t.conversation.(leased := false, status := Running);
    s.(store := if t.costEntry.None? then s.store.(lost := Plus(s.store.lost, t.bill)) else s.store,
       turn := Some(t.(conversation := ended, phase := Committing(true))))
  }

  /** A refusal or a belt: the call gets its result without the Operation having run. */
  function Refused(t: Turn, call: Call, key: nat): Turn {
    t.(conversation := Appended(t.conversation, ResultRow(call.operation, Some(key), None)), phase := Calling)
  }

  function Held(t: Turn, call: Call, key: nat, question: nat): Turn {
    t.(conversation := Suspended(Appended(t.conversation, ResultRow(call.operation, Some(key), None)),
                                 User, false, Some(question)),
       phase := Committing(true))
  }

  function GateTurn(t: Turn, questions: seq<Question>): Turn
    requires t.phase.Gating?
  {
    var call, key := t.phase.call, t.phase.key;
    if call.operation !in t.granted then Refused(t, call, key)
    else if !t.granted[call.operation].requiresApproval then t.(phase := Executing(call, key, None))
    else
      match FindApproval(t.conversation.entries, call.operation, ArgsHash(call.args), questions)
      case Valid(q) => t.(phase := Executing(call, key, Some(q)))
      case Declined(_) => Refused(t, call, key)
      case Pending(q) => Held(t, call, key, q)
      case Missing => t.(phase := Asking(call, key))
      case Consumed(_) => t.(phase := Asking(call, key))
  }

  /** The question is raised before the row is appended; the attempt number makes the key stable. */
  function AskStep(s: State): State
    requires s.turn.Some? && s.turn.value.phase.Asking?
  {
    var t := s.turn.value;
    var call, key := t.phase.call, t.phase.key;
    var hash := ArgsHash(call.args);
    var attempt := RequestCount(t.conversation.entries, call.operation, hash) + 1;
    var (questions, id) := Raise(s.store.questions, Keys.ApprovalKey(hash, attempt));
    var asked := t.(conversation := Appended(t.conversation, RequestRow(call.operation, hash, id)));
    State(s.store.(questions := questions), Some(Held(asked, call, key, id)))
  }

  function ExecuteStep(s: State, outcome: Outcome, landed: bool, report: Report, spent: Usage): State
    requires s.turn.Some? && s.turn.value.phase.Executing?
  {
    var t := s.turn.value;
    var (call, key, yes) := (t.phase.call, t.phase.key, t.phase.yes);
    var asks := outcome.Suspension? && outcome.asks;
    var raised := if asks then Raise(s.store.questions, Keys.CallKey(key)) else (s.store.questions, 0);
    State(s.store.(questions := raised.0,
                   executions := s.store.executions + [Execution(key, call.operation, call.args, yes, landed)],
                   spend := Plus(s.store.spend, spent)),
          Some(t.(phase := Executed(call, key, yes, outcome, if asks then Some(raised.1) else None, report, spent))))
  }

  function RecordStep(s: State): State
    requires s.turn.Some? && s.turn.value.phase.Executed?
    requires var t := s.turn.value; t.costEntry.Some? && t.costEntry.value < |t.conversation.entries|
  {
    var t := s.turn.value;
    var (call, key, yes, outcome) := (t.phase.call, t.phase.key, t.phase.yes, t.phase.outcome);
    var stamp := if yes.Some? && outcome.Value? then Some(ArgsHash(call.args)) else None;
    var c := Appended(t.conversation, ResultRow(call.operation, Some(key), stamp));
    var reported := if outcome.Value? then OperationUsage(t.phase.report) else None;
    var store := if reported.Some? then s.store else s.store.(lost := Plus(s.store.lost, t.phase.spent));
    if outcome.Suspension? then
      State(store, Some(t.(conversation := Suspended(c, outcome.waitingFor, outcome.wakes, t.phase.question),
                           phase := Committing(true))))
    else if reported.Some? then
      var billed := c.(entries := AddUsage(c.entries, t.costEntry.value, reported.value));
      State(store, Some(t.(conversation := billed, phase := Calling,
                           unsaved := Plus(t.unsaved, reported.value))))
    else
      State(store, Some(t.(conversation := c, phase := Calling)))
  }

  // ------------------------------------------------------------------ the environment

  /** What this Turn has spent and recorded nowhere durable. */
  function InFlight(t: Turn): Usage {
    Plus(t.unsaved, Unrecorded(t))
  }

  function Unrecorded(t: Turn): Usage {
    if t.phase.Calling? && t.costEntry.None? then t.bill
    else if t.phase.Executed? then t.phase.spent
    else NoUsage
  }

  function Watched(s: State, c: Conversation, row: Entry): State {
    s.(store := s.store.(conversation := Appended(c, row), overlaid := s.store.overlaid || Overlays(c)))
  }

  predicate AwaitsQuestion(c: Conversation) {
    c.status == Waiting && (c.waitingFor == User || c.waitingFor == Tool) && c.currentQuestion.Some?
  }

  // ------------------------------------------------------------------ the transition relation

  predicate Honest(usage: Option<Usage>, spent: Usage) {
    usage.Some? ==> usage.value == spent
  }

  /** Two counts, neither of them negative. */
  predicate Plausible(report: Report) {
    report.Report? && report.prompt >= 0 && report.completion >= 0
  }

  /** What an Operation plausibly says it spent, it spent; of any other report nothing is known. */
  predicate HonestReport(report: Report, spent: Usage) {
    Plausible(report) ==> spent.prompt == report.prompt && spent.completion == report.completion
  }

  predicate Enabled(cfg: Config, s: State, step: Step) {
    var c := s.store.conversation;
    match step
    case Begin => s.turn.None? && (c.status == Running || c.status == Waiting) && !c.leased
    case Guard(_, _) => s.turn.Some? && s.turn.value.phase.Guards?
    case Escalate => s.turn.Some? && s.turn.value.phase.Escalating?
    case Commit => s.turn.Some? && s.turn.value.phase.Committing?
    case Reconcile(_) => s.turn.Some? && s.turn.value.phase.Reconciling?
    case Attempt(reply) =>
      && s.turn.Some? && s.turn.value.phase.Prompting? && (s.turn.value.phase.attempt <= cfg.maxAttempts)
      && (reply.Response? ==> Honest(reply.usage, reply.spent))
    case GiveUp => s.turn.Some? && s.turn.value.phase.Prompting? && (s.turn.value.phase.attempt > cfg.maxAttempts)
    case Intend => s.turn.Some? && s.turn.value.phase.Calling? && s.turn.value.calls != []
    case EndCalls => s.turn.Some? && s.turn.value.phase.Calling? && s.turn.value.calls == []
    case Gate(_) => s.turn.Some? && s.turn.value.phase.Gating?
    case Ask => s.turn.Some? && s.turn.value.phase.Asking?
    case Execute(_, _, report, spent) =>
      s.turn.Some? && s.turn.value.phase.Executing? && HonestReport(report, spent)
    case Record =>
      && s.turn.Some? && s.turn.value.phase.Executed?
      && s.turn.value.costEntry.Some? && s.turn.value.costEntry.value < |s.turn.value.conversation.entries|
    case Crash => s.turn.Some?
    case LeaseExpires => s.turn.None? && c.leased
    case SetAnswer(q, _, _) => q < |s.store.questions| && s.store.questions[q].live
    case Delete(q) => q < |s.store.questions| && s.store.questions[q].live
    case WatchAnswered(_) =>
      && s.turn.None? && AwaitsQuestion(c)
      && LoadQuestion(s.store.questions, c.currentQuestion).Some?
      && IsAnswered(LoadQuestion(s.store.questions, c.currentQuestion).value)
    case WatchGone(read) =>
      && s.turn.None? && AwaitsQuestion(c)
      && LoadQuestion(Readable(s.store.questions, read), c.currentQuestion).None?
    case WatchWoken => s.turn.None? && c.status == Waiting && c.wakes
    case Deliver(_) => s.turn.None? && (c.status == Running || c.status == Waiting)
  }

  function Apply(cfg: Config, s: State, step: Step): State
    requires Enabled(cfg, s, step)
  {
    var c := s.store.conversation;
    match step
    case Begin => BeginTurn(s)
    case Guard(assistant, granted) => s.(turn := Some(GuardTurn(s.turn.value, assistant, granted)))
    case Escalate => EscalateStep(cfg, s)
    case Commit => CommitStep(s)
    case Reconcile(verdict) => ReconcileStep(s, verdict)
    case Attempt(reply) => AttemptStep(s, reply)
    case GiveUp => s.(turn := Some(ToEscalation(s.turn.value, s.turn.value.conversation)))
    case Intend => IntendStep(s)
    case EndCalls => EndCallsStep(s)
    case Gate(read) => s.(turn := Some(GateTurn(s.turn.value, Readable(s.store.questions, read))))
    case Ask => AskStep(s)
    case Execute(outcome, landed, report, spent) => ExecuteStep(s, outcome, landed, report, spent)
    case Record => RecordStep(s)
    case Crash => State(s.store.(lost := Plus(s.store.lost, InFlight(s.turn.value))), None)
    case LeaseExpires => s.(store := s.store.(conversation := c.(leased := false)))
    case SetAnswer(q, confirmed, spoken) =>
      var questions := s.store.questions[q := s.store.questions[q].(confirmed := confirmed, spoken := spoken)];
      s.(store := s.store.(questions := questions,
                           confirmed := s.store.confirmed + if confirmed == Some(true) then {q} else {}))
    case Delete(q) =>
      s.(store := s.store.(questions := s.store.questions[q := s.store.questions[q].(live := false)]))
    case WatchAnswered(text) =>
      Watched(s, c.(status := Running, waitingFor := Nobody, currentQuestion := None),
              PlainRow(Answer, text).(questionId := c.currentQuestion))
    case WatchGone(_) =>
      Watched(s, c.(status := Running, waitingFor := Nobody, currentQuestion := None), PlainRow(ErrorNote, "gone"))
    case WatchWoken =>
      Watched(s, c.(status := Running, waitingFor := Nobody, wakes := false), PlainRow(Timeout, "woken"))
    case Deliver(text) =>
      var woken := if c.status == Waiting && c.waitingFor == Assistant
                   then c.(status := Running, waitingFor := Nobody, wakes := false) else c;
      Watched(s, woken, PlainRow(Answer, text))
  }

  // ------------------------------------------------------------------ runs

  function Born(prompt: string, maxTurns: nat): State {
    var first := PlainRow(Prompt, prompt).(seqNo := 1);
    State(Store(Conversation(Running, Nobody, false, 0, Some(maxTurns), false, None, 0, [first]),
                [], [], false, {}, NoUsage, NoUsage, 0),
          None)
  }

  /** Every step was enabled where it was taken. */
  predicate Legal(cfg: Config, s: State, steps: seq<Step>)
    decreases |steps|, 0
  {
    steps == [] ||
    (var before := steps[..|steps| - 1];
     Legal(cfg, s, before) && Enabled(cfg, Run(cfg, s, before), steps[|steps| - 1]))
  }

  function Run(cfg: Config, s: State, steps: seq<Step>): State
    requires Legal(cfg, s, steps)
    decreases |steps|, 1
  {
    if steps == [] then s
    else Apply(cfg, Run(cfg, s, steps[..|steps| - 1]), steps[|steps| - 1])
  }
}
