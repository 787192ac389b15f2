/** A run ends within a bound. One number never grows, crashes included, and every completed advance
    that changes the store makes it smaller or ends the Conversation. */
module Progress {
  import opened Wrappers
  import opened CanonicalJson
  import opened Conversations
  import opened Loop
  import opened IntentLog
  import opened ExactlyOnce
  import ApprovalAccounts
  import Keys

  ghost function TurnsLeft(c: Conversation): int {
    (if c.maxTurns.Some? then c.maxTurns.value else 0) - c.turnCount
  }

  /** Turns left, six for every escalation left (its grant of five, and itself), and one for an
      unanswered intent. */
  ghost function Fuel(cfg: Config, c: Conversation): int {
    TurnsLeft(c) + 6 * (cfg.maxEscalations + 1 - c.escalations) + if OpenKey(c.entries).Some? then 1 else 0
  }

  ghost function Budget(cfg: Config, maxTurns: nat): nat {
    maxTurns + 6 * (cfg.maxEscalations + 1)
  }

  predicate Finished(c: Conversation) {
    c.status == Done || c.status == Failed
  }

  ghost predicate WithinLimits(cfg: Config, c: Conversation, initial: nat) {
    && c.maxTurns.Some? && c.turnCount <= c.maxTurns.value <= initial + 5 * c.escalations
    && c.escalations <= cfg.maxEscalations + 1
  }

  /** What is left to spend while an advance is at work. */
  ghost predicate TurnWithin(cfg: Config, t: Turn, completed: nat, initial: nat, budget: int) {
    var c := t.conversation;
    && WithinLimits(cfg, c, initial)
    && (t.phase.Guards? || Working(t.phase) ==> c.escalations <= cfg.maxEscalations && !Finished(c))
    && (t.phase.Guards? || InCall(t.phase) || t.phase.Prompting? || t.phase.Reconciling? ==>
          completed + Fuel(cfg, c) <= budget)
    && (t.phase.Prompting? || t.phase.Reconciling? ==> TurnsLeft(c) >= 1)
    && (t.phase.Calling? || t.phase.Escalating? ==> completed + Fuel(cfg, c) + 1 <= budget)
    && (t.phase.Committing? ==>
          && (c.escalations == cfg.maxEscalations + 1 ==> Finished(c))
          && completed + Fuel(cfg, c) + (if t.phase.counts then 1 else 0)
             <= budget + if Finished(c) then 1 else 0)
  }

  ghost predicate Working(p: Phase) {
    p.Reconciling? || p.Prompting? || p.Calling? || InCall(p)
  }

  ghost predicate InCall(p: Phase) {
    p.Gating? || p.Asking? || p.Executing? || p.Executed?
  }

  ghost predicate StoreWithin(cfg: Config, store: Store, initial: nat, budget: int) {
    var c := store.conversation;
    && WithinLimits(cfg, c, initial)
    && (c.escalations == cfg.maxEscalations + 1 ==> Finished(c))
    && store.completed + Fuel(cfg, c) <= budget + if Finished(c) then 1 else 0
  }

  /** A write half-way through an advance never gives fuel back. */
  ghost predicate Within(cfg: Config, s: State, initial: nat, budget: int) {
    && StoreWithin(cfg, s.store, initial, budget)
    && (s.turn.Some? ==>
          !Finished(s.store.conversation) && TurnWithin(cfg, s.turn.value, s.store.completed, initial, budget))
  }

  // ------------------------------------------------------------------ fuel and rows

  lemma PlainFuel(cfg: Config, c: Conversation, row: Entry)
    requires WellLogged(c.entries) && Unkeyed(row)
    ensures Fuel(cfg, Appended(c, row)) == Fuel(cfg, c)
  {
    UnkeyedKeeps(c.entries, row);
  }

  lemma ResultFuel(cfg: Config, c: Conversation, row: Entry)
    requires WellLogged(c.entries) && OpenKey(c.entries).Some?
    requires row.kind == ToolResult && row.key == OpenKey(c.entries) && Matches(row, UnresolvedIntent(c.entries).value)
    ensures WellLogged(Append(c.entries, row)) && OpenKey(Append(c.entries, row)) == None
    ensures Fuel(cfg, Appended(c, row)) == Fuel(cfg, c) - 1
  {
    ResultKeeps(c.entries, row);
  }

  lemma IntentFuel(cfg: Config, c: Conversation, row: Entry)
    requires WellLogged(c.entries) && OpenKey(c.entries) == None
    requires row.kind == ToolIntent && row.key == Some(NextSeq(c.entries))
    ensures Fuel(cfg, Appended(c, row)) == Fuel(cfg, c) + 1
  {
    IntentKeeps(c.entries, row);
  }

  lemma EscalationFuel(cfg: Config, c: Conversation)
    requires WellLogged(c.entries)
    ensures Fuel(cfg, Escalated(c)) == Fuel(cfg, c) - 6
  {
    PlainFuel(cfg, c.(escalations := c.escalations + 1), PlainRow(ErrorNote, "stuck"));
  }

  /** Going to the escalation tier costs six, whatever limit it first grants. */
  lemma EscalationWithin(cfg: Config, t: Turn, c: Conversation, completed: nat, initial: nat, budget: int)
    requires WellLogged(c.entries) && c.maxTurns.Some? && c.turnCount <= c.maxTurns.value
    requires c.maxTurns.value <= initial + 5 * (c.escalations + 1) && c.escalations <= cfg.maxEscalations
    requires completed + Fuel(cfg, c) <= budget + 5
    ensures TurnWithin(cfg, ToEscalation(t, c), completed, initial, budget)
  {
    hide WellLogged, OpenKey, Append;
    EscalationFuel(cfg, c);
  }

  // ------------------------------------------------------------------ the steps

  lemma FullWithin(cfg: Config, t: Turn, completed: nat, initial: nat, budget: int)
    requires WellLogged(t.conversation.entries) && TurnWithin(cfg, t, completed, initial, budget) && t.phase.Guards?
    ensures TurnWithin(cfg, t.(conversation := EndedFull(t.conversation), phase := Committing(true)),
                       completed, initial, budget)
  {
    hide WellLogged, OpenKey, Append;
    PlainFuel(cfg, t.conversation, PlainRow(ErrorNote, "full"));
  }

  /** Past every guard, with turns left: on to recovery or to the model. */
  lemma OnwardWithin(cfg: Config, t: Turn, completed: nat, initial: nat, budget: int,
                     phase: Phase, granted: map<string, Grant>)
    requires TurnWithin(cfg, t, completed, initial, budget) && t.phase.Guards? && TurnsLeft(t.conversation) >= 1
    requires phase.Reconciling? || phase.Prompting?
    ensures TurnWithin(cfg, t.(conversation := t.conversation.(status := Running, waitingFor := Nobody),
                               phase := phase, granted := granted), completed, initial, budget)
  {
    hide OpenKey;
  }

  lemma IdleWithin(cfg: Config, t: Turn, completed: nat, initial: nat, budget: int)
    requires TurnWithin(cfg, t, completed, initial, budget) && t.phase.Guards?
    ensures TurnWithin(cfg, t.(conversation := t.conversation.(leased := false), phase := Committing(false)),
                       completed, initial, budget)
  {
    hide OpenKey;
  }

  lemma GrantWithin(cfg: Config, t: Turn, limit: nat, completed: nat, initial: nat, budget: int)
    requires WellLogged(t.conversation.entries) && TurnWithin(cfg, t, completed, initial, budget) && t.phase.Guards?
    requires t.conversation.maxTurns == Some(limit)
    ensures TurnWithin(cfg, ToEscalation(t, t.conversation), completed, initial, budget)
    ensures TurnWithin(cfg, ToEscalation(t, t.conversation.(maxTurns := Some(limit + TURN_GRANT_ON_ESCALATION))),
                       completed, initial, budget)
  {
    hide WellLogged, OpenKey, ToEscalation;
    EscalationWithin(cfg, t, t.conversation, completed, initial, budget);
    var more := t.conversation.(maxTurns := Some(limit + TURN_GRANT_ON_ESCALATION));
    EscalationWithin(cfg, t, more, completed, initial, budget);
  }

  lemma GuardedWithin(cfg: Config, t: Turn, assistant: Option<AssistantInfo>, granted: map<string, Grant>,
                      completed: nat, initial: nat, budget: int)
    requires WellLogged(t.conversation.entries) && TurnWithin(cfg, t, completed, initial, budget) && t.phase.Guards?
    ensures TurnWithin(cfg, GuardTurn(t, assistant, granted), completed, initial, budget)
  {
    hide WellLogged, BuildMessages, UnresolvedIntent, ToEscalation, EndedFull, IsFull, TurnWithin;
    var c := t.conversation;
    LimitsKnown(cfg, t, completed, initial, budget);
    FullWithin(cfg, t, completed, initial, budget);
    GrantWithin(cfg, t, c.maxTurns.value, completed, initial, budget);
    IdleWithin(cfg, t, completed, initial, budget);
    if TurnsLeft(c) >= 1 {
      OnwardWithin(cfg, t, completed, initial, budget, Prompting(1, BuildMessages(c.entries)), granted);
      if UnresolvedIntent(c.entries).Some? {
        OnwardWithin(cfg, t, completed, initial, budget, Reconciling(UnresolvedIntent(c.entries).value), granted);
      }
    }
    OverlayIsHistory(cfg, t.(conversation := EndedFull(c), phase := Committing(true)), completed, initial, budget);
  }

  lemma LimitsKnown(cfg: Config, t: Turn, completed: nat, initial: nat, budget: int)
    requires TurnWithin(cfg, t, completed, initial, budget)
    ensures t.conversation.maxTurns.Some?
  {
  }

  lemma OverlayIsHistory(cfg: Config, t: Turn, completed: nat, initial: nat, budget: int)
    ensures forall overlaid :: TurnWithin(cfg, t.(overlaid := overlaid), completed, initial, budget) <==>
                                 TurnWithin(cfg, t, completed, initial, budget)
  {
  }

  lemma GuardWithin(cfg: Config, s: State, step: Step, initial: nat, budget: int)
    requires Good(s) && Within(cfg, s, initial, budget) && Enabled(cfg, s, step) && step.Guard?
    ensures Within(cfg, Apply(cfg, s, step), initial, budget)
  {
    hide WellLogged, GuardTurn, TurnWithin;
    GuardedWithin(cfg, s.turn.value, step.assistant, step.granted, s.store.completed, initial, budget);
  }

  lemma EscalateWithin(cfg: Config, s: State, step: Step, initial: nat, budget: int)
    requires Good(s) && Within(cfg, s, initial, budget) && Enabled(cfg, s, step) && step.Escalate?
    ensures Within(cfg, Apply(cfg, s, step), initial, budget)
  {
    hide WellLogged, OpenKey, Append, BuildMessages, UnresolvedIntent, Grown, GoodStore, FindByKey;
  }

  lemma ReconcileWithin(cfg: Config, s: State, step: Step, initial: nat, budget: int)
    requires Good(s) && Within(cfg, s, initial, budget) && Enabled(cfg, s, step) && step.Reconcile?
    ensures Within(cfg, Apply(cfg, s, step), initial, budget)
  {
    hide WellLogged, OpenKey, Append, BuildMessages, UnresolvedIntent, Grown, GoodStore, FindByKey;
    var t := s.turn.value;
    var intent := t.phase.intent;
    OpenKeyReads(t.conversation.entries);
    var row := ResultRow(intent.toolName, intent.key,
                         SettledStamp(t.granted, intent, Settlement(t.granted, intent, step.verdict)));
    ResultFuel(cfg, t.conversation, row);
    EscalationFuel(cfg, Appended(t.conversation, row));
  }

  lemma AttemptWithin(cfg: Config, s: State, step: Step, initial: nat, budget: int)
    requires Good(s) && Within(cfg, s, initial, budget) && Enabled(cfg, s, step)
    requires step.GiveUp? || (step.Attempt? && !step.reply.Response?)
    ensures Within(cfg, Apply(cfg, s, step), initial, budget)
  {
    hide WellLogged, OpenKey, Append, BuildMessages, UnresolvedIntent, Grown, GoodStore, ToEscalation, Fuel;
    var t := s.turn.value;
    EscalationWithin(cfg, t, t.conversation, s.store.completed, initial, budget);
    PlainFuel(cfg, t.conversation, PlainRow(ErrorNote, "transient"));
  }

  lemma ResponseWithin(cfg: Config, s: State, step: Step, initial: nat, budget: int)
    requires Good(s) && Within(cfg, s, initial, budget) && Enabled(cfg, s, step) && step.Attempt?
             && step.reply.Response?
    ensures Within(cfg, Apply(cfg, s, step), initial, budget)
  {
    hide WellLogged, OpenKey, Append, BuildMessages, UnresolvedIntent, Grown, GoodStore, ToEscalation, Fuel;
    var t := s.turn.value;
    var counted := t.conversation.(turnCount := t.conversation.turnCount + 1);
    CountedFuel(cfg, t.conversation);
    match step.reply.finish
    case Abnormal => EscalationWithin(cfg, t, counted, s.store.completed, initial, budget);
    case WantsTools =>
    case _ =>
      var bill := if step.reply.usage.Some? then step.reply.usage.value else NoUsage;
      PlainFuel(cfg, counted, PlainRow(Reply, step.reply.text).(usage := bill));
      DoneFuel(cfg, Appended(counted, PlainRow(Reply, step.reply.text).(usage := bill)));
  }

  lemma CountedFuel(cfg: Config, c: Conversation)
    ensures Fuel(cfg, c.(turnCount := c.turnCount + 1)) == Fuel(cfg, c) - 1
  {
  }

  lemma DoneFuel(cfg: Config, c: Conversation)
    ensures Fuel(cfg, c.(status := Done, leased := false)) == Fuel(cfg, c)
  {
  }

  lemma HeldWithin(cfg: Config, t: Turn, call: Call, key: nat, question: nat, completed: nat, initial: nat, budget: int)
    requires WellLogged(t.conversation.entries) && OpenKey(t.conversation.entries) == Some(key)
    requires Matches(ResultRow(call.operation, Some(key), None), UnresolvedIntent(t.conversation.entries).value)
    requires WithinLimits(cfg, t.conversation, initial) && t.conversation.escalations <= cfg.maxEscalations
    requires !Finished(t.conversation) && completed + Fuel(cfg, t.conversation) <= budget
    ensures TurnWithin(cfg, Held(t, call, key, question), completed, initial, budget)
    ensures TurnWithin(cfg, Refused(t, call, key), completed, initial, budget)
  {
    hide WellLogged, OpenKey, Append, UnresolvedIntent;
    ResultFuel(cfg, t.conversation, ResultRow(call.operation, Some(key), None));
  }

  lemma IntendWithin(cfg: Config, s: State, initial: nat, budget: int)
    requires Good(s) && Within(cfg, s, initial, budget) && s.turn.Some? && s.turn.value.phase.Calling?
    requires s.turn.value.calls != []
    ensures Within(cfg, IntendStep(s), initial, budget)
  {
    hide WellLogged, OpenKey, Append, UnresolvedIntent, Grown, GoodStore, NextSeq, Fuel;
    var t := s.turn.value;
    var es, first := t.conversation.entries, t.costEntry.None?;
    IntentFuel(cfg, t.conversation, IntentRow(t.calls[0], if first then t.narration else "", NextSeq(es),
                                              if first then t.bill else NoUsage));
  }

  lemma GateWithin(cfg: Config, s: State, read: bool, initial: nat, budget: int)
    requires Good(s) && Within(cfg, s, initial, budget) && s.turn.Some? && s.turn.value.phase.Gating?
    ensures Within(cfg, s.(turn := Some(GateTurn(s.turn.value, Readable(s.store.questions, read)))), initial, budget)
  {
    hide WellLogged, OpenKey, Append, UnresolvedIntent, Grown, GoodStore, NextSeq, Fuel, FindApproval, Held, Refused,
      Readable;
    var t := s.turn.value;
    IntentInHandIsUnresolved(t.conversation.entries, t.phase.key, t.phase.call);
    var held := HeldFor(t, Readable(s.store.questions, read));
    HeldWithin(cfg, t, t.phase.call, t.phase.key, held, s.store.completed, initial, budget);
  }

  lemma AskWithin(cfg: Config, s: State, initial: nat, budget: int)
    requires Good(s) && Within(cfg, s, initial, budget) && s.turn.Some? && s.turn.value.phase.Asking?
    ensures Within(cfg, AskStep(s), initial, budget)
  {
    hide WellLogged, OpenKey, Append, UnresolvedIntent, Grown, GoodStore, NextSeq, Fuel, RequestCount, FindByKey, Held,
      Refused;
    var t := s.turn.value;
    var call, c := t.phase.call, t.conversation;
    var hash := ArgsHash(call.args);
    var key := Keys.ApprovalKey(hash, RequestCount(c.entries, call.operation, hash) + 1);
    var id := Raise(s.store.questions, key).1;
    var row := RequestRow(call.operation, hash, id);
    IntentInHandIsUnresolved(c.entries, t.phase.key, call);
    PlainFuel(cfg, c, row);
    UnkeyedKeeps(c.entries, row);
    HeldWithin(cfg, t.(conversation := Appended(c, row)), call, t.phase.key, id, s.store.completed, initial, budget);
  }

  lemma CallWithin(cfg: Config, s: State, step: Step, initial: nat, budget: int)
    requires Good(s) && Within(cfg, s, initial, budget) && Enabled(cfg, s, step)
    requires step.Intend? || step.Gate? || step.Ask? || step.Record?
    ensures Within(cfg, Apply(cfg, s, step), initial, budget)
  {
    hide Good, Within, IntendStep, GateTurn, AskStep, RecordStep, Readable;
    match step
    case Intend => IntendWithin(cfg, s, initial, budget);
    case Gate(read) => GateWithin(cfg, s, read, initial, budget);
    case Ask => AskWithin(cfg, s, initial, budget);
    case Record => RecordWithin(cfg, s, initial, budget);
  }

  /** The question a gate would hold this call for, if it holds it. */
  ghost function HeldFor(t: Turn, questions: seq<Question>): nat
    requires t.phase.Gating?
  {
    match FindApproval(t.conversation.entries, t.phase.call.operation, ArgsHash(t.phase.call.args), questions)
    case Pending(q) => q
    case _ => 0
  }

  lemma RecordWithin(cfg: Config, s: State, initial: nat, budget: int)
    requires Good(s) && Within(cfg, s, initial, budget) && s.turn.Some? && s.turn.value.phase.Executed?
    requires s.turn.value.costEntry.Some? && s.turn.value.costEntry.value < |s.turn.value.conversation.entries|
    ensures Within(cfg, RecordStep(s), initial, budget)
  {
    hide WellLogged, OpenKey, Append, UnresolvedIntent, Grown, GoodStore, AddUsage;
    var t := s.turn.value;
    var p := t.phase;
    var es := t.conversation.entries;
    IntentInHandIsUnresolved(es, p.key, p.call);
    var row := ResultRow(p.call.operation, Some(p.key),
                         if p.yes.Some? && p.outcome.Value? then Some(ArgsHash(p.call.args)) else None);
    ResultFuel(cfg, t.conversation, row);
    var reported := OperationUsage(p.report);
    if reported.Some? {
      TokensKeepOpenKey(es, row, t.costEntry.value, reported.value);
    }
  }

  lemma TokensKeepOpenKey(es: seq<Entry>, row: Entry, at: nat, usage: Usage)
    requires WellLogged(Append(es, row)) && at < |es|
    ensures at < |Append(es, row)| && OpenKey(AddUsage(Append(es, row), at, usage)) == OpenKey(Append(es, row))
  {
    AddUsageGrows(Append(es, row), at, usage);
    UsageKeeps(Append(es, row), AddUsage(Append(es, row), at, usage));
  }

  lemma WatchWithin(cfg: Config, s: State, step: Step, initial: nat, budget: int)
    requires Good(s) && Within(cfg, s, initial, budget) && Enabled(cfg, s, step) && s.turn.None? && !step.Begin?
    ensures Within(cfg, Apply(cfg, s, step), initial, budget)
  {
    hide WellLogged, OpenKey, Append, BuildMessages, UnresolvedIntent, Grown;
    var c := s.store.conversation;
    match step
    case WatchAnswered(text) => PlainFuel(cfg, c, PlainRow(Answer, text).(questionId := c.currentQuestion));
    case WatchGone(_) => PlainFuel(cfg, c, PlainRow(ErrorNote, "gone"));
    case WatchWoken => PlainFuel(cfg, c, PlainRow(Timeout, "woken"));
    case Deliver(text) => PlainFuel(cfg, c, PlainRow(Answer, text));
    case _ =>
  }

  lemma StepWithin(cfg: Config, s: State, step: Step, initial: nat, budget: int)
    requires Good(s) && Within(cfg, s, initial, budget) && Enabled(cfg, s, step)
    ensures Within(cfg, Apply(cfg, s, step), initial, budget)
  {
    hide WellLogged, OpenKey, Append, BuildMessages, UnresolvedIntent, Grown, GoodStore, RequestCount, FindApproval,
      FindByKey, NextSeq, AddUsage, EndsInIntent;
    match step
    case Guard(_, _) => GuardWithin(cfg, s, step, initial, budget);
    case Escalate => EscalateWithin(cfg, s, step, initial, budget);
    case Reconcile(_) => ReconcileWithin(cfg, s, step, initial, budget);
    case Attempt(reply) =>
      if reply.Response? {
        ResponseWithin(cfg, s, step, initial, budget);
      } else {
        AttemptWithin(cfg, s, step, initial, budget);
      }
    case GiveUp => AttemptWithin(cfg, s, step, initial, budget);
    case Intend => CallWithin(cfg, s, step, initial, budget);
    case Gate(_) => CallWithin(cfg, s, step, initial, budget);
    case Ask => CallWithin(cfg, s, step, initial, budget);
    case Record => CallWithin(cfg, s, step, initial, budget);
    case _ => if s.turn.None? && !step.Begin? { WatchWithin(cfg, s, step, initial, budget); }
  }

  lemma {:induction false} RunWithin(cfg: Config, s: State, steps: seq<Step>, initial: nat, budget: int)
    requires Good(s) && Within(cfg, s, initial, budget) && Legal(cfg, s, steps)
    ensures Good(Run(cfg, s, steps)) && Within(cfg, Run(cfg, s, steps), initial, budget)
  {
    if steps != [] {
      var before := steps[..|steps| - 1];
      RunWithin(cfg, s, before, initial, budget);
      StepKeeps(cfg, Run(cfg, s, before), steps[|steps| - 1]);
      StepWithin(cfg, Run(cfg, s, before), steps[|steps| - 1], initial, budget);
    }
  }

  lemma BornWithin(cfg: Config, prompt: string, maxTurns: nat)
    ensures Good(Born(prompt, maxTurns)) && Within(cfg, Born(prompt, maxTurns), maxTurns, Budget(cfg, maxTurns))
  {
    assert OpenKey(Born(prompt, maxTurns).store.conversation.entries) == None;
  }

  // ------------------------------------------------------------------ escalation questions

  /** Every escalation question on record was raised for one of the permitted escalations, and no key
      has two live ones. */
  ghost predicate FewQuestions(cfg: Config, s: State) {
    && Permitted(s.store.questions, cfg.maxEscalations)
    && ApprovalAccounts.UniqueLive(s.store.questions)
    && (s.turn.Some? ==> HasCounted(s.turn.value))
  }

  predicate Permitted(questions: seq<Question>, most: nat) {
    forall i | 0 <= i < |questions| && questions[i].key.EscalationKey? :: 1 <= questions[i].key.count <= most
  }

  lemma RaisePermitted(questions: seq<Question>, key: Keys.Key, most: nat)
    requires Permitted(questions, most) && ApprovalAccounts.UniqueLive(questions)
    requires key.EscalationKey? ==> 1 <= key.count <= most
    ensures Permitted(Raise(questions, key).0, most) && ApprovalAccounts.UniqueLive(Raise(questions, key).0)
  {
    ApprovalAccounts.RaiseAdopts(questions, key);
  }

  /** An advance that goes to the escalation tier has just counted one. */
  predicate HasCounted(t: Turn) {
    t.phase.Escalating? ==> t.conversation.escalations >= 1
  }

  lemma GuardCounts(t: Turn, assistant: Option<AssistantInfo>, granted: map<string, Grant>)
    ensures HasCounted(t) ==> HasCounted(GuardTurn(t, assistant, granted))
  {
    hide Append, BuildMessages, UnresolvedIntent, TurnLimit;
  }

  lemma ReconcileCounts(s: State, verdict: Option<Outcome>)
    requires s.turn.Some? && s.turn.value.phase.Reconciling?
    ensures HasCounted(ReconcileStep(s, verdict).turn.value)
  {
    hide Append, BuildMessages, UnresolvedIntent, Settlement, SettledStamp, FindByKey;
  }

  lemma AttemptCounts(s: State, reply: ModelReply)
    requires s.turn.Some? && s.turn.value.phase.Prompting?
    ensures HasCounted(AttemptStep(s, reply).turn.value)
  {
    hide Append, UnresolvedIntent, Plus;
  }

  lemma EscalatingCounts(cfg: Config, s: State, step: Step)
    requires Enabled(cfg, s, step) && (s.turn.Some? ==> HasCounted(s.turn.value))
    ensures Apply(cfg, s, step).turn.Some? ==> HasCounted(Apply(cfg, s, step).turn.value)
  {
    hide Append, RequestCount, FindApproval, Raise, NextSeq, AddUsage, Plus, ArgsHash, OperationUsage, GuardTurn,
      ReconcileStep, AttemptStep, UnresolvedIntent;
    match step
    case Guard(assistant, granted) => GuardCounts(s.turn.value, assistant, granted);
    case Reconcile(verdict) => ReconcileCounts(s, verdict);
    case Attempt(reply) => AttemptCounts(s, reply);
    case _ =>
  }

  lemma StepAsksFewQuestions(cfg: Config, s: State, step: Step)
    requires FewQuestions(cfg, s) && Enabled(cfg, s, step)
    ensures FewQuestions(cfg, Apply(cfg, s, step))
  {
    hide Append, RequestCount, NextSeq, Raise, Permitted, ApprovalAccounts.UniqueLive, BeginTurn, GuardTurn, CommitStep,
      ReconcileStep, AttemptStep, IntendStep, EndCallsStep, GateTurn, RecordStep, ToEscalation, Watched, Plus, InFlight,
      ArgsHash;
    EscalatingCounts(cfg, s, step);
    QuestionsAsWritten(cfg, s, step);
    var questions, most := s.store.questions, cfg.maxEscalations;
    match step
    case Escalate =>
      var n := s.turn.value.conversation.escalations;
      if n <= most { RaisePermitted(questions, Keys.EscalationKey(n), most); }
    case Ask =>
      var t := s.turn.value;
      var hash := ArgsHash(t.phase.call.args);
      var attempt := RequestCount(t.conversation.entries, t.phase.call.operation, hash) + 1;
      RaisePermitted(questions, Keys.ApprovalKey(hash, attempt), most);
    case Execute(_, _, _, _) => RaisePermitted(questions, Keys.CallKey(s.turn.value.phase.key), most);
    case SetAnswer(q, confirmed, spoken) =>
      EditPermitted(questions, q, questions[q].(confirmed := confirmed, spoken := spoken), most);
    case Delete(q) => EditPermitted(questions, q, questions[q].(live := false), most);
    case _ =>
  }

  /** Only raising, answering and deleting touch the questions. */
  lemma QuestionsAsWritten(cfg: Config, s: State, step: Step)
    requires Enabled(cfg, s, step)
    ensures step.Escalate? || step.Ask? || step.Execute? || step.SetAnswer? || step.Delete?
            || Apply(cfg, s, step).store.questions == s.store.questions
  {
    hide Append, BuildMessages, UnresolvedIntent, RequestCount, FindApproval, Raise, NextSeq, AddUsage, Settlement,
      SettledStamp, TurnLimit, Plus, ArgsHash, OperationUsage, GateTurn, GuardTurn, ToEscalation;
  }

  lemma EditPermitted(questions: seq<Question>, q: nat, edited: Question, most: nat)
    requires Permitted(questions, most) && ApprovalAccounts.UniqueLive(questions) && q < |questions|
    requires edited.key == questions[q].key && (edited.live ==> questions[q].live)
    ensures Permitted(questions[q := edited], most) && ApprovalAccounts.UniqueLive(questions[q := edited])
  {
  }

  lemma {:induction false} RunAsksFewQuestions(cfg: Config, prompt: string, maxTurns: nat, steps: seq<Step>)
    requires Legal(cfg, Born(prompt, maxTurns), steps)
    ensures FewQuestions(cfg, Run(cfg, Born(prompt, maxTurns), steps))
  {
    if steps != [] {
      var before := steps[..|steps| - 1];
      RunAsksFewQuestions(cfg, prompt, maxTurns, before);
      StepAsksFewQuestions(cfg, Run(cfg, Born(prompt, maxTurns), before), steps[|steps| - 1]);
    }
  }

  /** The live questions that ask about one of the first so many escalations. */
  function LiveEscalations(questions: seq<Question>, most: nat): set<nat> {
    set q: nat | q < |questions| && questions[q].live && questions[q].key.EscalationKey?
                 && questions[q].key.count <= most
  }

  lemma {:induction false} OneEach(questions: seq<Question>, most: nat)
    requires ApprovalAccounts.UniqueLive(questions)
    requires forall i | 0 <= i < |questions| && questions[i].key.EscalationKey? :: 1 <= questions[i].key.count
    ensures |LiveEscalations(questions, most)| <= most
  {
    var all := LiveEscalations(questions, most);
    if most == 0 {
      assert all == {};
    } else {
      var fewer := LiveEscalations(questions, most - 1);
      OneEach(questions, most - 1);
      if q :| q in all && questions[q].key.count == most {
        assert all == fewer + {q};
      } else {
        assert all == fewer;
      }
    }
  }

  // ------------------------------------------------------------------ what a reader can rely on

  /** In every run, crashes included: at most maxTurns + 6 (maxEscalations + 1) + 1 advances ever
      complete; the turn count stays within its limit, and the limit within what escalations
      granted; an escalation question stands for one of the maxEscalations first escalations, no two
      live questions share a key, and so at most maxEscalations escalation questions are live. */
  lemma RunsAreBounded(cfg: Config, prompt: string, maxTurns: nat, steps: seq<Step>)
    requires Legal(cfg, Born(prompt, maxTurns), steps)
    ensures var store := Run(cfg, Born(prompt, maxTurns), steps).store;
            var c := store.conversation;
            && store.completed <= maxTurns + 6 * (cfg.maxEscalations + 1) + 1
            && c.maxTurns.Some? && c.turnCount <= c.maxTurns.value <= maxTurns + 5 * c.escalations
            && c.escalations <= cfg.maxEscalations + 1
            && (c.escalations > cfg.maxEscalations ==> Finished(c))
            && (forall q | q in store.questions && q.key.EscalationKey? :: 1 <= q.key.count <= cfg.maxEscalations)
            && ApprovalAccounts.UniqueLive(store.questions)
            && |LiveEscalations(store.questions, cfg.maxEscalations)| <= cfg.maxEscalations
  {
    BornWithin(cfg, prompt, maxTurns);
    RunWithin(cfg, Born(prompt, maxTurns), steps, maxTurns, Budget(cfg, maxTurns));
    RunAsksFewQuestions(cfg, prompt, maxTurns, steps);
    OneEach(Run(cfg, Born(prompt, maxTurns), steps).store.questions, cfg.maxEscalations);
    var c := Run(cfg, Born(prompt, maxTurns), steps).store.conversation;
    assert Fuel(cfg, c) >= 0;
  }

  /** Every store-changing advance that completes burns fuel: from any reachable state at rest, however
      the run goes on and wherever it crashes, completing n more of them takes n off what is left of
      turns, escalations and open intents, or n - 1 and the Conversation is over. */
  lemma AdvancesBurnFuel(cfg: Config, prompt: string, maxTurns: nat, steps: seq<Step>, more: seq<Step>)
    requires Legal(cfg, Born(prompt, maxTurns), steps)
    requires var s := Run(cfg, Born(prompt, maxTurns), steps);
             s.turn.None? && !Finished(s.store.conversation) && Legal(cfg, s, more)
    ensures var past := Run(cfg, Born(prompt, maxTurns), steps).store;
            var now := Run(cfg, Run(cfg, Born(prompt, maxTurns), steps), more).store;
            now.completed - past.completed
            <= Fuel(cfg, past.conversation) - Fuel(cfg, now.conversation) + if Finished(now.conversation) then 1 else 0
  {
    hide Apply, Enabled, Good, Fuel;
    var s := Run(cfg, Born(prompt, maxTurns), steps);
    BornWithin(cfg, prompt, maxTurns);
    RunWithin(cfg, Born(prompt, maxTurns), steps, maxTurns, Budget(cfg, maxTurns));
    RunWithin(cfg, s, more, maxTurns, s.store.completed + Fuel(cfg, s.store.conversation));
  }
}
