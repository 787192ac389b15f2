/** What the rows say was spent never exceeds what was truly spent, and the gap is accounted for. */
module Cost {
  import opened Wrappers
  import opened CanonicalJson
  import opened Conversations
  import opened Loop
  import opened IntentLog
  import Keys

  /** The tokens all rows carry together. */
  function Sum(es: seq<Entry>): Usage {
    if es == [] then NoUsage else Plus(Sum(es[..|es| - 1]), es[|es| - 1].usage)
  }

  predicate AtMost(a: Usage, b: Usage) {
    a.prompt <= b.prompt && a.completion <= b.completion
  }

  lemma PlusAdds()
    ensures forall a, b {:trigger Plus(a, b)} :: Plus(a, b) == Usage(a.prompt + b.prompt, a.completion + b.completion)
  {
  }

  lemma SumOfAppend(es: seq<Entry>, row: Entry)
    ensures Sum(Append(es, row)) == Plus(Sum(es), row.usage)
  {
  }

  lemma {:induction false} SumOfAddUsage(es: seq<Entry>, at: nat, usage: Usage)
    requires at < |es|
    ensures Sum(AddUsage(es, at, usage)) == Plus(Sum(es), usage)
  {
    var late, n := AddUsage(es, at, usage), |es| - 1;
    if at == n {
      assert late[..n] == es[..n];
    } else {
      assert late[..n] == AddUsage(es[..n], at, usage);
      SumOfAddUsage(es[..n], at, usage);
    }
  }

  // ------------------------------------------------------------------ conservation

  /** Every token spent is on a stored row, in the memory of the Turn at work, or lost for good. */
  ghost predicate Balanced(s: State) {
    var stored := Sum(s.store.conversation.entries);
    match s.turn
    case None => s.store.spend == Plus(stored, s.store.lost)
    case Some(t) =>
      && s.store.spend == Plus(Plus(stored, s.store.lost), InFlight(t))
      && Sum(t.conversation.entries) == Plus(stored, t.unsaved)
  }

  /** What this step spends, or drops from memory, without any row ever carrying it. */
  function Unbilled(s: State, step: Step): Usage {
    match step
    case Crash => if s.turn.Some? then InFlight(s.turn.value) else NoUsage
    case Attempt(reply) =>
      if reply.Response? && !reply.finish.Abnormal? && reply.usage.Some? then NoUsage else reply.spent
    case EndCalls => if s.turn.Some? && s.turn.value.costEntry.None? then s.turn.value.bill else NoUsage
    case Record =>
      if s.turn.None? || !s.turn.value.phase.Executed? then NoUsage
      else
        var p := s.turn.value.phase;
        if p.outcome.Value? && Plausible(p.report) then NoUsage else p.spent
    case _ => NoUsage
  }

  /** The call in hand always has a row to carry its Turn's cost, and an Operation's report is honest. */
  ghost predicate Carried(s: State) {
    s.turn.Some? ==>
      var t := s.turn.value;
      && (t.costEntry.Some? ==> t.costEntry.value < |t.conversation.entries|)
      && (t.phase.Gating? || t.phase.Asking? || t.phase.Executing? || t.phase.Executed? ==> t.costEntry.Some?)
      && (t.phase.Executed? ==> HonestReport(t.phase.report, t.phase.spent))
  }

  lemma AppendIsLonger()
    ensures forall es, row {:trigger Append(es, row)} :: |Append(es, row)| == |es| + 1
  {
  }

  lemma TurnCarries(cfg: Config, s: State, step: Step)
    requires Carried(s) && Enabled(cfg, s, step)
    requires step.Guard? || step.Reconcile? || step.GiveUp?
    ensures Carried(Apply(cfg, s, step))
  {
    hide Plus, Append, BuildMessages, UnresolvedIntent, FindByKey, Settlement, OperationUsage, TurnLimit,
      AttemptStep, IntendStep, GateTurn, AskStep, ExecuteStep, RecordStep, ArgsHash;
    AppendIsLonger();
  }

  lemma AttemptCarries(s: State, reply: ModelReply)
    requires Carried(s) && s.turn.Some? && s.turn.value.phase.Prompting?
    ensures Carried(AttemptStep(s, reply))
  {
    hide Plus, Append, UnresolvedIntent, OperationUsage;
    AppendIsLonger();
  }

  lemma IntendCarries(cfg: Config, s: State, step: Step)
    requires Carried(s) && Enabled(cfg, s, step) && step.Intend?
    ensures Carried(Apply(cfg, s, step))
  {
    hide Plus, Append, UnresolvedIntent, NextSeq, OperationUsage,
      GuardTurn, ReconcileStep, AttemptStep, GateTurn, AskStep, ExecuteStep, RecordStep, ArgsHash;
    AppendIsLonger();
  }

  lemma CallCarries(cfg: Config, s: State, step: Step)
    requires Carried(s) && Enabled(cfg, s, step) && (step.Gate? || step.Execute? || step.Record?)
    ensures Carried(Apply(cfg, s, step))
  {
    hide Plus, Append, UnresolvedIntent, FindApproval, OperationUsage, Raise, ArgsHash,
      GuardTurn, ReconcileStep, AttemptStep, IntendStep, AskStep;
    AppendIsLonger();
  }

  lemma StepCarries(cfg: Config, s: State, step: Step)
    requires Carried(s) && Enabled(cfg, s, step)
    ensures Carried(Apply(cfg, s, step))
  {
    hide Plus, Append, GuardTurn, ReconcileStep, AttemptStep, IntendStep, GateTurn, ExecuteStep, RecordStep,
      ToEscalation, ArgsHash, Raise, RequestCount, OperationUsage;
    match step
    case Guard(_, _) => TurnCarries(cfg, s, step);
    case Reconcile(_) => TurnCarries(cfg, s, step);
    case Attempt(reply) => AttemptCarries(s, reply);
    case GiveUp => TurnCarries(cfg, s, step);
    case Intend => IntendCarries(cfg, s, step);
    case Gate(_) => CallCarries(cfg, s, step);
    case Execute(_, _, _, _) => CallCarries(cfg, s, step);
    case Record => CallCarries(cfg, s, step);
    case _ => AppendIsLonger();
  }

  lemma IntendBalances(s: State)
    requires Balanced(s) && s.turn.Some? && s.turn.value.phase.Calling? && s.turn.value.calls != []
    ensures Balanced(IntendStep(s))
  {
    hide Plus, Append, Sum, NextSeq, UnresolvedIntent;
    PlusAdds();
    var t := s.turn.value;
    var es, first := t.conversation.entries, t.costEntry.None?;
    SumOfAppend(es, IntentRow(t.calls[0], if first then t.narration else "", NextSeq(es),
                              if first then t.bill else NoUsage));
  }

  lemma GateBalances(s: State, read: bool)
    requires Balanced(s) && Carried(s) && s.turn.Some? && s.turn.value.phase.Gating?
    ensures Balanced(s.(turn := Some(GateTurn(s.turn.value, Readable(s.store.questions, read)))))
  {
    hide Plus, Append, Sum, FindApproval, UnresolvedIntent;
    PlusAdds();
    var t := s.turn.value;
    SumOfAppend(t.conversation.entries, ResultRow(t.phase.call.operation, Some(t.phase.key), None));
  }

  lemma AskBalances(s: State)
    requires Balanced(s) && s.turn.Some? && s.turn.value.phase.Asking?
    ensures Balanced(AskStep(s))
  {
    hide Plus, Append, Sum, RequestCount, Raise, UnresolvedIntent, ArgsHash, Canonical;
    PlusAdds();
    var t := s.turn.value;
    var es, call := t.conversation.entries, t.phase.call;
    var hash := ArgsHash(call.args);
    var id := Raise(s.store.questions, Keys.ApprovalKey(hash, RequestCount(es, call.operation, hash) + 1)).1;
    var row := RequestRow(call.operation, hash, id);
    SumOfAppend(es, row);
    SumOfAppend(Append(es, row), ResultRow(call.operation, Some(t.phase.key), None));
  }

  lemma RecordBalances(s: State)
    requires Balanced(s) && Carried(s) && s.turn.Some? && s.turn.value.phase.Executed?
    ensures Balanced(RecordStep(s))
  {
    hide Plus, Append, Sum, AddUsage, UnresolvedIntent;
    PlusAdds();
    var t := s.turn.value;
    var es, p := t.conversation.entries, t.phase;
    var stamp := if p.yes.Some? && p.outcome.Value? then Some(ArgsHash(p.call.args)) else None;
    var row := ResultRow(p.call.operation, Some(p.key), stamp);
    SumOfAppend(es, row);
    if OperationUsage(p.report).Some? {
      AppendIsLonger();
      SumOfAddUsage(Append(es, row), t.costEntry.value, OperationUsage(p.report).value);
    }
  }

  lemma GuardBalances(s: State, assistant: Option<AssistantInfo>, granted: map<string, Grant>)
    requires Balanced(s) && s.turn.Some? && s.turn.value.phase.Guards?
    ensures Balanced(s.(turn := Some(GuardTurn(s.turn.value, assistant, granted))))
  {
    hide Plus, Append, BuildMessages, UnresolvedIntent, Sum, TurnLimit;
    PlusAdds();
    var es := s.turn.value.conversation.entries;
    SumOfAppend(es, PlainRow(ErrorNote, "full"));
    SumOfAppend(es, PlainRow(ErrorNote, "stuck"));
  }

  lemma GiveUpBalances(s: State)
    requires Balanced(s) && s.turn.Some? && s.turn.value.phase.Prompting?
    ensures Balanced(s.(turn := Some(ToEscalation(s.turn.value, s.turn.value.conversation))))
  {
    hide Plus, Append, UnresolvedIntent, Sum;
    PlusAdds();
    SumOfAppend(s.turn.value.conversation.entries, PlainRow(ErrorNote, "stuck"));
  }

  lemma ReconcileBalances(s: State, verdict: Option<Outcome>)
    requires Balanced(s) && s.turn.Some? && s.turn.value.phase.Reconciling?
    ensures Balanced(ReconcileStep(s, verdict))
  {
    hide Plus, Append, BuildMessages, UnresolvedIntent, FindByKey, Sum, Settlement, SettledStamp;
    PlusAdds();
    var t := s.turn.value;
    var es, intent := t.conversation.entries, t.phase.intent;
    var row := ResultRow(intent.toolName, intent.key,
                         SettledStamp(t.granted, intent, Settlement(t.granted, intent, verdict)));
    SumOfAppend(es, row);
    SumOfAppend(Append(es, row), PlainRow(ErrorNote, "stuck"));
  }

  lemma FailureBalances(s: State, reply: ModelReply)
    requires Balanced(s) && s.turn.Some? && s.turn.value.phase.Prompting?
    requires reply.Response? ==> reply.finish.Abnormal?
    ensures Balanced(AttemptStep(s, reply))
  {
    hide Plus, Append, UnresolvedIntent, Sum;
    PlusAdds();
    SumOfAppend(s.turn.value.conversation.entries, PlainRow(ErrorNote, "transient"));
    SumOfAppend(s.turn.value.conversation.entries, PlainRow(ErrorNote, "stuck"));
  }

  lemma ResponseBalances(s: State, reply: ModelReply)
    requires Balanced(s) && s.turn.Some? && s.turn.value.phase.Prompting?
    requires reply.Response? && !reply.finish.Abnormal? && Honest(reply.usage, reply.spent)
    ensures Balanced(AttemptStep(s, reply))
  {
    hide Plus, Append, UnresolvedIntent, Sum, ToEscalation;
    PlusAdds();
    SumOfAppend(s.turn.value.conversation.entries,
                PlainRow(Reply, reply.text).(usage := if reply.usage.Some? then reply.usage.value else NoUsage));
  }

  lemma StepBalances(cfg: Config, s: State, step: Step)
    requires Balanced(s) && Carried(s) && Enabled(cfg, s, step)
    ensures Balanced(Apply(cfg, s, step))
  {
    hide Balanced, Carried, BeginTurn, GuardTurn, EscalateStep, CommitStep, ReconcileStep, AttemptStep, IntendStep,
      EndCallsStep, GateTurn, AskStep, ExecuteStep, RecordStep, Watched, ToEscalation;
    match step
    case Guard(assistant, granted) => GuardBalances(s, assistant, granted);
    case Reconcile(verdict) => ReconcileBalances(s, verdict);
    case Attempt(reply) =>
      if reply.Response? && !reply.finish.Abnormal? { ResponseBalances(s, reply); } else { FailureBalances(s, reply); }
    case GiveUp => GiveUpBalances(s);
    case Intend => IntendBalances(s);
    case Gate(read) => GateBalances(s, read);
    case Ask => AskBalances(s);
    case Record => RecordBalances(s);
    case Escalate => EscalateBalances(cfg, s);
    case Commit => CommitBalances(s);
    case EndCalls => EndCallsBalances(s);
    case Execute(outcome, landed, report, spent) => ExecuteBalances(s, outcome, landed, report, spent);
    case _ => EnvironmentBalances(cfg, s, step);
  }

  lemma EscalateBalances(cfg: Config, s: State)
    requires Balanced(s) && s.turn.Some? && s.turn.value.phase.Escalating?
    ensures Balanced(EscalateStep(cfg, s))
  {
    hide Plus, Sum, Raise;
    PlusAdds();
  }

  lemma CommitBalances(s: State)
    requires Balanced(s) && s.turn.Some? && s.turn.value.phase.Committing?
    ensures Balanced(CommitStep(s))
  {
    hide Plus, Sum;
    PlusAdds();
  }

  lemma EndCallsBalances(s: State)
    requires Balanced(s) && s.turn.Some? && s.turn.value.phase.Calling?
    ensures Balanced(EndCallsStep(s))
  {
    hide Plus, Sum;
    PlusAdds();
  }

  lemma ExecuteBalances(s: State, outcome: Outcome, landed: bool, report: Report, spent: Usage)
    requires Balanced(s) && s.turn.Some? && s.turn.value.phase.Executing?
    ensures Balanced(ExecuteStep(s, outcome, landed, report, spent))
  {
    hide Plus, Sum, Raise;
    PlusAdds();
  }

  lemma EnvironmentBalances(cfg: Config, s: State, step: Step)
    requires Balanced(s) && Enabled(cfg, s, step)
    requires step.Begin? || step.Crash? || step.LeaseExpires? || step.SetAnswer? || step.Delete?
          || step.WatchAnswered? || step.WatchGone? || step.WatchWoken? || step.Deliver?
    ensures Balanced(Apply(cfg, s, step))
  {
    hide Plus, Append, UnresolvedIntent, Sum;
    PlusAdds();
    var c := s.store.conversation;
    match step
    case WatchAnswered(text) => SumOfAppend(c.entries, PlainRow(Answer, text).(questionId := c.currentQuestion));
    case WatchGone(_) => SumOfAppend(c.entries, PlainRow(ErrorNote, "gone"));
    case WatchWoken => SumOfAppend(c.entries, PlainRow(Timeout, "woken"));
    case Deliver(text) => SumOfAppend(c.entries, PlainRow(Answer, text));
    case _ =>
  }

  lemma StepLoses(cfg: Config, s: State, step: Step)
    requires Enabled(cfg, s, step)
    ensures Apply(cfg, s, step).store.lost == Plus(s.store.lost, Unbilled(s, step))
  {
    hide Plus, Append, BuildMessages, UnresolvedIntent, FindApproval, RequestCount, Raise, Settlement, AddUsage, MaxSeq,
      TurnLimit, FindByKey;
    PlusAdds();
  }

  lemma BalanceIsAFloor(s: State)
    requires Balanced(s)
    ensures AtMost(Sum(s.store.conversation.entries), s.store.spend)
    ensures s.turn.Some? ==> AtMost(Sum(s.turn.value.conversation.entries), s.store.spend)
    ensures s.turn.None? ==> (Sum(s.store.conversation.entries) == s.store.spend <==> s.store.lost == NoUsage)
  {
    hide Plus, Sum, Unrecorded;
    PlusAdds();
  }

  // ------------------------------------------------------------------ over a whole run

  /** Some step of this run spent or dropped tokens that no row carries. */
  ghost predicate Leaks(cfg: Config, s: State, steps: seq<Step>)
    requires Legal(cfg, s, steps)
  {
    steps != [] &&
    (var before := steps[..|steps| - 1];
     Leaks(cfg, s, before) || Unbilled(Run(cfg, s, before), steps[|steps| - 1]) != NoUsage)
  }

  lemma BornBalances(prompt: string, maxTurns: nat)
    ensures var s := Born(prompt, maxTurns); Balanced(s) && Carried(s) && s.store.lost == NoUsage
  {
    hide Plus;
    PlusAdds();
    assert Sum(Born(prompt, maxTurns).store.conversation.entries[..0]) == NoUsage;
  }

  lemma {:induction false} RunBalances(cfg: Config, prompt: string, maxTurns: nat, steps: seq<Step>)
    requires Legal(cfg, Born(prompt, maxTurns), steps)
    ensures var s := Run(cfg, Born(prompt, maxTurns), steps);
            Balanced(s) && Carried(s) && (s.store.lost != NoUsage <==> Leaks(cfg, Born(prompt, maxTurns), steps))
  {
    hide Plus, Unbilled, Balanced, Carried, Apply, Enabled, Born;
    PlusAdds();
    if steps == [] {
      BornBalances(prompt, maxTurns);
    } else {
      var before := steps[..|steps| - 1];
      RunBalances(cfg, prompt, maxTurns, before);
      StepBalances(cfg, Run(cfg, Born(prompt, maxTurns), before), steps[|steps| - 1]);
      StepLoses(cfg, Run(cfg, Born(prompt, maxTurns), before), steps[|steps| - 1]);
      StepCarries(cfg, Run(cfg, Born(prompt, maxTurns), before), steps[|steps| - 1]);
    }
  }

  /** In every reachable state the rows carry at most what was spent; between advances they carry
      exactly that, unless some attempt failed or went unreported, a crash dropped tokens in memory,
      a tool Turn made no call, or an Operation that spent tokens returned no value. */
  lemma CostIsAFloor(cfg: Config, prompt: string, maxTurns: nat, steps: seq<Step>)
    requires Legal(cfg, Born(prompt, maxTurns), steps)
    ensures var s := Run(cfg, Born(prompt, maxTurns), steps);
            && AtMost(Sum(s.store.conversation.entries), s.store.spend)
            && (s.turn.Some? ==> AtMost(Sum(s.turn.value.conversation.entries), s.store.spend))
            && (s.turn.None? ==>
                  (Sum(s.store.conversation.entries) == s.store.spend
                   <==> !Leaks(cfg, Born(prompt, maxTurns), steps)))
  {
    hide Plus, Sum, Run, Legal, Leaks, Born, Apply, Enabled, Carried, Balanced;
    RunBalances(cfg, prompt, maxTurns, steps);
    BalanceIsAFloor(Run(cfg, Born(prompt, maxTurns), steps));
  }
}
