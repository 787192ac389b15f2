/** What the gate can promise depends on what surrounds it. A setting says what the Operations, the
    User and the catalogue may do; the promises are proved of every run of a setting that keeps to
    what they need. */
module Settings {
  import opened Wrappers
  import opened CanonicalJson
  import opened Conversations
  import opened Loop
  import opened IntentLog
  import opened ExactlyOnce
  import opened Approvals
  import opened ApprovalAccounts
  import opened Tallies
  import opened ApprovalCounts
  import Keys

  /** What may happen around the loop. Each is checked where it would happen, before it does. */
  datatype Setting = Setting(
    effectsHidden: bool,     // an effect may land behind an answer that is no value
    recoveryMisses: bool,    // recovery may not tell of a call that landed
    recoveryInvents: bool,   // recovery may tell of a call that never ran
    readOnlyAsks: bool,      // an Operation that only reads may need an approval
    approvalsChange: bool,   // the User may change which Operations need one
    argumentsShared: bool,   // two Operations may be put to the User with the same arguments
    questionsDeleted: bool,  // the User may delete an approval question
    questionsUnread: bool)   // the gate may fail to read a question

  /** Which Operations need an approval, and which one each set of arguments is put to the User for. */
  datatype Plan = Plan(needs: set<string>, owners: map<string, string>)

  predicate Agrees(plan: Plan, granted: map<string, Grant>) {
    forall op | op in granted :: granted[op].requiresApproval <==> op in plan.needs
  }

  predicate OnlyMutatingAsk(granted: map<string, Grant>) {
    forall op | op in granted && granted[op].requiresApproval :: granted[op].mutating
  }

  /** Recovery says a value of a call only if it ran. */
  ghost predicate TellsOfCallsRun(s: State, verdict: Option<Outcome>)
    requires s.turn.Some? && s.turn.value.phase.Reconciling?
  {
    verdict == Some(Value) ==>
      s.turn.value.phase.intent.key.Some? && Ran(s.store.executions, s.turn.value.phase.intent.key.value)
  }

  ghost predicate Allowed(setting: Setting, plan: Plan, cfg: Config, s: State, step: Step)
    requires Enabled(cfg, s, step)
  {
    match step
    case Guard(_, granted) =>
      && (setting.approvalsChange || Agrees(plan, granted))
      && (setting.readOnlyAsks || OnlyMutatingAsk(granted))
    case Record => setting.effectsHidden || Truthful(s, step)
    case Reconcile(verdict) =>
      && (setting.recoveryMisses || Truthful(s, step))
      && (setting.recoveryInvents || TellsOfCallsRun(s, verdict))
    case Ask =>
      var call := s.turn.value.phase.call;
      setting.argumentsShared
      || (ArgsHash(call.args) in plan.owners && plan.owners[ArgsHash(call.args)] == call.operation)
    case Gate(read) => setting.questionsUnread || read
    case Delete(q) => setting.questionsDeleted || !s.store.questions[q].key.ApprovalKey?
    case _ => true
  }

  ghost predicate AllowedRun(setting: Setting, plan: Plan, cfg: Config, s: State, steps: seq<Step>)
    requires Legal(cfg, s, steps)
  {
    steps == [] ||
    (var before := steps[..|steps| - 1];
     && AllowedRun(setting, plan, cfg, s, before)
     && Allowed(setting, plan, cfg, Run(cfg, s, before), steps[|steps| - 1]))
  }

  // ------------------------------------------------------------------ one Operation for each set of arguments

  ghost predicate OwnRequests(plan: Plan, es: seq<Entry>) {
    forall i | 0 <= i < |es| && es[i].kind == ApprovalRequest ::
      && es[i].argsHash.Some? && es[i].argsHash.value in plan.owners
      && plan.owners[es[i].argsHash.value] == es[i].toolName
  }

  ghost predicate Owned(plan: Plan, s: State) {
    && OwnRequests(plan, s.store.conversation.entries)
    && (s.turn.Some? ==> OwnRequests(plan, s.turn.value.conversation.entries))
  }

  lemma OwnGrows(plan: Plan, a: seq<Entry>, b: seq<Entry>)
    requires OwnRequests(plan, a) && Grown(a, b)
    requires forall i | |a| <= i < |b| && b[i].kind == ApprovalRequest ::
               && b[i].argsHash.Some? && b[i].argsHash.value in plan.owners
               && plan.owners[b[i].argsHash.value] == b[i].toolName
    ensures OwnRequests(plan, b)
  {
    forall i | 0 <= i < |b| && b[i].kind == ApprovalRequest
      ensures && b[i].argsHash.Some? && b[i].argsHash.value in plan.owners
              && plan.owners[b[i].argsHash.value] == b[i].toolName
    {
      if i < |a| { assert SameButUsage(a[i], b[i]); }
    }
  }

  lemma AskedRowIs(cfg: Config, s: State, step: Step)
    requires Enabled(cfg, s, step) && step.Ask?
    ensures var V, W := s.turn.value.conversation.entries, Apply(cfg, s, step).turn.value.conversation.entries;
            && |W| == |V| + 2 && W[|V|].toolName == s.turn.value.phase.call.operation
            && W[|V|].argsHash == Some(ArgsHash(s.turn.value.phase.call.args))
  {
    hide RequestCount, Raise, NextSeq, ArgsHash;
  }

  lemma StepOwns(setting: Setting, plan: Plan, cfg: Config, s: State, step: Step)
    requires Owned(plan, s) && Enabled(cfg, s, step) && Allowed(setting, plan, cfg, s, step) && !setting.argumentsShared
    ensures Owned(plan, Apply(cfg, s, step))
  {
    hide Apply, Enabled, Grown, OwnRequests, Truthful;
    var next := Apply(cfg, s, step);
    if s.turn.Some? {
      WhatIsWritten(cfg, s, step);
      if next.turn.Some? {
        TurnRows(cfg, s, step);
        if step.Ask? { AskedRowIs(cfg, s, step); }
        OwnGrows(plan, s.turn.value.conversation.entries, next.turn.value.conversation.entries);
      }
    } else {
      WatchedRow(cfg, s, step);
      OwnGrows(plan, s.store.conversation.entries, next.store.conversation.entries);
      if next.turn.Some? { IdleTurn(cfg, s, step); }
    }
  }

  lemma IdleTurn(cfg: Config, s: State, step: Step)
    requires Enabled(cfg, s, step) && s.turn.None? && Apply(cfg, s, step).turn.Some?
    ensures Apply(cfg, s, step).turn.value.conversation.entries == s.store.conversation.entries
    ensures Apply(cfg, s, step).turn.value.phase.Guards? && Apply(cfg, s, step).turn.value.granted == map[]
  {
  }

  lemma {:induction false} RunOwns(setting: Setting, plan: Plan, cfg: Config, prompt: string, maxTurns: nat,
                                   steps: seq<Step>)
    requires Legal(cfg, Born(prompt, maxTurns), steps) && !setting.argumentsShared
    requires AllowedRun(setting, plan, cfg, Born(prompt, maxTurns), steps)
    ensures Owned(plan, Run(cfg, Born(prompt, maxTurns), steps))
  {
    hide Apply, Enabled, Allowed;
    if steps != [] {
      var before := steps[..|steps| - 1];
      RunOwns(setting, plan, cfg, prompt, maxTurns, before);
      StepOwns(setting, plan, cfg, Run(cfg, Born(prompt, maxTurns), before), steps[|steps| - 1]);
    }
  }

  lemma OwnedIsSole(plan: Plan, questions: seq<Question>, es: seq<Entry>)
    requires OwnRequests(plan, es) && AskedFor(questions, es)
    ensures SoleOperations(es)
  {
  }

  lemma {:induction false} AllowedIsTruthful(setting: Setting, plan: Plan, cfg: Config, s: State, steps: seq<Step>)
    requires Legal(cfg, s, steps) && AllowedRun(setting, plan, cfg, s, steps)
    requires !setting.effectsHidden && !setting.recoveryMisses
    ensures TruthfulRun(cfg, s, steps)
  {
    hide Apply, Enabled;
    if steps != [] {
      AllowedIsTruthful(setting, plan, cfg, s, steps[..|steps| - 1]);
    }
  }

  // ------------------------------------------------------------------ each yes lets through one effect

  /** No two approved executions that landed were let through by one question. */
  ghost predicate YesPaysOnce(store: Store) {
    var xs := store.executions;
    forall i, j | 0 <= i < j < |xs| && xs[i].landed && xs[j].landed && xs[i].yes.Some? :: xs[i].yes != xs[j].yes
  }

  predicate EffectsSafe(setting: Setting) {
    !setting.effectsHidden && !setting.recoveryMisses && !setting.argumentsShared
  }

  lemma SafeEffects(setting: Setting, plan: Plan, cfg: Config, prompt: string, maxTurns: nat, steps: seq<Step>)
    requires EffectsSafe(setting) && Legal(cfg, Born(prompt, maxTurns), steps)
    requires AllowedRun(setting, plan, cfg, Born(prompt, maxTurns), steps)
    ensures YesPaysOnce(Run(cfg, Born(prompt, maxTurns), steps).store)
  {
    hide Run, Legal, AllowedRun, TruthfulRun, Born, SoleOperations, OwnRequests, AskedFor, ExecutionsAuthorised;
    AllowedIsTruthful(setting, plan, cfg, Born(prompt, maxTurns), steps);
    EachYesPaysForOneEffect(cfg, prompt, maxTurns, steps);
    RunOwns(setting, plan, cfg, prompt, maxTurns, steps);
    RunAsks(cfg, prompt, maxTurns, steps);
    var store := Run(cfg, Born(prompt, maxTurns), steps).store;
    OwnedIsSole(plan, store.questions, store.conversation.entries);
  }

  // ------------------------------------------------------------------ what needs a yes has one

  /** What needs an approval runs under a yes, and the catalogue in hand says the same as ever. */
  ghost predicate Needful(plan: Plan, s: State) {
    && (forall x | x in s.store.executions && x.operation in plan.needs :: x.yes.Some?)
    && (s.turn.Some? ==>
          var t := s.turn.value;
          && Agrees(plan, t.granted)
          && OnlyMutatingAsk(t.granted)
          && (t.phase.Executing? && t.phase.call.operation in plan.needs ==> t.phase.yes.Some?))
  }

  lemma GateNeeds(plan: Plan, t: Turn, questions: seq<Question>)
    requires t.phase.Gating? && Agrees(plan, t.granted)
    ensures var next := GateTurn(t, questions);
            next.phase.Executing? && next.phase.call.operation in plan.needs ==> next.phase.yes.Some?
    ensures GateTurn(t, questions).granted == t.granted
  {
    hide FindApproval, Append, ArgsHash;
  }

  lemma GuardGrants(t: Turn, assistant: Option<AssistantInfo>, granted: map<string, Grant>)
    ensures GuardTurn(t, assistant, granted).granted == granted || GuardTurn(t, assistant, granted).granted == t.granted
  {
    hide Append, BuildMessages, UnresolvedIntent, TurnLimit, EndedFull;
  }

  lemma ModelKeepsGrants(s: State, verdict: Option<Outcome>, reply: ModelReply)
    requires s.turn.Some?
    ensures s.turn.value.phase.Reconciling? ==> ReconcileStep(s, verdict).turn.value.granted == s.turn.value.granted
    ensures s.turn.value.phase.Prompting? ==> AttemptStep(s, reply).turn.value.granted == s.turn.value.granted
  {
    hide Append, BuildMessages, UnresolvedIntent, Settlement, SettledStamp, FindByKey, Plus;
  }

  lemma CallKeepsGrants(s: State)
    requires s.turn.Some?
    ensures s.turn.value.calls != [] ==> IntendStep(s).turn.value.granted == s.turn.value.granted
    ensures s.turn.value.phase.Gating? ==>
              forall read: bool ::
                GateTurn(s.turn.value, Readable(s.store.questions, read)).granted == s.turn.value.granted
    ensures s.turn.value.phase.Asking? ==> AskStep(s).turn.value.granted == s.turn.value.granted
  {
    hide Append, NextSeq, FindApproval, Raise, RequestCount, ArgsHash;
  }

  lemma GrantsAreTheGuards(cfg: Config, s: State, step: Step)
    requires Enabled(cfg, s, step) && Apply(cfg, s, step).turn.Some?
    ensures var granted := Apply(cfg, s, step).turn.value.granted;
            || granted == map[]
            || (step.Guard? && granted == step.granted)
            || (s.turn.Some? && granted == s.turn.value.granted)
  {
    hide UnresolvedIntent, Raise, Append, AddUsage, Plus, OperationUsage, Suspended, ArgsHash, GuardTurn, ReconcileStep,
      AttemptStep, IntendStep, GateTurn, AskStep;
    match step
    case Guard(assistant, granted) => GuardGrants(s.turn.value, assistant, granted);
    case Reconcile(verdict) => ModelKeepsGrants(s, verdict, Transient(NoUsage));
    case Attempt(reply) => ModelKeepsGrants(s, None, reply);
    case Intend => CallKeepsGrants(s);
    case Gate(_) => CallKeepsGrants(s);
    case Ask => CallKeepsGrants(s);
    case _ =>
  }

  lemma StepStaysNeedful(setting: Setting, plan: Plan, cfg: Config, s: State, step: Step)
    requires Needful(plan, s) && Enabled(cfg, s, step) && Allowed(setting, plan, cfg, s, step)
    requires !setting.approvalsChange && !setting.readOnlyAsks
    ensures Needful(plan, Apply(cfg, s, step))
  {
    hide Agrees, OnlyMutatingAsk, Truthful, TellsOfCallsRun, FindApproval, BuildMessages, UnresolvedIntent,
      RequestCount, Raise, Append, Settlement, SettledStamp, AddUsage, Plus, TurnLimit, NextSeq, OperationUsage,
      Suspended, EndedFull, ArgsHash, GateTurn, GuardTurn, ReconcileStep, AttemptStep, IntendStep, AskStep, RecordStep,
      EscalateStep, ToEscalation;
    NothingGranted(plan);
    if !step.Execute? { OnlyExecuteExecutes(cfg, s, step); }
    if Apply(cfg, s, step).turn.Some? {
      GrantsAreTheGuards(cfg, s, step);
      OnlyTheGateLetsThrough(cfg, s, step);
      if step.Gate? { GateNeeds(plan, s.turn.value, Readable(s.store.questions, step.read)); }
    }
  }

  lemma NothingGranted(plan: Plan)
    ensures Agrees(plan, map[]) && OnlyMutatingAsk(map[])
  {
  }

  /** Every stamped result is that of a call that ran under a yes. */
  ghost predicate StampsRan(xs: seq<Execution>, es: seq<Entry>) {
    forall k: nat | Stamped(es, k) :: RanUnderAYes(xs, k)
  }

  ghost predicate RanUnderAYes(xs: seq<Execution>, key: nat) {
    exists x :: x in xs && x.key == key && x.yes.Some?
  }

  ghost predicate StampsEarned(s: State) {
    && StampsRan(s.store.executions, s.store.conversation.entries)
    && (s.turn.Some? ==> StampsRan(s.store.executions, s.turn.value.conversation.entries))
  }

  /** The stamps of `b` are those of `a`, and at most one for this key. */
  ghost predicate StampsAdded(a: seq<Entry>, b: seq<Entry>, key: Option<nat>) {
    forall k: nat | Stamped(b, k) :: Stamped(a, k) || key == Some(k)
  }

  lemma NoStamp(es: seq<Entry>)
    ensures StampsAdded(es, es, None)
  {
  }

  lemma AppendStamps(es: seq<Entry>, row: Entry)
    ensures StampsAdded(es, Append(es, row), if row.kind == ToolResult && row.argsHash.Some? then row.key else None)
  {
    var late := Append(es, row);
    forall k: nat | Stamped(late, k)
      ensures Stamped(es, k) || (row.kind == ToolResult && row.argsHash.Some? && row.key == Some(k))
    {
      var i :| 0 <= i < |late| && late[i].kind == ToolResult && late[i].key == Some(k) && late[i].argsHash.Some?;
      if i < |es| { assert es[i] == late[i]; }
    }
  }

  lemma UsageStamps(es: seq<Entry>, at: nat, usage: Usage)
    requires at < |es|
    ensures StampsAdded(es, AddUsage(es, at, usage), None)
  {
    var late := AddUsage(es, at, usage);
    forall k: nat | Stamped(late, k) ensures Stamped(es, k) {
      var i :| 0 <= i < |late| && late[i].kind == ToolResult && late[i].key == Some(k) && late[i].argsHash.Some?;
      assert es[i].kind == ToolResult && es[i].key == Some(k) && es[i].argsHash.Some?;
    }
  }

  lemma StampsCompose(a: seq<Entry>, b: seq<Entry>, c: seq<Entry>, key: Option<nat>, other: Option<nat>)
    requires StampsAdded(a, b, key) && StampsAdded(b, c, other) && (key.None? || other.None?)
    ensures StampsAdded(a, c, if key.Some? then key else other)
  {
    hide Stamped;
  }

  /** The call whose result this step stamps, if it stamps one. */
  ghost function StampedNow(s: State, step: Step): Option<nat> {
    if s.turn.None? then None
    else
      var t := s.turn.value;
      if step.Record? && t.phase.Executed? && t.phase.yes.Some? && t.phase.outcome.Value? then Some(t.phase.key)
      else if step.Reconcile? && t.phase.Reconciling? && Vouched(t.granted, t.phase.intent, step.verdict)
      then t.phase.intent.key
      else None
  }

  /** What one step stamps in memory. */
  lemma TurnStamps(cfg: Config, s: State, step: Step)
    requires Enabled(cfg, s, step) && s.turn.Some? && Apply(cfg, s, step).turn.Some?
    ensures StampsAdded(s.turn.value.conversation.entries, Apply(cfg, s, step).turn.value.conversation.entries,
                        StampedNow(s, step))
  {
    hide FindApproval, BuildMessages, UnresolvedIntent, RequestCount, FindByKey, NextSeq, Append, AddUsage, StampsAdded,
      Vouched, Plus, ReconcileStep, AskStep, RecordStep, ExecuteStep, TurnLimit;
    var t := s.turn.value;
    var es := t.conversation.entries;
    NoStamp(es);
    AppendStamps(es, PlainRow(ErrorNote, "stuck"));
    match step
    case Guard(_, _) => AppendStamps(es, PlainRow(ErrorNote, "full"));
    case Reconcile(verdict) => ReconcileStamps(s, verdict);
    case Attempt(reply) =>
      AppendStamps(es, PlainRow(ErrorNote, "transient"));
      if reply.Response? {
        AppendStamps(es, PlainRow(Reply, reply.text)
                         .(usage := if reply.usage.Some? then reply.usage.value else NoUsage));
      }
    case Intend =>
      var first := t.costEntry.None?;
      AppendStamps(es, IntentRow(t.calls[0], if first then t.narration else "", NextSeq(es),
                                 if first then t.bill else NoUsage));
    case Gate(_) => AppendStamps(es, ResultRow(t.phase.call.operation, Some(t.phase.key), None));
    case Ask => AskStamps(s);
    case Record => RecordStamps(s);
    case Execute(outcome, landed, report, spent) => ExecuteLeavesTheLog(s, outcome, landed, report, spent);
    case _ =>
  }

  lemma ExecuteLeavesTheLog(s: State, outcome: Outcome, landed: bool, report: Report, spent: Usage)
    requires s.turn.Some? && s.turn.value.phase.Executing?
    ensures ExecuteStep(s, outcome, landed, report, spent).turn.value.conversation == s.turn.value.conversation
  {
  }

  lemma ReconcileStamps(s: State, verdict: Option<Outcome>)
    requires s.turn.Some? && s.turn.value.phase.Reconciling?
    ensures StampsAdded(s.turn.value.conversation.entries, ReconcileStep(s, verdict).turn.value.conversation.entries,
                        StampedNow(s, Reconcile(verdict)))
  {
    hide BuildMessages, UnresolvedIntent, FindByKey, Append, StampsAdded, Settlement, SettledStamp, Vouched;
    var t := s.turn.value;
    var es, intent := t.conversation.entries, t.phase.intent;
    var row := ResultRow(intent.toolName, intent.key,
                         SettledStamp(t.granted, intent, Settlement(t.granted, intent, verdict)));
    RecoveryStamps(t.granted, intent, verdict);
    AppendStamps(es, row);
    AppendStamps(Append(es, row), PlainRow(ErrorNote, "stuck"));
    StampsCompose(es, Append(es, row), Append(Append(es, row), PlainRow(ErrorNote, "stuck")),
                  StampedNow(s, Reconcile(verdict)), None);
  }

  lemma AskStamps(s: State)
    requires s.turn.Some? && s.turn.value.phase.Asking?
    ensures StampsAdded(s.turn.value.conversation.entries, AskStep(s).turn.value.conversation.entries, None)
  {
    hide RequestCount, Raise, Append, StampsAdded;
    var t := s.turn.value;
    var es, call := t.conversation.entries, t.phase.call;
    var hash := ArgsHash(call.args);
    var key := Keys.ApprovalKey(hash, RequestCount(es, call.operation, hash) + 1);
    var row := RequestRow(call.operation, hash, Raise(s.store.questions, key).1);
    var result := ResultRow(call.operation, Some(t.phase.key), None);
    AppendStamps(es, row);
    AppendStamps(Append(es, row), result);
    StampsCompose(es, Append(es, row), Append(Append(es, row), result), None, None);
  }

  lemma RecordStamps(s: State)
    requires s.turn.Some? && s.turn.value.phase.Executed?
    requires s.turn.value.costEntry.Some? && s.turn.value.costEntry.value < |s.turn.value.conversation.entries|
    ensures StampsAdded(s.turn.value.conversation.entries, RecordStep(s).turn.value.conversation.entries,
                        StampedNow(s, Record))
  {
    hide Append, AddUsage, StampsAdded, Plus, OperationUsage;
    var t := s.turn.value;
    var p := t.phase;
    var es := t.conversation.entries;
    var row := ResultRow(p.call.operation, Some(p.key),
                         if p.yes.Some? && p.outcome.Value? then Some(ArgsHash(p.call.args)) else None);
    AppendStamps(es, row);
    var reported := OperationUsage(p.report);
    if reported.Some? {
      AppendLength(es, row);
      UsageStamps(Append(es, row), t.costEntry.value, reported.value);
      StampsCompose(es, Append(es, row), AddUsage(Append(es, row), t.costEntry.value, reported.value),
                    StampedNow(s, Record), None);
    }
  }

  /** The watcher stamps nothing. */
  lemma IdleStamps(cfg: Config, s: State, step: Step)
    requires Enabled(cfg, s, step) && s.turn.None?
    ensures StampsAdded(s.store.conversation.entries, Apply(cfg, s, step).store.conversation.entries, None)
  {
    hide FindApproval, BuildMessages, UnresolvedIntent, Append, StampsAdded;
    var c := s.store.conversation;
    NoStamp(c.entries);
    match step
    case WatchAnswered(text) => AppendStamps(c.entries, PlainRow(Answer, text).(questionId := c.currentQuestion));
    case WatchGone(_) => AppendStamps(c.entries, PlainRow(ErrorNote, "gone"));
    case WatchWoken => AppendStamps(c.entries, PlainRow(Timeout, "woken"));
    case Deliver(text) => AppendStamps(c.entries, PlainRow(Answer, text));
    case _ =>
  }

  /** A call stamped under such a setting is one that ran under a yes. */
  lemma StampedNowRan(setting: Setting, plan: Plan, cfg: Config, s: State, step: Step)
    requires Good(s) && Approved(s) && Needful(plan, s) && Enabled(cfg, s, step)
    requires Allowed(setting, plan, cfg, s, step) && !setting.recoveryInvents
    ensures StampedNow(s, step).Some? ==> RanUnderAYes(s.store.executions, StampedNow(s, step).value)
  {
    hide Approved, Good, Truthful;
    if step.Record? {
      RecordedRan(s);
    } else if step.Reconcile? && StampedNow(s, step).Some? {
      var x :| x in s.store.executions && x.key == s.turn.value.phase.intent.key.value;
      IntentNamesTheCall(s, x);
    }
  }

  lemma RecordedRan(s: State)
    requires Approved(s) && s.turn.Some? && s.turn.value.phase.Executed?
    ensures s.turn.value.phase.yes.Some? ==> RanUnderAYes(s.store.executions, s.turn.value.phase.key)
  {
    hide ExecutionsAuthorised, RepeatsAreUnspent, ConfirmedOnRecord;
  }

  lemma StampsRanLater(xs: seq<Execution>, a: seq<Entry>, b: seq<Entry>, key: Option<nat>)
    requires StampsRan(xs, a) && StampsAdded(a, b, key) && (key.Some? ==> RanUnderAYes(xs, key.value))
    ensures StampsRan(xs, b)
  {
    hide Stamped, RanUnderAYes;
  }

  lemma MoreHaveRun(xs: seq<Execution>, more: seq<Execution>, es: seq<Entry>)
    requires StampsRan(xs, es) && xs <= more
    ensures StampsRan(more, es)
  {
    hide Stamped;
    forall k: nat | Stamped(es, k) ensures RanUnderAYes(more, k) {
      assert RanUnderAYes(xs, k);
      var x :| x in xs && x.key == k && x.yes.Some?;
      assert x in more;
    }
  }

  lemma StepEarnsStamps(setting: Setting, plan: Plan, cfg: Config, s: State, step: Step)
    requires Good(s) && Approved(s) && Needful(plan, s) && StampsEarned(s) && Enabled(cfg, s, step)
    requires Allowed(setting, plan, cfg, s, step) && !setting.recoveryInvents
    ensures StampsEarned(Apply(cfg, s, step))
  {
    hide Apply, Enabled, Good, Approved, Needful, Allowed, StampsRan, StampedNow;
    var next := Apply(cfg, s, step);
    var xs := s.store.executions;
    StampedNowRan(setting, plan, cfg, s, step);
    ExecutionsStep(cfg, s, step);
    MoreHaveRun(xs, next.store.executions, s.store.conversation.entries);
    if s.turn.Some? {
      WhatIsWritten(cfg, s, step);
      if next.turn.Some? {
        TurnStamps(cfg, s, step);
        StampsRanLater(xs, s.turn.value.conversation.entries, next.turn.value.conversation.entries,
                       StampedNow(s, step));
        MoreHaveRun(xs, next.store.executions, next.turn.value.conversation.entries);
      }
      MoreHaveRun(xs, next.store.executions, s.turn.value.conversation.entries);
    } else {
      IdleStamps(cfg, s, step);
      StampsRanLater(xs, s.store.conversation.entries, next.store.conversation.entries, None);
      MoreHaveRun(xs, next.store.executions, next.store.conversation.entries);
      if next.turn.Some? { IdleTurn(cfg, s, step); }
    }
  }

  lemma BornEarned(plan: Plan, prompt: string, maxTurns: nat)
    ensures Needful(plan, Born(prompt, maxTurns)) && StampsEarned(Born(prompt, maxTurns))
  {
  }

  lemma {:induction false} RunEarnsStamps(setting: Setting, plan: Plan, cfg: Config, prompt: string, maxTurns: nat,
                                          steps: seq<Step>)
    requires Legal(cfg, Born(prompt, maxTurns), steps)
    requires AllowedRun(setting, plan, cfg, Born(prompt, maxTurns), steps)
    requires !setting.approvalsChange && !setting.readOnlyAsks && !setting.recoveryInvents
    ensures Needful(plan, Run(cfg, Born(prompt, maxTurns), steps))
            && StampsEarned(Run(cfg, Born(prompt, maxTurns), steps))
  {
    hide Apply, Enabled, Allowed, Needful, StampsEarned, Born;
    if steps == [] {
      BornEarned(plan, prompt, maxTurns);
    } else {
      var before := steps[..|steps| - 1];
      var s := Run(cfg, Born(prompt, maxTurns), before);
      RunEarnsStamps(setting, plan, cfg, prompt, maxTurns, before);
      RunIsApproved(cfg, prompt, maxTurns, before);
      StepStaysNeedful(setting, plan, cfg, s, steps[|steps| - 1]);
      StepEarnsStamps(setting, plan, cfg, s, steps[|steps| - 1]);
    }
  }

  // ------------------------------------------------------------------ each stamp has a yes of its own

  /** The question whose yes let this call run. */
  function YesOf(xs: seq<Execution>, key: nat): (yes: Option<nat>)
    ensures yes.Some? ==> exists x :: x in xs && x.key == key && x.yes == yes
    ensures yes.None? ==> forall x | x in xs && x.key == key :: x.yes.None?
  {
    if xs == [] then None
    else if xs[0].key == key && xs[0].yes.Some? then xs[0].yes
    else YesOf(xs[1..], key)
  }

  predicate StampedRow(e: Entry) {
    e.kind == ToolResult && e.key.Some? && e.argsHash.Some?
  }

  /** Stamped results and confirmed questions, one to one: each stamped result is that of a call let
      through by a question confirmed and asked for that Operation with those arguments, and no
      question let through two of them. */
  ghost predicate StampsHaveTheirYes(store: Store) {
    var es, xs := store.conversation.entries, store.executions;
    && (forall i | 0 <= i < |es| && StampedRow(es[i]) ::
          var yes := YesOf(xs, es[i].key.value);
          && yes.Some? && yes.value in store.confirmed
          && Requested(es, es[i].toolName, es[i].argsHash.value, yes.value))
    && (forall i, j | 0 <= i < j < |es| && StampedRow(es[i]) && StampedRow(es[j]) ::
          YesOf(xs, es[i].key.value) != YesOf(xs, es[j].key.value))
  }

  predicate StampsSafe(setting: Setting) {
    !setting.readOnlyAsks && !setting.approvalsChange && !setting.recoveryInvents && !setting.argumentsShared
  }

  /** The execution behind a stamped row is one of the call the row names. */
  lemma StampedCall(store: Store, i: nat) returns (x: Execution)
    requires GoodStore(store) && i < |store.conversation.entries| && StampedRow(store.conversation.entries[i])
    requires StampsRan(store.executions, store.conversation.entries) && ExecutionsAuthorised(store)
    ensures var e := store.conversation.entries[i];
            && x in store.executions && x.key == e.key.value && x.yes.Some?
            && x.yes == YesOf(store.executions, e.key.value) && x.yes.value in store.confirmed
            && e.toolName == x.operation && e.argsHash == Some(ArgsHash(x.args))
            && Requested(store.conversation.entries, x.operation, ArgsHash(x.args), x.yes.value)
  {
    var es, xs := store.conversation.entries, store.executions;
    assert Stamped(es, es[i].key.value);
    assert RanUnderAYes(xs, es[i].key.value);
    x :| x in xs && x.key == es[i].key.value && x.yes.Some?;
    var y :| y in xs && y.key == es[i].key.value && y.yes == YesOf(xs, es[i].key.value);
    SameExecution(store, x, y);
    assert Announced(store, x);
    StampMatchesItsCall(es, i, x);
    assert Authorised(es, store.confirmed, x.operation, x.args, x.key, x.yes.value);
  }

  lemma SameExecution(store: Store, x: Execution, y: Execution)
    requires GoodStore(store) && x in store.executions && y in store.executions && x.key == y.key
    ensures x == y
  {
  }

  lemma StampMatchesItsCall(es: seq<Entry>, i: nat, x: Execution)
    requires WellLogged(es) && i < |es| && StampedRow(es[i]) && es[i].key == Some(x.key)
    requires HasIntent(es, x.key, Call(x.operation, x.args))
    ensures es[i].toolName == x.operation && es[i].argsHash == Some(ArgsHash(x.args))
  {
    var j :| 0 <= j < |es| && es[j].kind == ToolIntent && es[j].key == Some(x.key)
             && es[j].toolName == x.operation && es[j].toolArgs == x.args;
    assert Matches(es[i], es[j]);
  }

  /** Two calls let through by one question are not both stamped. */
  lemma OneStampPerYes(store: Store, m: nat, n: nat)
    requires RepeatsAreUnspent(store) && SoleOperations(store.conversation.entries)
    requires ExecutionsAuthorised(store) && AskedFor(store.questions, store.conversation.entries)
    requires m < n < |store.executions|
    requires store.executions[m].yes.Some? && store.executions[m].yes == store.executions[n].yes
    ensures !Stamped(store.conversation.entries, store.executions[m].key)
  {
    hide ExecutionsAuthorised, AskedFor, SoleOperations, Stamped, Resolved;
    SameYesSameArguments(store, store.executions[m], store.executions[n]);
  }

  lemma StampsDiffer(store: Store, i: nat, j: nat)
    requires GoodStore(store) && RepeatsAreUnspent(store) && SoleOperations(store.conversation.entries)
    requires ExecutionsAuthorised(store) && AskedFor(store.questions, store.conversation.entries)
    requires StampsRan(store.executions, store.conversation.entries)
    requires i < j < |store.conversation.entries|
    requires StampedRow(store.conversation.entries[i]) && StampedRow(store.conversation.entries[j])
    ensures YesOf(store.executions, store.conversation.entries[i].key.value)
            != YesOf(store.executions, store.conversation.entries[j].key.value)
  {
    hide RepeatsAreUnspent, SoleOperations, ExecutionsAuthorised, AskedFor, StampsRan, Stamped, GoodStore, YesOf,
      Requested;
    var es, xs := store.conversation.entries, store.executions;
    var x := StampedCall(store, i);
    var y := StampedCall(store, j);
    StampKeysDiffer(store, i, j);
    if x.yes == y.yes {
      var m :| 0 <= m < |xs| && xs[m] == x;
      var n :| 0 <= n < |xs| && xs[n] == y;
      if m < n { OneStampPerYes(store, m, n); } else { OneStampPerYes(store, n, m); }
    }
  }

  lemma StampKeysDiffer(store: Store, i: nat, j: nat)
    requires GoodStore(store) && i < j < |store.conversation.entries|
    requires StampedRow(store.conversation.entries[i]) && StampedRow(store.conversation.entries[j])
    ensures var es := store.conversation.entries;
            es[i].key != es[j].key && Stamped(es, es[i].key.value) && Stamped(es, es[j].key.value)
  {
  }

  lemma SafeStamps(setting: Setting, plan: Plan, cfg: Config, prompt: string, maxTurns: nat, steps: seq<Step>)
    requires StampsSafe(setting) && Legal(cfg, Born(prompt, maxTurns), steps)
    requires AllowedRun(setting, plan, cfg, Born(prompt, maxTurns), steps)
    ensures StampsHaveTheirYes(Run(cfg, Born(prompt, maxTurns), steps).store)
  {
    hide Run, Legal, AllowedRun, Born, OwnRequests, GoodStore, SoleOperations, StampsRan, ExecutionsAuthorised,
      AskedFor, RepeatsAreUnspent, Requested, YesOf;
    RunEarnsStamps(setting, plan, cfg, prompt, maxTurns, steps);
    RunIsApproved(cfg, prompt, maxTurns, steps);
    RunOwns(setting, plan, cfg, prompt, maxTurns, steps);
    RunAsks(cfg, prompt, maxTurns, steps);
    var store := Run(cfg, Born(prompt, maxTurns), steps).store;
    var es := store.conversation.entries;
    OwnedIsSole(plan, store.questions, es);
    forall i | 0 <= i < |es| && StampedRow(es[i])
      ensures var yes := YesOf(store.executions, es[i].key.value);
              && yes.Some? && yes.value in store.confirmed
              && Requested(es, es[i].toolName, es[i].argsHash.value, yes.value)
    {
      var _ := StampedCall(store, i);
    }
    forall i, j | 0 <= i < j < |es| && StampedRow(es[i]) && StampedRow(es[j])
      ensures YesOf(store.executions, es[i].key.value) != YesOf(store.executions, es[j].key.value)
    {
      StampsDiffer(store, i, j);
    }
  }

  // ------------------------------------------------------------------ requests and stamps add up

  predicate CountsSafe(setting: Setting) {
    StampsSafe(setting) && !setting.questionsDeleted && !setting.questionsUnread
  }

  /** Stamped results <= requests <= stamped results + 1, for each Operation and arguments. */
  ghost predicate CountsMatch(es: seq<Entry>) {
    forall p :: StampCount(es, p) <= Requests(es, p) <= StampCount(es, p) + 1
  }

  /** Under such a setting recovery stamps only what ran under a yes. */
  lemma AllowedIsFair(setting: Setting, plan: Plan, cfg: Config, s: State, step: Step, p: Pair)
    requires Good(s) && Needful(plan, s) && Enabled(cfg, s, step) && Allowed(setting, plan, cfg, s, step)
    requires CountsSafe(setting) && p.hash in plan.owners && plan.owners[p.hash] == p.operation
    ensures Fair(s, step, p)
  {
    hide Good, Truthful;
    if step.Reconcile? && Vouched(s.turn.value.granted, s.turn.value.phase.intent, step.verdict) {
      var x :| x in s.store.executions && x.key == s.turn.value.phase.intent.key.value;
      IntentNamesTheCall(s, x);
    }
  }

  lemma {:induction false} AllowedRunIsFair(setting: Setting, plan: Plan, cfg: Config, prompt: string, maxTurns: nat,
                                            steps: seq<Step>, p: Pair)
    requires Legal(cfg, Born(prompt, maxTurns), steps) && CountsSafe(setting)
    requires AllowedRun(setting, plan, cfg, Born(prompt, maxTurns), steps)
    requires p.hash in plan.owners && plan.owners[p.hash] == p.operation
    ensures FairRun(cfg, Born(prompt, maxTurns), steps, p)
  {
    hide Apply, Enabled, Allowed, Needful, StampsEarned, Born, Fair, Good;
    if steps != [] {
      var before := steps[..|steps| - 1];
      AllowedRunIsFair(setting, plan, cfg, prompt, maxTurns, before, p);
      RunKeeps(cfg, prompt, maxTurns, before);
      RunEarnsStamps(setting, plan, cfg, prompt, maxTurns, before);
      AllowedIsFair(setting, plan, cfg, Run(cfg, Born(prompt, maxTurns), before), steps[|steps| - 1], p);
    }
  }

  /** A pair never put to the User has no stamp either. */
  lemma {:induction false} NothingAsked(es: seq<Entry>, p: Pair)
    requires forall i | 0 <= i < |es| :: !Asks(es[i], p)
    ensures Requests(es, p) == 0
  {
    if es != [] { NothingAsked(es[..|es| - 1], p); }
  }

  lemma {:induction false} NothingStamped(es: seq<Entry>, p: Pair)
    requires forall i | 0 <= i < |es| :: !Stamps(es[i], p)
    ensures StampCount(es, p) == 0
  {
    if es != [] { NothingStamped(es[..|es| - 1], p); }
  }

  lemma StampedIsOwned(plan: Plan, store: Store, i: nat, p: Pair)
    requires OwnRequests(plan, store.conversation.entries) && StampsHaveTheirYes(store)
    requires Ordered(store.conversation.entries) && i < |store.conversation.entries|
    ensures Stamps(store.conversation.entries[i], p) ==> p.hash in plan.owners && plan.owners[p.hash] == p.operation
  {
    var es := store.conversation.entries;
    if Stamps(es[i], p) {
      assert StampedRow(es[i]);
      assert Requested(es, p.operation, p.hash, YesOf(store.executions, es[i].key.value).value);
    }
  }

  lemma ForeignPairs(plan: Plan, store: Store, p: Pair)
    requires OwnRequests(plan, store.conversation.entries) && StampsHaveTheirYes(store)
    requires !(p.hash in plan.owners && plan.owners[p.hash] == p.operation)
    requires Ordered(store.conversation.entries)
    ensures Requests(store.conversation.entries, p) == 0 && StampCount(store.conversation.entries, p) == 0
  {
    hide StampsHaveTheirYes, Ordered;
    var es := store.conversation.entries;
    forall i | 0 <= i < |es| ensures !Asks(es[i], p) {}
    forall i | 0 <= i < |es| ensures !Stamps(es[i], p) {
      StampedIsOwned(plan, store, i, p);
    }
    NothingAsked(es, p);
    NothingStamped(es, p);
  }

  lemma SafeCounts(setting: Setting, plan: Plan, cfg: Config, prompt: string, maxTurns: nat, steps: seq<Step>)
    requires CountsSafe(setting) && Legal(cfg, Born(prompt, maxTurns), steps)
    requires AllowedRun(setting, plan, cfg, Born(prompt, maxTurns), steps)
    ensures CountsMatch(Run(cfg, Born(prompt, maxTurns), steps).store.conversation.entries)
  {
    hide Run, Legal, AllowedRun, Born, OwnRequests, StampsHaveTheirYes, OneResultEach, LatestOpen, ResultsMatch,
      Ordered, StampCount, RequestCount;
    SafeStamps(setting, plan, cfg, prompt, maxTurns, steps);
    RunOwns(setting, plan, cfg, prompt, maxTurns, steps);
    RunKeeps(cfg, prompt, maxTurns, steps);
    var store := Run(cfg, Born(prompt, maxTurns), steps).store;
    forall p ensures StampCount(store.conversation.entries, p) <= Requests(store.conversation.entries, p)
                     <= StampCount(store.conversation.entries, p) + 1 {
      if p.hash in plan.owners && plan.owners[p.hash] == p.operation {
        AllowedRunIsFair(setting, plan, cfg, prompt, maxTurns, steps, p);
        RequestsMatchStamps(cfg, prompt, maxTurns, steps, p);
      } else {
        ForeignPairs(plan, store, p);
      }
    }
  }
}
