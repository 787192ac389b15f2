/** The books of the approval gate: which runs make one yes pay for one booking, and what a
    question without a yes holds back. */
module ApprovalAccounts {
  import opened Wrappers
  import opened CanonicalJson
  import opened Conversations
  import opened Loop
  import opened IntentLog
  import opened ExactlyOnce
  import opened Approvals
  import Keys

  // ------------------------------------------------------------------ calls owed a stamp

  /** Of these calls, each that has a result on record has a stamped one. */
  ghost predicate Paid(owed: set<nat>, es: seq<Entry>) {
    forall k | k in owed && Resolved(es, Some(k)) :: Stamped(es, k)
  }

  /** In the store and in memory alike. */
  ghost predicate AllPaid(owed: set<nat>, s: State) {
    && Paid(owed, s.store.conversation.entries)
    && (s.turn.Some? ==> Paid(owed, s.turn.value.conversation.entries))
  }

  ghost predicate Ran(xs: seq<Execution>, key: nat) {
    exists x :: x in xs && x.key == key
  }

  /** Recovery can tell that a call that needed an approval landed: its Operation is still granted, still
      asks for one, and either only reads or says itself that the call came to a value. */
  predicate Vouched(granted: map<string, Grant>, intent: Entry, verdict: Option<Outcome>) {
    && intent.toolName in granted && granted[intent.toolName].requiresApproval
    && (granted[intent.toolName].mutating ==> granted[intent.toolName].reconciles && verdict == Some(Value))
  }

  /** The stamp recovery gives is the intent's own arguments, exactly when the call is vouched for. */
  lemma RecoveryStamps(granted: map<string, Grant>, intent: Entry, verdict: Option<Outcome>)
    ensures SettledStamp(granted, intent, Settlement(granted, intent, verdict))
            == if Vouched(granted, intent, verdict) then Some(ArgsHash(intent.toolArgs)) else None
  {
  }

  /** What recovery settles is the call that ran under the intent's key, if one did. */
  lemma IntentNamesTheCall(s: State, x: Execution)
    requires Good(s) && s.turn.Some? && s.turn.value.phase.Reconciling? && x in s.store.executions
    requires s.turn.value.phase.intent.key == Some(x.key)
    ensures s.turn.value.phase.intent.toolName == x.operation
  {
    assert Announced(s.store, x);
  }

  /** A step that puts the result of a call owed a stamp on record stamps it. */
  ghost predicate Stamping(owed: set<nat>, s: State, step: Step) {
    && (step.Record? && s.turn.Some? && s.turn.value.phase.Executed? ==>
          var p := s.turn.value.phase; (p.yes.Some? && p.outcome.Value?) || p.key !in owed)
    && (step.Reconcile? && s.turn.Some? && s.turn.value.phase.Reconciling? ==>
          var intent := s.turn.value.phase.intent;
          Vouched(s.turn.value.granted, intent, step.verdict) || (intent.key.Some? ==> intent.key.value !in owed))
  }

  lemma PaidAppend(owed: set<nat>, es: seq<Entry>, row: Entry)
    requires Paid(owed, es)
    requires row.kind == ToolResult && row.argsHash.None? && row.key.Some? ==> row.key.value !in owed
    ensures Paid(owed, Append(es, row))
  {
    var late := Append(es, row);
    forall k | k in owed && Resolved(late, Some(k)) ensures Stamped(late, k) {
      ResolvedGrows(es, row, Some(k));
      if Resolved(es, Some(k)) {
        var i :| 0 <= i < |es| && es[i].kind == ToolResult && es[i].key == Some(k) && es[i].argsHash.Some?;
        assert late[i] == es[i];
      } else {
        assert late[|es|].kind == ToolResult && late[|es|].key == Some(k) && late[|es|].argsHash.Some?;
      }
    }
  }

  lemma PaidIgnoresUsage(owed: set<nat>, a: seq<Entry>, b: seq<Entry>)
    requires Paid(owed, a) && |a| == |b| && Grown(a, b)
    ensures Paid(owed, b)
  {
  }

  lemma PaidFewer(fewer: set<nat>, owed: set<nat>, s: State)
    requires AllPaid(owed, s) && fewer <= owed
    ensures AllPaid(fewer, s)
  {
  }

  lemma CallStaysPaid(cfg: Config, s: State, step: Step, owed: set<nat>)
    requires Good(s) && AllPaid(owed, s) && Enabled(cfg, s, step) && (step.Intend? || step.Gate? || step.Ask?)
    requires forall k | k in owed :: Ran(s.store.executions, k)
    ensures Paid(owed, Apply(cfg, s, step).turn.value.conversation.entries)
  {
    hide WellLogged, OpenKey, HasIntent, EndsInIntent, UnresolvedIntent, FindApproval, RequestCount, GoodStore, Append,
      Paid, Grown, NextSeq, Plus, Raise, GuardTurn, ReconcileStep, AttemptStep, RecordStep, ToEscalation;
    var t := s.turn.value;
    var es := t.conversation.entries;
    match step
    case Intend =>
      var first := t.costEntry.None?;
      PaidAppend(owed, es, IntentRow(t.calls[0], if first then t.narration else "", NextSeq(es),
                                     if first then t.bill else NoUsage));
    case Gate(_) => PaidAppend(owed, es, ResultRow(t.phase.call.operation, Some(t.phase.key), None));
    case Ask =>
      var call := t.phase.call;
      var hash := ArgsHash(call.args);
      var key := Keys.ApprovalKey(hash, RequestCount(es, call.operation, hash) + 1);
      var row := RequestRow(call.operation, hash, Raise(s.store.questions, key).1);
      PaidAppend(owed, es, row);
      PaidAppend(owed, Append(es, row), ResultRow(call.operation, Some(t.phase.key), None));
  }

  lemma ModelStaysPaid(cfg: Config, s: State, step: Step, owed: set<nat>)
    requires Good(s) && AllPaid(owed, s) && Enabled(cfg, s, step) && Stamping(owed, s, step)
    requires step.Guard? || step.Reconcile? || step.Attempt? || step.GiveUp?
    ensures Paid(owed, Apply(cfg, s, step).turn.value.conversation.entries)
  {
    hide WellLogged, OpenKey, HasIntent, EndsInIntent, BuildMessages, UnresolvedIntent, GoodStore, FindByKey, Append,
      Paid, Grown, Settlement, SettledStamp, Vouched, Plus, TurnLimit, IntendStep, GateTurn, AskStep, ExecuteStep,
      RecordStep;
    var t := s.turn.value;
    var es := t.conversation.entries;
    PaidAppend(owed, es, PlainRow(ErrorNote, "stuck"));
    match step
    case Guard(_, _) => PaidAppend(owed, es, PlainRow(ErrorNote, "full"));
    case Reconcile(verdict) =>
      var intent := t.phase.intent;
      var row := ResultRow(intent.toolName, intent.key,
                           SettledStamp(t.granted, intent, Settlement(t.granted, intent, verdict)));
      RecoveryStamps(t.granted, intent, verdict);
      PaidAppend(owed, es, row);
      PaidAppend(owed, Append(es, row), PlainRow(ErrorNote, "stuck"));
    case Attempt(reply) =>
      PaidAppend(owed, es, PlainRow(ErrorNote, "transient"));
      if reply.Response? {
        var bill := if reply.usage.Some? then reply.usage.value else NoUsage;
        PaidAppend(owed, es, PlainRow(Reply, reply.text).(usage := bill));
      }
    case GiveUp =>
  }

  lemma RecordStaysPaid(cfg: Config, s: State, step: Step, owed: set<nat>)
    requires Good(s) && AllPaid(owed, s) && Enabled(cfg, s, step) && Stamping(owed, s, step) && step.Record?
    ensures Paid(owed, Apply(cfg, s, step).turn.value.conversation.entries)
  {
    hide WellLogged, OpenKey, HasIntent, EndsInIntent, Append, Paid, Grown, Plus, AddUsage, OperationUsage,
      GuardTurn, ReconcileStep, AttemptStep, IntendStep, GateTurn, AskStep, ExecuteStep, ToEscalation;
    var t := s.turn.value;
    var p := t.phase;
    var es := t.conversation.entries;
    var stamp := if p.yes.Some? && p.outcome.Value? then Some(ArgsHash(p.call.args)) else None;
    var row := ResultRow(p.call.operation, Some(p.key), stamp);
    PaidAppend(owed, es, row);
    var reported := OperationUsage(p.report);
    if reported.Some? {
      AppendLength(es, row);
      AddUsageGrows(Append(es, row), t.costEntry.value, reported.value);
      PaidIgnoresUsage(owed, Append(es, row), AddUsage(Append(es, row), t.costEntry.value, reported.value));
    }
  }

  /** Memory stays paid too, whatever step an advance takes. */
  lemma TurnStaysPaid(cfg: Config, s: State, step: Step, owed: set<nat>)
    requires Good(s) && AllPaid(owed, s) && Enabled(cfg, s, step) && Stamping(owed, s, step)
    requires forall k | k in owed :: Ran(s.store.executions, k)
    requires s.turn.Some? && Apply(cfg, s, step).turn.Some? && !step.Execute?
    ensures Paid(owed, Apply(cfg, s, step).turn.value.conversation.entries)
  {
    hide WellLogged, OpenKey, HasIntent, EndsInIntent, GoodStore, Append, Paid, Grown, Plus, Raise,
      GuardTurn, ReconcileStep, AttemptStep, IntendStep, GateTurn, AskStep, ExecuteStep, RecordStep, ToEscalation;
    match step
    case Guard(_, _) => ModelStaysPaid(cfg, s, step, owed);
    case Reconcile(_) => ModelStaysPaid(cfg, s, step, owed);
    case Attempt(_) => ModelStaysPaid(cfg, s, step, owed);
    case GiveUp => ModelStaysPaid(cfg, s, step, owed);
    case Intend => CallStaysPaid(cfg, s, step, owed);
    case Gate(_) => CallStaysPaid(cfg, s, step, owed);
    case Ask => CallStaysPaid(cfg, s, step, owed);
    case Record => RecordStaysPaid(cfg, s, step, owed);
    case _ =>
  }

  /** The call just run has no result yet, so owing it a stamp changes nothing. */
  lemma ExecuteStaysPaid(cfg: Config, s: State, step: Step, owed: set<nat>, more: set<nat>)
    requires Good(s) && AllPaid(owed, s) && Enabled(cfg, s, step) && step.Execute?
    requires more <= owed + {s.turn.value.phase.key}
    ensures AllPaid(more, Apply(cfg, s, step))
  {
    hide WellLogged, Grown, EndsInIntent, Stamped, UnresolvedIntent;
    var es := s.store.conversation.entries;
    OpenKeyReads(es);
    OpenKeyIsUnresolved(es);
  }

  lemma StepStaysPaid(cfg: Config, s: State, step: Step, owed: set<nat>)
    requires Good(s) && AllPaid(owed, s) && Enabled(cfg, s, step) && Stamping(owed, s, step) && !step.Execute?
    requires forall k | k in owed :: Ran(s.store.executions, k)
    ensures AllPaid(owed, Apply(cfg, s, step))
  {
    hide WellLogged, OpenKey, HasIntent, EndsInIntent, BuildMessages, UnresolvedIntent, FindApproval, RequestCount,
      GoodStore, FindByKey, Paid, Grown, NextSeq, Settlement, Good, Stamping;
    var es := s.store.conversation.entries;
    var next := Apply(cfg, s, step);
    match step
    case WatchAnswered(text) =>
      PaidAppend(owed, es, PlainRow(Answer, text).(questionId := s.store.conversation.currentQuestion));
    case WatchGone(_) => PaidAppend(owed, es, PlainRow(ErrorNote, "gone"));
    case WatchWoken => PaidAppend(owed, es, PlainRow(Timeout, "woken"));
    case Deliver(text) => PaidAppend(owed, es, PlainRow(Answer, text));
    case _ =>
      if s.turn.Some? && next.turn.Some? {
        TurnStaysPaid(cfg, s, step, owed);
      }
  }

  // ------------------------------------------------------------------ truthful runs

  /** The calls that landed under a yes. */
  ghost function LandedKeys(xs: seq<Execution>): set<nat> {
    set x | x in xs && x.landed && x.yes.Some? :: x.key
  }

  /** What the Operations are trusted for: `execute` answers nothing but a value over an effect that landed
      under a yes, and recovery can tell of every such call. */
  ghost predicate Truthful(s: State, step: Step) {
    && (step.Record? && s.turn.Some? && s.turn.value.phase.Executed? ==>
          s.turn.value.phase.outcome.Value? || s.turn.value.phase.key !in LandedKeys(s.store.executions))
    && (step.Reconcile? && s.turn.Some? && s.turn.value.phase.Reconciling? ==>
          var intent := s.turn.value.phase.intent;
          Vouched(s.turn.value.granted, intent, step.verdict)
          || (intent.key.Some? ==> intent.key.value !in LandedKeys(s.store.executions)))
  }

  ghost predicate TruthfulRun(cfg: Config, s: State, steps: seq<Step>)
    requires Legal(cfg, s, steps)
  {
    steps == [] ||
    (var before := steps[..|steps| - 1];
     TruthfulRun(cfg, s, before) && Truthful(Run(cfg, s, before), steps[|steps| - 1]))
  }

  ghost predicate Books(s: State) {
    AllPaid(LandedKeys(s.store.executions), s)
  }

  lemma KeyTellsTheYes(store: Store, t: Turn)
    requires GoodStore(store) && TurnApproved(store, t) && t.phase.Executed?
    ensures t.phase.key in LandedKeys(store.executions) ==> t.phase.yes.Some?
  {
  }

  lemma StepKeepsBooks(cfg: Config, s: State, step: Step)
    requires Good(s) && Approved(s) && Books(s) && Enabled(cfg, s, step) && Truthful(s, step)
    ensures Books(Apply(cfg, s, step))
  {
    hide AllPaid, Good, Apply, LandedKeys, Grown, Vouched, ExecutionsAuthorised, RepeatsAreUnspent, ConfirmedOnRecord;
    var owed := LandedKeys(s.store.executions);
    if step.Execute? {
      LandingAddsOne(cfg, s, step);
      ExecuteStaysPaid(cfg, s, step, owed, LandedKeys(Apply(cfg, s, step).store.executions));
    } else {
      OnlyExecuteExecutes(cfg, s, step);
      LandedHaveRun(s.store.executions);
      if step.Record? { KeyTellsTheYes(s.store, s.turn.value) by { GoodParts(s); } }
      StepStaysPaid(cfg, s, step, owed);
    }
  }

  lemma GoodParts(s: State)
    requires Good(s)
    ensures GoodStore(s.store)
  {
  }

  lemma LandedHaveRun(xs: seq<Execution>)
    ensures forall k | k in LandedKeys(xs) :: Ran(xs, k)
  {
  }

  lemma LandingAddsOne(cfg: Config, s: State, step: Step)
    requires Enabled(cfg, s, step) && step.Execute?
    ensures LandedKeys(Apply(cfg, s, step).store.executions)
            <= LandedKeys(s.store.executions) + {s.turn.value.phase.key}
  {
    hide Raise, Plus;
  }

  lemma {:induction false} RunKeepsBooks(cfg: Config, prompt: string, maxTurns: nat, steps: seq<Step>)
    requires Legal(cfg, Born(prompt, maxTurns), steps) && TruthfulRun(cfg, Born(prompt, maxTurns), steps)
    ensures Books(Run(cfg, Born(prompt, maxTurns), steps))
  {
    if steps != [] {
      var before := steps[..|steps| - 1];
      RunKeepsBooks(cfg, prompt, maxTurns, before);
      RunIsApproved(cfg, prompt, maxTurns, before);
      StepKeepsBooks(cfg, Run(cfg, Born(prompt, maxTurns), before), steps[|steps| - 1]);
    }
  }

  // ------------------------------------------------------------------ which question asked for what

  /** A request's question was raised under a key that carries the request's arguments. */
  ghost predicate AskedFor(questions: seq<Question>, es: seq<Entry>) {
    forall i | 0 <= i < |es| && es[i].kind == ApprovalRequest ::
      && es[i].questionId.Some? && es[i].questionId.value < |questions|
      && questions[es[i].questionId.value].key.ApprovalKey?
      && es[i].argsHash == Some(questions[es[i].questionId.value].key.argsHash)
  }

  ghost predicate Asked(s: State) {
    && AskedFor(s.store.questions, s.store.conversation.entries)
    && (s.turn.Some? ==> AskedFor(s.store.questions, s.turn.value.conversation.entries))
  }

  ghost predicate KeysKept(a: seq<Question>, b: seq<Question>) {
    |a| <= |b| && forall i | 0 <= i < |a| :: a[i].key == b[i].key
  }

  lemma AskedForLater(a: seq<Question>, b: seq<Question>, es: seq<Entry>)
    requires AskedFor(a, es) && KeysKept(a, b)
    ensures AskedFor(b, es)
  {
  }

  lemma AskedForGrows(questions: seq<Question>, a: seq<Entry>, b: seq<Entry>)
    requires AskedFor(questions, a) && Grown(a, b)
    requires forall i | |a| <= i < |b| :: b[i].kind != ApprovalRequest
    ensures AskedFor(questions, b)
  {
  }

  lemma QuestionKeysAreKept(cfg: Config, s: State, step: Step)
    requires Enabled(cfg, s, step)
    ensures KeysKept(s.store.questions, Apply(cfg, s, step).store.questions)
  {
    hide FindApproval, BuildMessages, UnresolvedIntent, RequestCount, Append, Settlement;
  }

  /** `b` is `a` with at most two rows added, a request among them only as the first. */
  ghost predicate RowsAdded(a: seq<Entry>, b: seq<Entry>, asks: bool) {
    && Grown(a, b) && |b| <= |a| + 2
    && (forall i | |a| <= i < |b| && b[i].kind == ApprovalRequest :: asks && i == |a|)
  }

  lemma NoRow(es: seq<Entry>)
    ensures RowsAdded(es, es, false)
  {
  }

  lemma OneRow(es: seq<Entry>, row: Entry)
    requires row.kind != ApprovalRequest
    ensures RowsAdded(es, Append(es, row), false)
  {
  }

  lemma TwoRows(es: seq<Entry>, row: Entry, then': Entry)
    requires then'.kind != ApprovalRequest
    ensures RowsAdded(es, Append(Append(es, row), then'), row.kind == ApprovalRequest)
  {
  }

  lemma OneRowAndTokens(es: seq<Entry>, row: Entry, at: nat, usage: Usage)
    requires row.kind != ApprovalRequest && at < |Append(es, row)|
    ensures RowsAdded(es, AddUsage(Append(es, row), at, usage), false)
  {
  }

  /** What one step adds to the in-memory log: at most two rows, and a request only when asking. */
  lemma TurnRows(cfg: Config, s: State, step: Step)
    requires Enabled(cfg, s, step) && s.turn.Some? && Apply(cfg, s, step).turn.Some?
    ensures RowsAdded(s.turn.value.conversation.entries, Apply(cfg, s, step).turn.value.conversation.entries, step.Ask?)
  {
    hide FindApproval, BuildMessages, UnresolvedIntent, RequestCount, FindByKey, NextSeq, Grown, Append, AddUsage,
      RowsAdded, Settlement;
    var t := s.turn.value;
    var es := t.conversation.entries;
    NoRow(es);
    OneRow(es, PlainRow(ErrorNote, "stuck"));
    match step
    case Guard(_, _) => OneRow(es, PlainRow(ErrorNote, "full"));
    case Reconcile(verdict) =>
      var intent := t.phase.intent;
      var row := ResultRow(intent.toolName, intent.key,
                           SettledStamp(t.granted, intent, Settlement(t.granted, intent, verdict)));
      OneRow(es, row);
      TwoRows(es, row, PlainRow(ErrorNote, "stuck"));
    case Attempt(reply) =>
      OneRow(es, PlainRow(ErrorNote, "transient"));
      if reply.Response? {
        OneRow(es, PlainRow(Reply, reply.text).(usage := if reply.usage.Some? then reply.usage.value else NoUsage));
      }
    case Intend =>
      var first := t.costEntry.None?;
      OneRow(es, IntentRow(t.calls[0], if first then t.narration else "", NextSeq(es),
                           if first then t.bill else NoUsage));
    case Gate(_) => OneRow(es, ResultRow(t.phase.call.operation, Some(t.phase.key), None));
    case Ask =>
      var call := t.phase.call;
      var hash := ArgsHash(call.args);
      var key := Keys.ApprovalKey(hash, RequestCount(es, call.operation, hash) + 1);
      TwoRows(es, RequestRow(call.operation, hash, Raise(s.store.questions, key).1),
              ResultRow(call.operation, Some(t.phase.key), None));
    case Record =>
      var p := t.phase;
      var row := ResultRow(p.call.operation, Some(p.key),
                           if p.yes.Some? && p.outcome.Value? then Some(ArgsHash(p.call.args)) else None);
      OneRow(es, row);
      var reported := OperationUsage(p.report);
      if reported.Some? {
        AppendLength(es, row);
        OneRowAndTokens(es, row, t.costEntry.value, reported.value);
      }
    case _ =>
  }

  lemma AppendLength(es: seq<Entry>, row: Entry)
    ensures |Append(es, row)| == |es| + 1
  {
  }

  lemma AskAsks(cfg: Config, s: State, step: Step)
    requires Asked(s) && Enabled(cfg, s, step) && step.Ask?
    ensures Asked(Apply(cfg, s, step))
  {
    hide WellLogged, FindApproval, BuildMessages, RequestCount, FindByKey, NextSeq, AskedFor;
    var t := s.turn.value;
    var es := t.conversation.entries;
    var hash := ArgsHash(t.phase.call.args);
    var key := Keys.ApprovalKey(hash, RequestCount(es, t.phase.call.operation, hash) + 1);
    var (questions, id) := Raise(s.store.questions, key);
    QuestionKeysAreKept(cfg, s, step);
    AskedForLater(s.store.questions, questions, es);
    AskedForLater(s.store.questions, questions, s.store.conversation.entries);
    var asked := Append(es, RequestRow(t.phase.call.operation, hash, id));
    RequestIsAsked(questions, es, RequestRow(t.phase.call.operation, hash, id));
    AskedForGrows(questions, asked, Append(asked, ResultRow(t.phase.call.operation, Some(t.phase.key), None)));
  }

  lemma RequestIsAsked(questions: seq<Question>, es: seq<Entry>, row: Entry)
    requires AskedFor(questions, es) && row.kind == ApprovalRequest
    requires row.questionId.Some? && row.questionId.value < |questions|
    requires questions[row.questionId.value].key.ApprovalKey?
    requires row.argsHash == Some(questions[row.questionId.value].key.argsHash)
    ensures AskedFor(questions, Append(es, row))
  {
  }

  lemma StepAsks(cfg: Config, s: State, step: Step)
    requires Good(s) && Asked(s) && Enabled(cfg, s, step)
    ensures Asked(Apply(cfg, s, step))
  {
    hide WellLogged, OpenKey, FindApproval, BuildMessages, UnresolvedIntent, RequestCount, FindByKey, NextSeq, AskedFor,
      GoodStore, GoodTurn, KeysKept, Settlement;
    var next := Apply(cfg, s, step);
    var P, Q := s.store.conversation.entries, next.store.conversation.entries;
    QuestionKeysAreKept(cfg, s, step);
    AskedForLater(s.store.questions, next.store.questions, P);
    if step.Ask? {
      AskAsks(cfg, s, step);
    } else {
      if s.turn.Some? {
        AskedForLater(s.store.questions, next.store.questions, s.turn.value.conversation.entries);
        if next.turn.Some? {
          TurnRows(cfg, s, step);
          AskedForGrows(next.store.questions, s.turn.value.conversation.entries, next.turn.value.conversation.entries);
        }
      } else if Q != P {
        WatchedRow(cfg, s, step);
        AskedForGrows(next.store.questions, P, Q);
      }
    }
  }

  lemma WatchedRow(cfg: Config, s: State, step: Step)
    requires Enabled(cfg, s, step) && s.turn.None?
    ensures var P, Q := s.store.conversation.entries, Apply(cfg, s, step).store.conversation.entries;
            Grown(P, Q) && |Q| <= |P| + 1 && forall i | |P| <= i < |Q| :: Q[i].kind != ApprovalRequest
  {
    hide FindApproval, BuildMessages, UnresolvedIntent, RequestCount, FindByKey, NextSeq;
  }

  lemma {:induction false} RunAsks(cfg: Config, prompt: string, maxTurns: nat, steps: seq<Step>)
    requires Legal(cfg, Born(prompt, maxTurns), steps)
    ensures Asked(Run(cfg, Born(prompt, maxTurns), steps))
  {
    if steps != [] {
      var before := steps[..|steps| - 1];
      RunAsks(cfg, prompt, maxTurns, before);
      RunKeeps(cfg, prompt, maxTurns, before);
      StepAsks(cfg, Run(cfg, Born(prompt, maxTurns), before), steps[|steps| - 1]);
    }
  }

  // ------------------------------------------------------------------ one yes, one booking

  /** No question was recorded as the approval of two different Operations. */
  ghost predicate SoleOperations(es: seq<Entry>) {
    forall i, j | 0 <= i < |es| && 0 <= j < |es| && es[i].kind == ApprovalRequest && es[j].kind == ApprovalRequest
                  && es[i].questionId == es[j].questionId :: es[i].toolName == es[j].toolName
  }

  lemma SameYesSameArguments(store: Store, x: Execution, y: Execution)
    requires ExecutionsAuthorised(store) && AskedFor(store.questions, store.conversation.entries)
    requires x in store.executions && y in store.executions && x.yes.Some? && x.yes == y.yes
    ensures ArgsHash(x.args) == ArgsHash(y.args)
    ensures SoleOperations(store.conversation.entries) ==> SameCall(x, y)
  {
  }

  /** In a truthful run where no question serves two Operations, each confirmed question pays for at
      most one landed effect: two landed approved executions never share a yes. */
  lemma EachYesPaysForOneEffect(cfg: Config, prompt: string, maxTurns: nat, steps: seq<Step>)
    requires Legal(cfg, Born(prompt, maxTurns), steps) && TruthfulRun(cfg, Born(prompt, maxTurns), steps)
    ensures var store := Run(cfg, Born(prompt, maxTurns), steps).store;
            var xs := store.executions;
            && (forall x | x in xs && x.yes.Some? :: x.yes.value in store.confirmed)
            && (forall i, j | 0 <= i < j < |xs| && xs[i].yes.Some? && xs[i].yes == xs[j].yes ::
                  ArgsHash(xs[i].args) == ArgsHash(xs[j].args))
            && (SoleOperations(store.conversation.entries) ==>
                  forall i, j | 0 <= i < j < |xs| && xs[i].landed && xs[j].landed && xs[i].yes.Some? ::
                    xs[i].yes != xs[j].yes)
  {
    RunIsApproved(cfg, prompt, maxTurns, steps);
    RunKeepsBooks(cfg, prompt, maxTurns, steps);
    RunAsks(cfg, prompt, maxTurns, steps);
    var store := Run(cfg, Born(prompt, maxTurns), steps).store;
    var xs := store.executions;
    forall x | x in xs && x.yes.Some? ensures x.yes.value in store.confirmed {
      assert Authorised(store.conversation.entries, store.confirmed, x.operation, x.args, x.key, x.yes.value);
    }
    forall i, j | 0 <= i < j < |xs| && xs[i].yes.Some? && xs[i].yes == xs[j].yes
      ensures ArgsHash(xs[i].args) == ArgsHash(xs[j].args)
      ensures SoleOperations(store.conversation.entries) ==> !xs[i].landed
    {
      SameYesSameArguments(store, xs[i], xs[j]);
    }
  }

  // ------------------------------------------------------------------ without a yes

  /** The latest request for this call is q, its question is there, and nobody has said yes to it. */
  ghost predicate Unconfirmed(es: seq<Entry>, questions: seq<Question>, operation: string, hash: string, q: nat,
                              count: nat)
  {
    && LastRequest(es, operation, hash).Some?
    && LastRequest(es, operation, hash).value.questionId == Some(q)
    && RequestCount(es, operation, hash) == count
    && q < |questions| && questions[q].live && questions[q].confirmed != Some(true)
  }

  ghost predicate Blocked(s: State, operation: string, hash: string, q: nat, count: nat) {
    && Unconfirmed(s.store.conversation.entries, s.store.questions, operation, hash, q, count)
    && (s.turn.Some? ==>
          var t := s.turn.value;
          && Unconfirmed(t.conversation.entries, s.store.questions, operation, hash, q, count)
          && (t.phase.Asking? ==> !(t.phase.call.operation == operation && ArgsHash(t.phase.call.args) == hash))
          && (t.phase.Executing? && t.phase.yes.Some? ==>
                !(t.phase.call.operation == operation && ArgsHash(t.phase.call.args) == hash)))
  }

  lemma {:induction false} RequestsStay(a: seq<Entry>, b: seq<Entry>, operation: string, hash: string)
    requires Grown(a, b) && forall i | |a| <= i < |b| :: !IsRequest(b[i], operation, hash)
    ensures RequestCount(b, operation, hash) == RequestCount(a, operation, hash)
    ensures LastRequest(b, operation, hash).Some? <==> LastRequest(a, operation, hash).Some?
    ensures LastRequest(a, operation, hash).Some? ==>
              LastRequest(b, operation, hash).value.questionId == LastRequest(a, operation, hash).value.questionId
    decreases |b|
  {
    if |b| > |a| {
      RequestsStay(a, b[..|b| - 1], operation, hash);
    } else if b != [] {
      assert SameButUsage(a[|a| - 1], b[|b| - 1]);
      var x, y := a[..|a| - 1], b[..|b| - 1];
      forall i | 0 <= i < |x| ensures SameButUsage(x[i], y[i]) {
        assert SameButUsage(a[i], b[i]);
      }
      RequestsStay(a[..|a| - 1], b[..|b| - 1], operation, hash);
    }
  }

  lemma UnconfirmedStays(a: seq<Entry>, b: seq<Entry>, old': seq<Question>, new': seq<Question>,
                         operation: string, hash: string, q: nat, count: nat)
    requires Unconfirmed(a, old', operation, hash, q, count) && Grown(a, b)
    requires forall i | |a| <= i < |b| :: !IsRequest(b[i], operation, hash)
    requires q < |new'| && new'[q].live && new'[q].confirmed != Some(true)
    ensures Unconfirmed(b, new', operation, hash, q, count)
  {
    RequestsStay(a, b, operation, hash);
  }

  /** Nobody says yes to q or deletes it, and the gate, when it looks at q, can read it. */
  ghost predicate Withholds(s: State, step: Step, q: nat) {
    && !(step.SetAnswer? && step.question == q && step.confirmed == Some(true))
    && !(step.Delete? && step.question == q)
    && !(step == Gate(false) && LooksAt(s, q))
  }

  /** The call at the gate was last asked about with q. */
  ghost predicate LooksAt(s: State, q: nat) {
    && s.turn.Some? && s.turn.value.phase.Gating?
    && var call := s.turn.value.phase.call;
       var request := LastRequest(s.turn.value.conversation.entries, call.operation, ArgsHash(call.args));
       request.Some? && request.value.questionId == Some(q)
  }

  ghost predicate WithheldRun(cfg: Config, s: State, steps: seq<Step>, q: nat)
    requires Legal(cfg, s, steps)
  {
    steps == [] ||
    (var before := steps[..|steps| - 1];
     WithheldRun(cfg, s, before, q) && Withholds(Run(cfg, s, before), steps[|steps| - 1], q))
  }

  lemma QuestionStays(cfg: Config, s: State, step: Step, q: nat)
    requires Enabled(cfg, s, step) && Withholds(s, step, q)
    requires q < |s.store.questions| && s.store.questions[q].live && s.store.questions[q].confirmed != Some(true)
    ensures var questions := Apply(cfg, s, step).store.questions;
            q < |questions| && questions[q].live && questions[q].confirmed != Some(true)
  {
    hide FindApproval, BuildMessages, UnresolvedIntent, RequestCount, Append, Settlement;
  }

  lemma AskedRow(cfg: Config, s: State, step: Step, operation: string, hash: string)
    requires Enabled(cfg, s, step) && step.Ask?
    requires !(s.turn.value.phase.call.operation == operation && ArgsHash(s.turn.value.phase.call.args) == hash)
    ensures var V, W := s.turn.value.conversation.entries, Apply(cfg, s, step).turn.value.conversation.entries;
            forall i | |V| <= i < |W| :: !IsRequest(W[i], operation, hash)
  {
    hide FindApproval, BuildMessages, UnresolvedIntent, RequestCount, FindByKey, NextSeq;
  }

  lemma BlockedIsLookedAt(s: State, operation: string, hash: string, q: nat, count: nat)
    requires Blocked(s, operation, hash, q, count) && s.turn.Some? && s.turn.value.phase.Gating?
    ensures s.turn.value.phase.call.operation == operation && ArgsHash(s.turn.value.phase.call.args) == hash ==>
              LooksAt(s, q)
  {
    hide ArgsHash;
  }

  lemma GateHoldsBack(es: seq<Entry>, questions: seq<Question>, operation: string, hash: string, q: nat, count: nat)
    requires Unconfirmed(es, questions, operation, hash, q, count)
    ensures FindApproval(es, operation, hash, questions)
            == if questions[q].confirmed == Some(false) || questions[q].spoken then Declined(q) else Pending(q)
  {
  }

  /** Whatever a step writes is the log as it was, as it stood in memory, or as it now stands there. */
  lemma WhatIsWritten(cfg: Config, s: State, step: Step)
    requires Enabled(cfg, s, step) && s.turn.Some?
    ensures var next := Apply(cfg, s, step);
            var written := next.store.conversation.entries;
            || written == s.store.conversation.entries
            || written == s.turn.value.conversation.entries
            || (next.turn.Some? && written == next.turn.value.conversation.entries)
  {
    hide FindApproval, BuildMessages, UnresolvedIntent, RequestCount, Raise, Append, Settlement, SettledStamp, AddUsage,
      Plus, TurnLimit, NextSeq, OperationUsage, ToEscalation, GuardTurn, GateTurn;
  }

  lemma StepHoldsBack(cfg: Config, s: State, step: Step, operation: string, hash: string, q: nat, count: nat)
    requires Blocked(s, operation, hash, q, count) && Enabled(cfg, s, step) && Withholds(s, step, q)
    ensures Blocked(Apply(cfg, s, step), operation, hash, q, count)
    ensures forall x | x in Apply(cfg, s, step).store.executions && x !in s.store.executions ::
              x.yes.None? || x.operation != operation || ArgsHash(x.args) != hash
  {
    hide FindApproval, Unconfirmed, Append, GuardTurn, ReconcileStep, AttemptStep, IntendStep, EndCallsStep, AskStep,
      RecordStep, CommitStep, EscalateStep, ToEscalation, BeginTurn, Raise, Plus, ArgsHash, Grown, RowsAdded, LooksAt,
      Readable;
    var next := Apply(cfg, s, step);
    var P := s.store.conversation.entries;
    var old', new' := s.store.questions, next.store.questions;
    UnconfirmedQuestion(P, old', operation, hash, q, count);
    QuestionStays(cfg, s, step, q);
    GrownSelf(P);
    UnconfirmedStays(P, P, old', new', operation, hash, q, count);
    if !step.Execute? { OnlyExecuteExecutes(cfg, s, step); }
    if s.turn.Some? {
      var V := s.turn.value.conversation.entries;
      GrownSelf(V);
      UnconfirmedStays(V, V, old', new', operation, hash, q, count);
      GateHoldsBack(V, old', operation, hash, q, count);
      if step.Gate? {
        BlockedIsLookedAt(s, operation, hash, q, count);
        UnreadIsMissing(V, operation, hash, old', step.read);
      }
      WhatIsWritten(cfg, s, step);
      if next.turn.Some? {
        OnlyTheGateLetsThrough(cfg, s, step);
        StepAddsNoRequest(cfg, s, step, operation, hash);
        UnconfirmedStays(V, next.turn.value.conversation.entries, old', new', operation, hash, q, count);
      }
    } else {
      IdleAddsNoRequest(cfg, s, step, operation, hash);
      UnconfirmedStays(P, next.store.conversation.entries, old', new', operation, hash, q, count);
    }
  }

  /** At the gate again with a question nobody has said yes to: the User is asked again exactly when that
      question could not be read; a decline is then put to them once more. */
  lemma AskedAgainExactlyWhen(s: State, read: bool, operation: string, hash: string, q: nat, count: nat)
    requires Blocked(s, operation, hash, q, count) && s.turn.Some? && s.turn.value.phase.Gating?
    requires s.turn.value.phase.call.operation == operation && ArgsHash(s.turn.value.phase.call.args) == hash
    requires operation in s.turn.value.granted && s.turn.value.granted[operation].requiresApproval
    ensures GateTurn(s.turn.value, Readable(s.store.questions, read)).phase.Asking? <==> !read
  {
    hide FindApproval, Append, ArgsHash, Unconfirmed, Readable;
    var es := s.turn.value.conversation.entries;
    UnreadIsMissing(es, operation, hash, s.store.questions, read);
    GateHoldsBack(es, s.store.questions, operation, hash, q, count);
  }

  lemma StepAddsNoRequest(cfg: Config, s: State, step: Step, operation: string, hash: string)
    requires Enabled(cfg, s, step) && s.turn.Some? && Apply(cfg, s, step).turn.Some?
    requires s.turn.value.phase.Asking? ==>
               !(s.turn.value.phase.call.operation == operation && ArgsHash(s.turn.value.phase.call.args) == hash)
    ensures var V, W := s.turn.value.conversation.entries, Apply(cfg, s, step).turn.value.conversation.entries;
            Grown(V, W) && forall i | |V| <= i < |W| :: !IsRequest(W[i], operation, hash)
  {
    hide Apply;
    TurnRows(cfg, s, step);
    if step.Ask? { AskedRow(cfg, s, step, operation, hash); }
  }

  lemma IdleAddsNoRequest(cfg: Config, s: State, step: Step, operation: string, hash: string)
    requires Enabled(cfg, s, step) && s.turn.None?
    ensures var P, Q := s.store.conversation.entries, Apply(cfg, s, step).store.conversation.entries;
            Grown(P, Q) && forall i | |P| <= i < |Q| :: !IsRequest(Q[i], operation, hash)
    ensures Apply(cfg, s, step).turn.Some? ==>
              step.Begin? && Apply(cfg, s, step).turn.value.conversation.entries == s.store.conversation.entries
              && Apply(cfg, s, step).turn.value.phase.Guards?
  {
    hide Append, Grown;
    WatchedRow(cfg, s, step);
  }

  lemma UnconfirmedQuestion(es: seq<Entry>, questions: seq<Question>, operation: string, hash: string, q: nat,
                            count: nat)
    requires Unconfirmed(es, questions, operation, hash, q, count)
    ensures q < |questions| && questions[q].live && questions[q].confirmed != Some(true)
  {
  }

  lemma GrownSelf(es: seq<Entry>)
    ensures Grown(es, es)
  {
  }

  /** While nobody says yes to the latest question about a call, nobody deletes it, and the gate can read
      it whenever it looks at it, no run executes that call under an approval and no second question is
      asked: an unanswered request gains no sibling, and a decline is final. */
  lemma {:induction false} WithoutAYesNothingRuns(cfg: Config, s: State, more: seq<Step>,
                                                  operation: string, hash: string, q: nat, count: nat)
    requires Legal(cfg, s, more) && WithheldRun(cfg, s, more, q)
    requires Blocked(s, operation, hash, q, count)
    ensures Blocked(Run(cfg, s, more), operation, hash, q, count)
    ensures forall x | x in Run(cfg, s, more).store.executions && x !in s.store.executions ::
              x.yes.None? || x.operation != operation || ArgsHash(x.args) != hash
  {
    if more != [] {
      var before := more[..|more| - 1];
      WithoutAYesNothingRuns(cfg, s, before, operation, hash, q, count);
      StepHoldsBack(cfg, Run(cfg, s, before), more[|more| - 1], operation, hash, q, count);
    }
  }

  // ------------------------------------------------------------------ one key, two Operations

  /** No two live questions share a key. */
  ghost predicate UniqueLive(questions: seq<Question>) {
    forall i, j | 0 <= i < j < |questions| && questions[i].live && questions[j].live ::
      questions[i].key != questions[j].key
  }

  /** Search-then-create never makes a second live question under a key, and hands back an existing
      question exactly when it carries the key asked for: an orphan of a crash is adopted. */
  lemma RaiseAdopts(questions: seq<Question>, key: Keys.Key)
    requires UniqueLive(questions)
    ensures UniqueLive(Raise(questions, key).0)
    ensures forall q | 0 <= q < |questions| && questions[q].live ::
              Raise(questions, key).1 == q <==> questions[q].key == key
    ensures Raise(Raise(questions, key).0, key) == Raise(questions, key)
  {
  }

  /** The approval key does not name the Operation. So a second Operation called with the arguments
      of an approved call reads as approved by the same yes, exactly when it is asked about for the
      attempt number the first one's question carries. */
  lemma YesCarriesOver(es: seq<Entry>, questions: seq<Question>, other: string, hash: string, q: nat, attempt: nat)
    requires UniqueLive(questions) && q < |questions| && questions[q].live
    requires questions[q].key == Keys.ApprovalKey(hash, attempt) && questions[q].confirmed == Some(true)
    requires FirstAnswer(es, q).Some?
    requires forall e | e in es :: !IsStamp(e, other, hash)
    ensures var (raised, id) := Raise(questions, Keys.ApprovalKey(hash, RequestCount(es, other, hash) + 1));
            FindApproval(Append(es, RequestRow(other, hash, id)), other, hash, raised) == Valid(q)
            <==> RequestCount(es, other, hash) + 1 == attempt
  {
    hide RequestCount, Raise, NextSeq;
    var key := Keys.ApprovalKey(hash, RequestCount(es, other, hash) + 1);
    var (raised, id) := Raise(questions, key);
    RaiseAdopts(questions, key);
    var row := RequestRow(other, hash, id);
    var late := Append(es, row);
    FirstAnswerOfPrefix(es, [row.(seqNo := NextSeq(es))], q);
    assert LastRequest(late, other, hash) == Some(late[|es|]);
    assert forall i | 0 <= i < |es| :: late[i] == es[i] && es[i] in es;
    assert !IsStamp(late[|es|], other, hash);
  }
}
