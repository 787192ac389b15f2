/** Over every run, crashing anywhere: no Operation is invoked twice under one key, and every
    invocation was announced by a durable intent. */
module ExactlyOnce {
  import opened Wrappers
  import opened CanonicalJson
  import opened Conversations
  import opened Loop
  import opened IntentLog

  ghost predicate Announced(store: Store, x: Execution) {
    HasIntent(store.conversation.entries, x.key, Call(x.operation, x.args))
  }

  ghost predicate GoodStore(store: Store) {
    && WellLogged(store.conversation.entries)
    && (forall x | x in store.executions :: Announced(store, x))
    && (forall i, j | 0 <= i < j < |store.executions| :: store.executions[i].key != store.executions[j].key)
  }

  /** The call in hand: announced, durable, and the one intent still open. */
  ghost predicate InHand(store: Store, t: Turn, call: Call, key: nat) {
    && t.conversation.entries == store.conversation.entries
    && OpenKey(t.conversation.entries) == Some(key)
    && EndsInIntent(t.conversation.entries, key, call)
    && t.costEntry.Some? && t.costEntry.value < |t.conversation.entries|
  }

  ghost predicate Fresh(store: Store, key: nat) {
    forall x | x in store.executions :: x.key != key
  }

  ghost predicate GoodTurn(store: Store, t: Turn) {
    && WellLogged(t.conversation.entries)
    && Grown(store.conversation.entries, t.conversation.entries)
    && match t.phase
       case Guards => t.conversation.entries == store.conversation.entries
       case Reconciling(intent) =>
         && t.conversation.entries == store.conversation.entries
         && UnresolvedIntent(t.conversation.entries) == Some(intent)
       case Prompting(_, _) => OpenKey(t.conversation.entries) == None
       case Calling =>
         && OpenKey(t.conversation.entries) == None
         && (t.costEntry.Some? ==> t.costEntry.value < |t.conversation.entries|)
       case Gating(call, key) => InHand(store, t, call, key) && Fresh(store, key)
       case Asking(call, key) => InHand(store, t, call, key) && Fresh(store, key)
       case Executing(call, key, _) => InHand(store, t, call, key) && Fresh(store, key)
       case Executed(call, key, _, _, _, _, _) => InHand(store, t, call, key)
       case _ => true
  }

  ghost predicate Good(s: State) {
    GoodStore(s.store) && (s.turn.Some? ==> GoodTurn(s.store, s.turn.value))
  }

  // ------------------------------------------------------------------ pieces of a step

  /** A well-logged extension of the log keeps every announcement. */
  lemma WriteKeeps(store: Store, c: Conversation)
    requires GoodStore(store) && WellLogged(c.entries) && Grown(store.conversation.entries, c.entries)
    ensures GoodStore(store.(conversation := c)) && Grown(c.entries, c.entries)
  {
  }

  lemma AppendGrows(es: seq<Entry>, row: Entry)
    ensures Grown(es, Append(es, row))
  {
  }

  lemma UnkeyedTurn(store: Store, t: Turn, c: Conversation, row: Entry)
    requires GoodTurn(store, t) && c.entries == t.conversation.entries && Unkeyed(row)
    ensures WellLogged(Appended(c, row).entries)
    ensures Grown(store.conversation.entries, Appended(c, row).entries)
    ensures OpenKey(Appended(c, row).entries) == OpenKey(c.entries)
  {
    UnkeyedKeeps(c.entries, row);
    AppendGrows(c.entries, row);
    GrownTrans(store.conversation.entries, c.entries, Appended(c, row).entries);
  }

  lemma ResultTurn(store: Store, t: Turn, c: Conversation, row: Entry)
    requires GoodTurn(store, t) && WellLogged(c.entries) && Grown(store.conversation.entries, c.entries)
    requires row.kind == ToolResult && row.key.Some? && row.key == OpenKey(c.entries)
    requires UnresolvedIntent(c.entries).Some? && Matches(row, UnresolvedIntent(c.entries).value)
    ensures WellLogged(Appended(c, row).entries)
    ensures Grown(store.conversation.entries, Appended(c, row).entries)
    ensures OpenKey(Appended(c, row).entries) == None
  {
    ResultKeeps(c.entries, row);
    AppendGrows(c.entries, row);
    GrownTrans(store.conversation.entries, c.entries, Appended(c, row).entries);
  }

  lemma NewKeyIsFresh(store: Store, t: Turn)
    requires GoodStore(store) && GoodTurn(store, t)
    ensures Fresh(store, NextSeq(t.conversation.entries))
  {
  }

  // ------------------------------------------------------------------ the steps

  lemma GuardKeeps(cfg: Config, s: State, step: Step)
    requires Good(s) && Enabled(cfg, s, step) && step.Guard?
    ensures Good(Apply(cfg, s, step))
  {
    hide WellLogged, Grown, OpenKey, HasIntent, Append, BuildMessages, UnresolvedIntent, FindApproval, RequestCount;
    var t := s.turn.value;
    var c := t.conversation;
    OpenKeyReads(c.entries);
    EscalationKeeps(s.store, t, c);
    UnkeyedTurn(s.store, t, c, PlainRow(ErrorNote, "full"));
    if step.assistant.Some? {
      var limit := TurnLimit(c, step.assistant.value);
      EscalationKeeps(s.store, t, c.(maxTurns := Some(limit + TURN_GRANT_ON_ESCALATION)));
    }
  }

  lemma EscalationKeeps(store: Store, t: Turn, c: Conversation)
    requires GoodTurn(store, t) && c.entries == t.conversation.entries
    ensures GoodTurn(store, ToEscalation(t, c))
  {
    UnkeyedTurn(store, t, c, PlainRow(ErrorNote, "stuck"));
  }

  lemma ReconcileKeeps(cfg: Config, s: State, step: Step)
    requires Good(s) && Enabled(cfg, s, step) && step.Reconcile?
    ensures Good(Apply(cfg, s, step))
  {
    hide WellLogged, Grown, OpenKey, HasIntent, Append, BuildMessages, UnresolvedIntent, FindApproval, RequestCount;
    var t := s.turn.value;
    var intent := t.phase.intent;
    OpenKeyReads(t.conversation.entries);
    var settled := Settlement(t.granted, intent, step.verdict);
    var row := ResultRow(intent.toolName, intent.key, SettledStamp(t.granted, intent, settled));
    var c := Appended(t.conversation, row);
    ResultTurn(s.store, t, t.conversation, row);
    WriteKeeps(s.store, c);
    if settled.None? {
      EscalationKeeps(s.store, t.(conversation := c, phase := Calling, costEntry := None), c);
    }
  }

  lemma AttemptKeeps(cfg: Config, s: State, step: Step)
    requires Good(s) && Enabled(cfg, s, step) && step.Attempt?
    ensures Good(Apply(cfg, s, step))
  {
    hide WellLogged, Grown, OpenKey, HasIntent, Append, BuildMessages, UnresolvedIntent, FindApproval,
      RequestCount, GuardTurn, TurnLimit, EscalateStep, CommitStep, ReconcileStep, SettledStamp, IntendStep,
      EndCallsStep, GateTurn, AskStep, ExecuteStep, RecordStep, AddUsage, BeginTurn, Watched, Plus, NextSeq, Fresh;
    var t := s.turn.value;
    if step.reply.Response? {
      ResponseKeeps(s, step.reply);
    } else {
      UnkeyedTurn(s.store, t, t.conversation, PlainRow(ErrorNote, "transient"));
      EscalationKeeps(s.store, t, t.conversation);
    }
  }

  lemma ResponseKeeps(s: State, reply: ModelReply)
    requires Good(s) && s.turn.Some? && s.turn.value.phase.Prompting? && reply.Response?
    ensures Good(AttemptStep(s, reply))
  {
    hide WellLogged, Grown, OpenKey, HasIntent, Append, NextSeq, Fresh, Plus;
    var t := s.turn.value;
    var counted := t.conversation.(turnCount := t.conversation.turnCount + 1);
    match reply.finish
    case Abnormal => EscalationKeeps(s.store, t, counted);
    case WantsTools =>
    case _ =>
      var bill := if reply.usage.Some? then reply.usage.value else NoUsage;
      UnkeyedTurn(s.store, t, counted, PlainRow(Reply, reply.text).(usage := bill));
  }

  lemma IntendKeeps(cfg: Config, s: State, step: Step)
    requires Good(s) && Enabled(cfg, s, step) && step.Intend?
    ensures Good(Apply(cfg, s, step))
  {
    hide WellLogged, Grown, OpenKey, Append, NextSeq, UnresolvedIntent, Plus, EndsInIntent, HasIntent;
    var t := s.turn.value;
    var es := t.conversation.entries;
    var first := t.costEntry.None?;
    var row := IntentRow(t.calls[0], if first then t.narration else "", NextSeq(es), if first then t.bill else NoUsage);
    IntentKeeps(es, row);
    AppendGrows(es, row);
    GrownTrans(s.store.conversation.entries, es, Append(es, row));
    var c := Appended(t.conversation, row);
    WriteKeeps(s.store, c);
    NewKeyIsFresh(s.store, t);
    AppendedEnds(es, t.calls[0], row);
  }

  lemma AppendedEnds(es: seq<Entry>, call: Call, row: Entry)
    requires row.kind == ToolIntent && row.key.Some? && row.toolName == call.operation && row.toolArgs == call.args
    ensures EndsInIntent(Append(es, row), row.key.value, call) && |Append(es, row)| == |es| + 1
  {
  }

  lemma GateKeeps(s: State, read: bool)
    requires Good(s) && s.turn.Some? && s.turn.value.phase.Gating?
    ensures Good(s.(turn := Some(GateTurn(s.turn.value, Readable(s.store.questions, read)))))
  {
    hide WellLogged, Grown, OpenKey, HasIntent, Append, UnresolvedIntent, FindApproval, Readable, GoodStore, NextSeq;
    var t := s.turn.value;
    var call, key := t.phase.call, t.phase.key;
    IntentInHandIsUnresolved(t.conversation.entries, key, call);
    ResultTurn(s.store, t, t.conversation, ResultRow(call.operation, Some(key), None));
  }

  lemma AskKeeps(s: State)
    requires Good(s) && s.turn.Some? && s.turn.value.phase.Asking?
    ensures Good(AskStep(s))
  {
    hide WellLogged, Grown, OpenKey, HasIntent, Append, UnresolvedIntent, RequestCount, Raise, NextSeq;
    var t := s.turn.value;
    var call, key := t.phase.call, t.phase.key;
    var hash := ArgsHash(call.args);
    var attempt := RequestCount(t.conversation.entries, call.operation, hash) + 1;
    var id := Raise(s.store.questions, Keys.ApprovalKey(hash, attempt)).1;
    var row := RequestRow(call.operation, hash, id);
    IntentInHandIsUnresolved(t.conversation.entries, key, call);
    UnkeyedTurn(s.store, t, t.conversation, row);
    UnkeyedKeeps(t.conversation.entries, row);
    ResultTurn(s.store, t, Appended(t.conversation, row), ResultRow(call.operation, Some(key), None));
  }

  lemma ExecuteKeeps(cfg: Config, s: State, step: Step)
    requires Good(s) && Enabled(cfg, s, step) && step.Execute?
    ensures Good(Apply(cfg, s, step))
  {
    var next := Apply(cfg, s, step);
    forall x | x in next.store.executions ensures Announced(next.store, x) {
      assert x in s.store.executions ==> Announced(s.store, x);
    }
  }

  lemma RecordKeeps(cfg: Config, s: State, step: Step)
    requires Good(s) && Enabled(cfg, s, step) && step.Record?
    ensures Good(Apply(cfg, s, step))
  {
    hide WellLogged, Grown, OpenKey, HasIntent, Append, BuildMessages, UnresolvedIntent, FindApproval,
      RequestCount, GuardTurn, TurnLimit, EscalateStep, CommitStep, ReconcileStep, SettledStamp, AttemptStep,
      IntendStep, EndCallsStep, GateTurn, AskStep, ExecuteStep, BeginTurn, Watched, ToEscalation, Plus;
    var t := s.turn.value;
    var p := t.phase;
    var stamp := if p.yes.Some? && p.outcome.Value? then Some(ArgsHash(p.call.args)) else None;
    var row := ResultRow(p.call.operation, Some(p.key), stamp);
    var c := Appended(t.conversation, row);
    IntentInHandIsUnresolved(t.conversation.entries, p.key, p.call);
    ResultTurn(s.store, t, t.conversation, row);
    var reported := OperationUsage(p.report);
    if reported.Some? {
      AddUsageGrows(c.entries, t.costEntry.value, reported.value);
      UsageKeeps(c.entries, AddUsage(c.entries, t.costEntry.value, reported.value));
      GrownTrans(s.store.conversation.entries, c.entries, AddUsage(c.entries, t.costEntry.value, reported.value));
    }
  }

  lemma WatchedKeeps(s: State, c: Conversation, row: Entry)
    requires Good(s) && s.turn.None? && c.entries == s.store.conversation.entries && Unkeyed(row)
    ensures Good(Watched(s, c, row))
  {
    hide WellLogged, OpenKey, HasIntent, UnresolvedIntent, Append;
    UnkeyedKeeps(c.entries, row);
    AppendGrows(c.entries, row);
    WriteKeeps(s.store, Appended(c, row));
  }

  lemma WatchKeeps(cfg: Config, s: State, step: Step)
    requires Good(s) && Enabled(cfg, s, step)
    requires step.WatchAnswered? || step.WatchGone? || step.WatchWoken? || step.Deliver?
    ensures Good(Apply(cfg, s, step))
  {
    hide Good, Watched, LoadQuestion;
    var c := s.store.conversation;
    var resumed := c.(status := Running, waitingFor := Nobody);
    match step
    case WatchAnswered(text) =>
      WatchedKeeps(s, resumed.(currentQuestion := None), PlainRow(Answer, text).(questionId := c.currentQuestion));
    case WatchGone(_) => WatchedKeeps(s, resumed.(currentQuestion := None), PlainRow(ErrorNote, "gone"));
    case WatchWoken => WatchedKeeps(s, resumed.(wakes := false), PlainRow(Timeout, "woken"));
    case Deliver(text) =>
      WatchedKeeps(s, resumed.(wakes := false), PlainRow(Answer, text));
      WatchedKeeps(s, c, PlainRow(Answer, text));
  }

  lemma StepKeeps(cfg: Config, s: State, step: Step)
    requires Good(s) && Enabled(cfg, s, step)
    ensures Good(Apply(cfg, s, step))
  {
    hide GuardTurn, ReconcileStep, AttemptStep, IntendStep, GateTurn, AskStep, ExecuteStep, RecordStep, Watched,
      ToEscalation, Readable, LoadQuestion, WellLogged, OpenKey, HasIntent, Append, Raise, Plus, UnresolvedIntent;
    match step
    case Guard(_, _) => GuardKeeps(cfg, s, step);
    case Reconcile(_) => ReconcileKeeps(cfg, s, step);
    case Attempt(_) => AttemptKeeps(cfg, s, step);
    case GiveUp => EscalationKeeps(s.store, s.turn.value, s.turn.value.conversation);
    case Intend => IntendKeeps(cfg, s, step);
    case Gate(read) => GateKeeps(s, read);
    case Ask => AskKeeps(s);
    case Execute(_, _, _, _) => ExecuteKeeps(cfg, s, step);
    case Record => RecordKeeps(cfg, s, step);
    case WatchAnswered(_) => WatchKeeps(cfg, s, step);
    case WatchGone(_) => WatchKeeps(cfg, s, step);
    case WatchWoken => WatchKeeps(cfg, s, step);
    case Deliver(_) => WatchKeeps(cfg, s, step);
    case Commit => WriteKeeps(s.store, s.turn.value.conversation);
    case LeaseExpires => WriteKeeps(s.store, s.store.conversation.(leased := false));
    case _ =>
      var next := Apply(cfg, s, step);
      assert next.store.conversation.entries == s.store.conversation.entries;
      WriteKeeps(s.store, next.store.conversation);
  }

  /** What these steps write, if they write, is one more row of what the advance holds in memory. */
  lemma WrittenRows(s: State, verdict: Option<Outcome>)
    requires Good(s) && s.turn.Some?
    ensures s.turn.value.phase.Reconciling? ==>
              Grown(s.store.conversation.entries, ReconcileStep(s, verdict).store.conversation.entries)
    ensures s.turn.value.calls != [] ==>
              Grown(s.store.conversation.entries, IntendStep(s).store.conversation.entries)
  {
    hide WellLogged, OpenKey, HasIntent, BuildMessages, UnresolvedIntent, Settlement, GoodStore, NextSeq, Fresh, Plus,
      SettledStamp;
    var P, V := s.store.conversation.entries, s.turn.value.conversation.entries;
    forall row ensures Grown(P, Append(V, row)) {
      AppendGrows(V, row);
      GrownTrans(P, V, Append(V, row));
    }
  }

  lemma MemoryOnly(s: State, reply: ModelReply, outcome: Outcome, landed: bool, report: Report, spent: Usage)
    requires s.turn.Some?
    ensures var t, c := s.turn.value, s.store.conversation;
            && (t.phase.Prompting? ==> AttemptStep(s, reply).store.conversation == c)
            && (t.phase.Executing? ==> ExecuteStep(s, outcome, landed, report, spent).store.conversation == c)
            && (t.phase.Asking? ==> AskStep(s).store.conversation == c)
            && (t.phase.Executed? && t.costEntry.Some? && t.costEntry.value < |t.conversation.entries| ==>
                  RecordStep(s).store.conversation == c)
  {
    hide Append, Plus, RequestCount, Raise, OperationUsage, AddUsage;
  }

  /** The persisted log is append-only: a step may add rows or tokens, never remove or reword a row. */
  lemma LogIsAppendOnly(cfg: Config, s: State, step: Step)
    requires Good(s) && Enabled(cfg, s, step)
    ensures Grown(s.store.conversation.entries, Apply(cfg, s, step).store.conversation.entries)
  {
    hide GuardTurn, ReconcileStep, AttemptStep, IntendStep, GateTurn, AskStep, ExecuteStep, RecordStep, ToEscalation,
      Append, GoodStore, Plus, Readable, LoadQuestion, WellLogged, OpenKey, UnresolvedIntent;
    var es := s.store.conversation.entries;
    match step
    case Reconcile(verdict) => WrittenRows(s, verdict);
    case Intend => WrittenRows(s, None);
    case Attempt(reply) => MemoryOnly(s, reply, Error, false, NoReport, NoUsage);
    case Execute(outcome, landed, report, spent) => MemoryOnly(s, Fatal(NoUsage), outcome, landed, report, spent);
    case Ask => MemoryOnly(s, Fatal(NoUsage), Error, false, NoReport, NoUsage);
    case Record => MemoryOnly(s, Fatal(NoUsage), Error, false, NoReport, NoUsage);
    case WatchAnswered(text) =>
      AppendGrows(es, PlainRow(Answer, text).(questionId := s.store.conversation.currentQuestion));
    case WatchGone(_) => AppendGrows(es, PlainRow(ErrorNote, "gone"));
    case WatchWoken => AppendGrows(es, PlainRow(Timeout, "woken"));
    case Deliver(text) => AppendGrows(es, PlainRow(Answer, text));
    case _ =>
  }

  lemma {:induction false} RunKeeps(cfg: Config, prompt: string, maxTurns: nat, steps: seq<Step>)
    requires Legal(cfg, Born(prompt, maxTurns), steps)
    ensures Good(Run(cfg, Born(prompt, maxTurns), steps))
  {
    if steps != [] {
      var before := steps[..|steps| - 1];
      RunKeeps(cfg, prompt, maxTurns, before);
      StepKeeps(cfg, Run(cfg, Born(prompt, maxTurns), before), steps[|steps| - 1]);
    }
  }

  // ------------------------------------------------------------------ what a reader can rely on

  /** In every state any run can reach: one invocation per key, each announced by a durable intent
      with its Operation and arguments; keys differ; at most the latest intent lacks a result. */
  lemma InvokedAtMostOncePerKey(cfg: Config, prompt: string, maxTurns: nat, steps: seq<Step>)
    requires Legal(cfg, Born(prompt, maxTurns), steps)
    ensures var store := Run(cfg, Born(prompt, maxTurns), steps).store;
            var es := store.conversation.entries;
            && (forall i, j | 0 <= i < j < |store.executions| ::
                  store.executions[i].key != store.executions[j].key)
            && (forall x | x in store.executions :: HasIntent(es, x.key, Call(x.operation, x.args)))
            && (forall i, j | 0 <= i < j < |es| && es[i].kind == ToolIntent && es[j].kind == ToolIntent ::
                  es[i].key != es[j].key && Resolved(es, es[i].key))
            && (forall i, j | 0 <= i < j < |es| && es[i].kind == ToolResult && es[j].kind == ToolResult ::
                  es[i].key != es[j].key)
  {
    RunKeeps(cfg, prompt, maxTurns, steps);
    var store := Run(cfg, Born(prompt, maxTurns), steps).store;
    forall x | x in store.executions ensures HasIntent(store.conversation.entries, x.key, Call(x.operation, x.args)) {
      assert Announced(store, x);
    }
  }

  lemma ExecutionsStep(cfg: Config, s: State, step: Step)
    requires Good(s) && Enabled(cfg, s, step)
    ensures var next := Apply(cfg, s, step).store.executions;
            if step.Execute? then
              && OpenKey(s.store.conversation.entries).Some?
              && Fresh(s.store, OpenKey(s.store.conversation.entries).value)
              && |next| == |s.store.executions| + 1 && s.store.executions < next
              && next[|s.store.executions|].key == OpenKey(s.store.conversation.entries).value
            else next == s.store.executions
  {
    hide WellLogged, Grown, OpenKey, HasIntent, Append, BuildMessages, UnresolvedIntent, FindApproval, RequestCount,
      FindByKey, GoodStore, AddUsage, Settlement;
  }

  /** Only `Execute` runs anything, and what it runs is the one intent still open, under a key nothing
      ran under before: recovery by itself runs nothing. */
  lemma OnlyFreshIntentsExecute(cfg: Config, prompt: string, maxTurns: nat, steps: seq<Step>)
    requires Legal(cfg, Born(prompt, maxTurns), steps) && steps != []
    ensures var past := Run(cfg, Born(prompt, maxTurns), steps[..|steps| - 1]).store;
            var now := Run(cfg, Born(prompt, maxTurns), steps).store;
            now.executions != past.executions ==>
              && steps[|steps| - 1].Execute? && OpenKey(past.conversation.entries).Some?
              && Fresh(past, OpenKey(past.conversation.entries).value)
              && |now.executions| == |past.executions| + 1 && past.executions < now.executions
              && now.executions[|past.executions|].key == OpenKey(past.conversation.entries).value
  {
    var before := steps[..|steps| - 1];
    RunKeeps(cfg, prompt, maxTurns, before);
    ExecutionsStep(cfg, Run(cfg, Born(prompt, maxTurns), before), steps[|steps| - 1]);
  }
}
