/** Both providers reject a tool call that is not answered at once. When does every list of messages
    the loop sends pair its calls with their results? */
module Pairing {
  import opened Wrappers
  import opened CanonicalJson
  import opened Conversations
  import opened Loop
  import opened IntentLog
  import opened ExactlyOnce
  import opened Runs
  import Keys

  // ------------------------------------------------------------------ what the providers ask for

  ghost predicate Answers(call: Message, result: Message) {
    call.ToolCallMessage? && result.ToolMessage? && call.id == result.id
  }

  /** Each call is followed at once by its result, and no result stands alone. */
  ghost predicate WellPaired(ms: seq<Message>) {
    && (forall i | 0 <= i < |ms| && ms[i].ToolCallMessage? :: i + 1 < |ms| && Answers(ms[i], ms[i + 1]))
    && (forall i | 0 <= i < |ms| && ms[i].ToolMessage? :: i > 0 && Answers(ms[i - 1], ms[i]))
  }

  /** Well paired but for a last call still waiting for its result. */
  ghost predicate HalfPaired(ms: seq<Message>, id: CallId) {
    ms != [] && var last := ms[|ms| - 1];
    last.ToolCallMessage? && last.id == id && WellPaired(ms[..|ms| - 1])
  }

  // ------------------------------------------------------------------ the log, read row by row

  datatype Reading = Closed | Open(id: CallId) | Broken

  function Read(r: Reading, e: Entry): Reading {
    match r
    case Closed =>
      if e.kind == ToolIntent then Open(MessageId(e)) else if e.kind == ToolResult then Broken else Closed
    case Open(id) =>
      if e.kind == ToolResult && MessageId(e) == id then Closed
      else if MessagesOf(e) == [] then Open(id)
      else Broken
    case Broken => Broken
  }

  function Scan(es: seq<Entry>): Reading {
    if es == [] then Closed else Read(Scan(es[..|es| - 1]), es[|es| - 1])
  }

  /** Whether the neighbours of message i are what it needs. */
  ghost predicate PairedAt(ms: seq<Message>, i: nat)
    requires i < |ms|
  {
    && (ms[i].ToolCallMessage? ==> i + 1 < |ms| && Answers(ms[i], ms[i + 1]))
    && (ms[i].ToolMessage? ==> i > 0 && Answers(ms[i - 1], ms[i]))
  }

  lemma PairedEverywhere(ms: seq<Message>)
    ensures WellPaired(ms) <==> forall i: nat | i < |ms| :: PairedAt(ms, i)
  {
    if forall i: nat | i < |ms| :: PairedAt(ms, i) {
      forall i | 0 <= i < |ms| && ms[i].ToolCallMessage? ensures i + 1 < |ms| && Answers(ms[i], ms[i + 1]) {
        assert PairedAt(ms, i);
      }
      forall i | 0 <= i < |ms| && ms[i].ToolMessage? ensures i > 0 && Answers(ms[i - 1], ms[i]) {
        assert PairedAt(ms, i);
      }
    }
  }

  /** Only the last message feels one that is added after it. */
  lemma PairedBefore(ms: seq<Message>, m: Message)
    ensures forall i: nat | i + 1 < |ms| :: PairedAt(ms + [m], i) <==> PairedAt(ms, i)
  {
  }

  lemma PairedWithResult(ms: seq<Message>, m: Message)
    requires m.ToolMessage?
    ensures WellPaired(ms + [m]) <==> HalfPaired(ms, m.id)
  {
    hide WellPaired;
    var more := ms + [m];
    PairedEverywhere(more);
    PairedBefore(ms, m);
    assert PairedAt(more, |ms|) <==> ms != [] && Answers(ms[|ms| - 1], m);
    if ms != [] {
      var short, last := ms[..|ms| - 1], ms[|ms| - 1];
      assert more == short + [last] + [m];
      PairedEverywhere(short);
      if Answers(last, m) { PairedPrefix(short, last, m); }
    }
  }

  /** A call and its result at the end leave the rest to pair by itself. */
  lemma PairedPrefix(short: seq<Message>, call: Message, m: Message)
    requires Answers(call, m)
    ensures (forall i: nat | i < |short| + 2 :: PairedAt(short + [call] + [m], i))
            <==> forall i: nat | i < |short| :: PairedAt(short, i)
  {
    var more := short + [call] + [m];
    assert PairedAt(more, |short|) && PairedAt(more, |short| + 1);
    forall i: nat | i < |short| ensures PairedAt(more, i) <==> PairedAt(short, i) {
      assert more[i] == short[i];
      assert more[|short|] == call;
    }
  }

  lemma PairedWithOther(ms: seq<Message>, m: Message)
    requires !m.ToolMessage?
    ensures WellPaired(ms + [m]) <==> !m.ToolCallMessage? && WellPaired(ms)
  {
    hide WellPaired;
    var more := ms + [m];
    PairedEverywhere(more);
    PairedEverywhere(ms);
    PairedBefore(ms, m);
    assert PairedAt(more, |ms|) <==> !m.ToolCallMessage?;
    if ms != [] { assert PairedAt(more, |ms| - 1) <==> PairedAt(ms, |ms| - 1); }
  }

  lemma PairedWithOneMore(ms: seq<Message>, m: Message)
    ensures WellPaired(ms + [m]) <==>
              if m.ToolCallMessage? then false
              else if m.ToolMessage? then HalfPaired(ms, m.id)
              else WellPaired(ms)
    ensures forall id :: HalfPaired(ms + [m], id) <==> m.ToolCallMessage? && m.id == id && WellPaired(ms)
  {
    hide WellPaired;
    assert (ms + [m])[..|ms|] == ms;
    if m.ToolMessage? { PairedWithResult(ms, m); } else { PairedWithOther(ms, m); }
  }

  /** Reading the log row by row decides exactly whether its messages pair. */
  lemma {:induction false} ScanDecidesPairing(es: seq<Entry>)
    ensures Scan(es) == Closed <==> WellPaired(BuildMessages(es))
    ensures forall id :: Scan(es) == Open(id) <==> HalfPaired(BuildMessages(es), id)
  {
    if es == [] {
      assert BuildMessages(es) == [SystemMessage];
      PairedWithOneMore([], SystemMessage);
      assert [] + [SystemMessage] == [SystemMessage];
    } else {
      var before := es[..|es| - 1];
      var e := es[|es| - 1];
      ScanDecidesPairing(before);
      var ms, new' := BuildMessages(before), MessagesOf(e);
      assert BuildMessages(es) == ms + new';
      if new' == [] {
        assert ms + new' == ms;
      } else {
        assert new' == [new'[0]];
        PairedWithOneMore(ms, new'[0]);
      }
    }
  }

  // ------------------------------------------------------------------ rows and readings

  lemma ScanAppend(es: seq<Entry>, row: Entry)
    requires row.key.Some? || (row.kind != ToolIntent && row.kind != ToolResult)
    ensures Scan(Append(es, row)) == Read(Scan(es), row)
  {
    hide NextSeq;
    var late := Append(es, row);
    assert late[..|late| - 1] == es;
    assert Read(Scan(es), late[|late| - 1]) == Read(Scan(es), row);
  }

  lemma {:induction false} ScanIgnoresUsage(a: seq<Entry>, b: seq<Entry>)
    requires |a| == |b| && Grown(a, b)
    ensures Scan(a) == Scan(b)
  {
    if a != [] {
      assert SameButUsage(a[|a| - 1], b[|b| - 1]);
      var x, y := a[..|a| - 1], b[..|b| - 1];
      forall i | 0 <= i < |x| ensures SameButUsage(x[i], y[i]) {
        assert SameButUsage(a[i], b[i]);
      }
      ScanIgnoresUsage(x, y);
    }
  }

  /** What the log reads as, told by two things only: was an unanswered intent ever buried, and is
      there an unanswered intent now. */
  ghost function Expected(open: Option<nat>, overlaid: bool): Reading {
    if overlaid then Broken else if open.Some? then Open(ByKey(open.value)) else Closed
  }

  ghost predicate ReadsAs(es: seq<Entry>, overlaid: bool) {
    Scan(es) == Expected(OpenKey(es), overlaid)
  }

  lemma SpokenRow(es: seq<Entry>, overlaid: bool, row: Entry)
    requires WellLogged(es) && ReadsAs(es, overlaid) && Unkeyed(row) && MessagesOf(row) != []
    ensures ReadsAs(Append(es, row), overlaid || UnresolvedIntent(es).Some?)
    ensures UnresolvedIntent(es).Some? <==> OpenKey(es).Some?
  {
    OpenKeyReads(es);
    UnkeyedKeeps(es, row);
    ScanAppend(es, row);
  }

  lemma SilentRow(es: seq<Entry>, overlaid: bool, row: Entry)
    requires WellLogged(es) && ReadsAs(es, overlaid) && Unkeyed(row) && MessagesOf(row) == []
    ensures ReadsAs(Append(es, row), overlaid)
  {
    UnkeyedKeeps(es, row);
    ScanAppend(es, row);
  }

  lemma IntentReads(es: seq<Entry>, overlaid: bool, row: Entry)
    requires WellLogged(es) && ReadsAs(es, overlaid) && OpenKey(es) == None
    requires row.kind == ToolIntent && row.key == Some(NextSeq(es))
    ensures ReadsAs(Append(es, row), overlaid)
  {
  }

  lemma ResultReads(es: seq<Entry>, overlaid: bool, row: Entry)
    requires WellLogged(es) && ReadsAs(es, overlaid) && OpenKey(es).Some?
    requires row.kind == ToolResult && row.key == OpenKey(es) && Matches(row, UnresolvedIntent(es).value)
    ensures ReadsAs(Append(es, row), overlaid)
    ensures WellLogged(Append(es, row)) && OpenKey(Append(es, row)) == None
    ensures UnresolvedIntent(Append(es, row)) == None
  {
    ResultKeeps(es, row);
    ScanAppend(es, row);
  }

  // ------------------------------------------------------------------ over runs

  ghost predicate Working(p: Phase) {
    p.Reconciling? || p.Prompting? || p.Calling? || p.Gating? || p.Asking? || p.Executing? || p.Executed?
  }

  ghost predicate Paired(s: State) {
    && ReadsAs(s.store.conversation.entries, s.store.overlaid)
    && (s.turn.Some? ==>
          var t := s.turn.value;
          && ReadsAs(t.conversation.entries, t.overlaid)
          && (t.phase.Prompting? ==> (WellPaired(t.phase.messages) <==> !t.overlaid)))
  }

  lemma EscalationPairs(t: Turn, c: Conversation)
    requires WellLogged(c.entries) && ReadsAs(c.entries, t.overlaid)
    ensures var e := ToEscalation(t, c); ReadsAs(e.conversation.entries, e.overlaid)
  {
    SpokenRow(c.entries, t.overlaid, PlainRow(ErrorNote, "stuck"));
  }

  lemma AnsweredListPairs(es: seq<Entry>, overlaid: bool)
    requires ReadsAs(es, overlaid) && OpenKey(es) == None
    ensures WellPaired(BuildMessages(es)) <==> !overlaid
  {
    ScanDecidesPairing(es);
  }

  lemma GuardPairs(cfg: Config, s: State, step: Step)
    requires Good(s) && Paired(s) && Enabled(cfg, s, step) && step.Guard?
    ensures Paired(Apply(cfg, s, step))
  {
    hide WellLogged, OpenKey, ReadsAs, Append, WellPaired, BuildMessages, UnresolvedIntent, Grown, GoodStore;
    var t := s.turn.value;
    var c := t.conversation;
    SpokenRow(c.entries, t.overlaid, PlainRow(ErrorNote, "full"));
    EscalationPairs(t, c);
    OpenKeyReads(c.entries);
    if OpenKey(c.entries) == None { AnsweredListPairs(c.entries, t.overlaid); }
  }

  lemma ReconcilePairs(cfg: Config, s: State, step: Step)
    requires Good(s) && Paired(s) && Enabled(cfg, s, step) && step.Reconcile?
    ensures Paired(Apply(cfg, s, step))
  {
    hide WellLogged, OpenKey, ReadsAs, Append, WellPaired, BuildMessages, UnresolvedIntent, Grown, GoodStore;
    var t := s.turn.value;
    var intent := t.phase.intent;
    OpenKeyReads(t.conversation.entries);
    var row := ResultRow(intent.toolName, intent.key,
                         SettledStamp(t.granted, intent, Settlement(t.granted, intent, step.verdict)));
    ResultReads(t.conversation.entries, t.overlaid, row);
    var c := Appended(t.conversation, row);
    EscalationPairs(t.(allowance := t.allowance + 1), c);
    AnsweredListPairs(c.entries, t.overlaid);
  }

  lemma AttemptPairs(cfg: Config, s: State, step: Step)
    requires Good(s) && Paired(s) && Enabled(cfg, s, step) && (step.Attempt? || step.GiveUp?)
    ensures Paired(Apply(cfg, s, step))
  {
    hide WellLogged, OpenKey, ReadsAs, Append, WellPaired, BuildMessages, UnresolvedIntent, Grown, GoodStore,
      GuardTurn, TurnLimit, EscalateStep, CommitStep, ReconcileStep, SettledStamp, IntendStep, EndCallsStep,
      GateTurn, AskStep, ExecuteStep, RecordStep, AddUsage, BeginTurn, Watched, Plus, NextSeq, Fresh;
    var t := s.turn.value;
    if step.Attempt? && step.reply.Response? {
      ResponsePairs(s, step.reply);
    } else {
      EscalationPairs(t, t.conversation);
      SpokenRow(t.conversation.entries, t.overlaid, PlainRow(ErrorNote, "transient"));
    }
  }

  lemma ResponsePairs(s: State, reply: ModelReply)
    requires Good(s) && Paired(s) && s.turn.Some? && s.turn.value.phase.Prompting? && reply.Response?
    ensures Paired(AttemptStep(s, reply))
  {
    hide WellLogged, OpenKey, ReadsAs, Append, WellPaired, BuildMessages, UnresolvedIntent, Grown, GoodStore, Plus,
      Fresh;
    var t := s.turn.value;
    EscalationPairs(t, t.conversation.(turnCount := t.conversation.turnCount + 1));
    var bill := if reply.usage.Some? then reply.usage.value else NoUsage;
    SpokenRow(t.conversation.entries, t.overlaid, PlainRow(Reply, reply.text).(usage := bill));
  }

  lemma CallPairs(cfg: Config, s: State, step: Step)
    requires Good(s) && Paired(s) && Enabled(cfg, s, step)
    requires step.Intend? || step.Gate? || step.Ask? || step.Record?
    ensures Paired(Apply(cfg, s, step))
  {
    hide WellLogged, OpenKey, ReadsAs, Append, WellPaired, BuildMessages, UnresolvedIntent, Grown, GoodStore,
      RequestCount, FindApproval, FindByKey, EndsInIntent, NextSeq;
    var t := s.turn.value;
    var es := t.conversation.entries;
    match step
    case Intend =>
      var first := t.costEntry.None?;
      IntentReads(es, t.overlaid, IntentRow(t.calls[0], if first then t.narration else "", NextSeq(es),
                                            if first then t.bill else NoUsage));
    case Gate(_) =>
      IntentInHandIsUnresolved(es, t.phase.key, t.phase.call);
      LastOfIntent(es, t.phase.key, t.phase.call);
      ResultReads(es, t.overlaid, ResultRow(t.phase.call.operation, Some(t.phase.key), None));
    case Ask =>
      var call := t.phase.call;
      IntentInHandIsUnresolved(es, t.phase.key, call);
      LastOfIntent(es, t.phase.key, call);
      var hash := ArgsHash(call.args);
      var key := Keys.ApprovalKey(hash, RequestCount(es, call.operation, hash) + 1);
      var row := RequestRow(call.operation, hash, Raise(s.store.questions, key).1);
      SilentRow(es, t.overlaid, row);
      UnkeyedKeeps(es, row);
      ResultReads(Append(es, row), t.overlaid, ResultRow(call.operation, Some(t.phase.key), None));
    case Record => RecordPairs(cfg, s, step);
  }

  lemma LastOfIntent(es: seq<Entry>, key: nat, call: Call)
    requires EndsInIntent(es, key, call)
    ensures es != [] && es[|es| - 1].toolName == call.operation && es[|es| - 1].toolArgs == call.args
  {
  }

  lemma RecordPairs(cfg: Config, s: State, step: Step)
    requires Good(s) && Paired(s) && Enabled(cfg, s, step) && step.Record?
    ensures Paired(Apply(cfg, s, step))
  {
    hide WellLogged, OpenKey, Append, WellPaired, BuildMessages, UnresolvedIntent, Grown, GoodStore, EndsInIntent,
      AddUsage;
    var t := s.turn.value;
    var p := t.phase;
    var es := t.conversation.entries;
    IntentInHandIsUnresolved(es, p.key, p.call);
    LastOfIntent(es, p.key, p.call);
    var row := ResultRow(p.call.operation, Some(p.key),
                         if p.yes.Some? && p.outcome.Value? then Some(ArgsHash(p.call.args)) else None);
    ResultReads(es, t.overlaid, row);
    var reported := OperationUsage(p.report);
    if reported.Some? {
      var late := Append(es, row);
      AppendGrows(es, row);
      AddUsageGrows(late, t.costEntry.value, reported.value) by { GrownLength(es, late); }
      UsageKeeps(late, AddUsage(late, t.costEntry.value, reported.value));
      ScanIgnoresUsage(late, AddUsage(late, t.costEntry.value, reported.value));
    }
  }

  lemma GrownLength(a: seq<Entry>, b: seq<Entry>)
    requires Grown(a, b)
    ensures |a| <= |b|
  {
  }

  lemma StepPairs(cfg: Config, s: State, step: Step)
    requires Good(s) && Paired(s) && Enabled(cfg, s, step)
    ensures Paired(Apply(cfg, s, step))
  {
    hide WellLogged, OpenKey, ReadsAs, Append, WellPaired, BuildMessages, UnresolvedIntent, Grown, RequestCount,
      FindApproval, FindByKey, EndsInIntent, NextSeq;
    var c := s.store.conversation;
    match step
    case Guard(_, _) => GuardPairs(cfg, s, step);
    case Reconcile(_) => ReconcilePairs(cfg, s, step);
    case Attempt(_) => AttemptPairs(cfg, s, step);
    case GiveUp => AttemptPairs(cfg, s, step);
    case Intend => CallPairs(cfg, s, step);
    case Gate(_) => CallPairs(cfg, s, step);
    case Ask => CallPairs(cfg, s, step);
    case Record => CallPairs(cfg, s, step);
    case WatchAnswered(text) =>
      SpokenRow(c.entries, s.store.overlaid, PlainRow(Answer, text).(questionId := c.currentQuestion));
    case WatchGone(_) => SpokenRow(c.entries, s.store.overlaid, PlainRow(ErrorNote, "gone"));
    case WatchWoken => SpokenRow(c.entries, s.store.overlaid, PlainRow(Timeout, "woken"));
    case Deliver(text) => SpokenRow(c.entries, s.store.overlaid, PlainRow(Answer, text));
    case _ =>
  }

  lemma {:induction false} RunPairs(cfg: Config, prompt: string, maxTurns: nat, steps: seq<Step>)
    requires Legal(cfg, Born(prompt, maxTurns), steps)
    ensures Paired(Run(cfg, Born(prompt, maxTurns), steps))
  {
    if steps == [] {
      var es := Born(prompt, maxTurns).store.conversation.entries;
      assert es[..0] == [];
      assert Scan(es) == Closed;
    } else {
      var before := steps[..|steps| - 1];
      RunPairs(cfg, prompt, maxTurns, before);
      RunKeeps(cfg, prompt, maxTurns, before);
      StepPairs(cfg, Run(cfg, Born(prompt, maxTurns), before), steps[|steps| - 1]);
    }
  }

  /** The messages a Turn sends are well paired exactly when no row was ever put between an intent
      and its result. */
  lemma MessagesPairUnlessOverlaid(cfg: Config, prompt: string, maxTurns: nat, steps: seq<Step>)
    requires Legal(cfg, Born(prompt, maxTurns), steps)
    ensures var s := Run(cfg, Born(prompt, maxTurns), steps);
            s.turn.Some? && s.turn.value.phase.Prompting? ==>
              (WellPaired(s.turn.value.phase.messages) <==> !s.turn.value.overlaid)
  {
    RunPairs(cfg, prompt, maxTurns, steps);
  }

  // ------------------------------------------------------------------ who can bury an intent

  /** A Conversation waits only once every intent is answered, unless one has been buried already;
      while an advance works, it runs. */
  ghost predicate WaitsAnswered(s: State) {
    && (s.store.conversation.status == Waiting ==> OpenKey(s.store.conversation.entries) == None || s.store.overlaid)
    && (s.turn.Some? ==>
          var t := s.turn.value;
          && (t.conversation.status == Waiting || t.phase.Escalating? ==>
                OpenKey(t.conversation.entries) == None || t.overlaid)
          && (Working(t.phase) ==> t.conversation.status == Running))
  }

  lemma EscalationWaits(s: State, c: Conversation)
    requires Good(s) && WaitsAnswered(s) && s.turn.Some? && c.entries == s.turn.value.conversation.entries
    ensures WaitsAnswered(s.(turn := Some(ToEscalation(s.turn.value, c))))
  {
    hide WellLogged, OpenKey, Append, UnresolvedIntent, Grown, EndsInIntent, GoodStore;
    OpenKeyReads(c.entries);
    UnkeyedKeeps(c.entries, PlainRow(ErrorNote, "stuck"));
  }

  lemma GuardWaits(s: State, assistant: Option<AssistantInfo>, granted: map<string, Grant>)
    requires Good(s) && WaitsAnswered(s) && s.turn.Some? && s.turn.value.phase.Guards?
    ensures WaitsAnswered(s.(turn := Some(GuardTurn(s.turn.value, assistant, granted))))
  {
    hide WellLogged, OpenKey, Append, BuildMessages, UnresolvedIntent, Grown, EndsInIntent, GoodStore, ToEscalation;
    var c := s.turn.value.conversation;
    EscalationWaits(s, c);
    if assistant.Some? {
      EscalationWaits(s, c.(maxTurns := Some(TurnLimit(c, assistant.value) + TURN_GRANT_ON_ESCALATION)));
    }
  }

  lemma AttemptWaits(s: State, reply: ModelReply)
    requires Good(s) && WaitsAnswered(s) && s.turn.Some? && s.turn.value.phase.Prompting?
    ensures WaitsAnswered(AttemptStep(s, reply))
  {
    hide WellLogged, OpenKey, Append, UnresolvedIntent, Grown, EndsInIntent, GoodStore, ToEscalation, Plus;
    var c := s.turn.value.conversation;
    EscalationWaits(s, c);
    EscalationWaits(s, c.(turnCount := c.turnCount + 1));
  }

  lemma ReconcileWaits(cfg: Config, s: State, step: Step)
    requires Good(s) && WaitsAnswered(s) && Enabled(cfg, s, step) && step.Reconcile?
    ensures WaitsAnswered(Apply(cfg, s, step))
  {
    hide WellLogged, OpenKey, Append, BuildMessages, UnresolvedIntent, Grown, RequestCount, FindApproval, FindByKey,
      EndsInIntent, NextSeq, GoodStore, AddUsage;
    var t := s.turn.value;
    var es := t.conversation.entries;
    var intent := t.phase.intent;
    OpenKeyReads(es);
    var row := ResultRow(intent.toolName, intent.key,
                         SettledStamp(t.granted, intent, Settlement(t.granted, intent, step.verdict)));
    ResultKeeps(es, row);
    UnkeyedKeeps(Append(es, row), PlainRow(ErrorNote, "stuck"));
  }

  lemma GateWaits(cfg: Config, s: State, step: Step)
    requires Good(s) && WaitsAnswered(s) && Enabled(cfg, s, step) && (step.Gate? || step.Ask?)
    ensures WaitsAnswered(Apply(cfg, s, step))
  {
    hide WellLogged, OpenKey, Append, UnresolvedIntent, Grown, RequestCount, FindApproval, EndsInIntent, GoodStore,
      Raise, GuardTurn, ReconcileStep, AttemptStep, IntendStep, ExecuteStep, RecordStep, ToEscalation, Plus;
    var t := s.turn.value;
    var es := t.conversation.entries;
    if step.Gate? {
      HeldIsAnswered(s.store, t, es, None);
    } else {
      var hash := ArgsHash(t.phase.call.args);
      var key := Keys.ApprovalKey(hash, RequestCount(es, t.phase.call.operation, hash) + 1);
      HeldIsAnswered(s.store, t, es, Some(RequestRow(t.phase.call.operation, hash, Raise(s.store.questions, key).1)));
    }
  }

  lemma RecordWaits(cfg: Config, s: State, step: Step)
    requires Good(s) && WaitsAnswered(s) && Enabled(cfg, s, step) && step.Record?
    ensures WaitsAnswered(Apply(cfg, s, step))
  {
    hide WellLogged, OpenKey, Append, UnresolvedIntent, Grown, EndsInIntent, GoodStore, AddUsage, GuardTurn,
      ReconcileStep, AttemptStep, IntendStep, GateTurn, AskStep, ExecuteStep, ToEscalation, Plus, OperationUsage;
    var es, p := s.turn.value.conversation.entries, s.turn.value.phase;
    IntentInHandIsUnresolved(es, p.key, p.call);
    LastOfIntent(es, p.key, p.call);
    ResultKeeps(es, ResultRow(p.call.operation, Some(p.key),
                              if p.yes.Some? && p.outcome.Value? then Some(ArgsHash(p.call.args)) else None));
  }

  lemma StepWaitsAnswered(cfg: Config, s: State, step: Step)
    requires Good(s) && WaitsAnswered(s) && Enabled(cfg, s, step)
    ensures WaitsAnswered(Apply(cfg, s, step))
  {
    hide WellLogged, OpenKey, Append, BuildMessages, UnresolvedIntent, Grown, RequestCount, FindApproval, FindByKey,
      EndsInIntent, NextSeq, GoodStore, AddUsage, GuardTurn, AttemptStep, ToEscalation;
    match step
    case Guard(assistant, granted) => GuardWaits(s, assistant, granted);
    case Attempt(reply) => AttemptWaits(s, reply);
    case GiveUp => EscalationWaits(s, s.turn.value.conversation);
    case Reconcile(_) => ReconcileWaits(cfg, s, step);
    case Gate(_) => GateWaits(cfg, s, step);
    case Ask => GateWaits(cfg, s, step);
    case Record => RecordWaits(cfg, s, step);
    case Deliver(text) => DeliverWaits(s, text);
    case _ =>
  }

  lemma DeliverWaits(s: State, text: string)
    requires Good(s)
    ensures OpenKey(Append(s.store.conversation.entries, PlainRow(Answer, text)))
            == OpenKey(s.store.conversation.entries)
  {
    UnkeyedKeeps(s.store.conversation.entries, PlainRow(Answer, text));
  }

  lemma HeldIsAnswered(store: Store, t: Turn, es: seq<Entry>, request: Option<Entry>)
    requires t.phase.Gating? || t.phase.Asking?
    requires WellLogged(es) && InHand(store, t, t.phase.call, t.phase.key) && es == t.conversation.entries
    requires request.Some? ==> Unkeyed(request.value)
    ensures var before := if request.Some? then Append(es, request.value) else es;
            OpenKey(Append(before, ResultRow(t.phase.call.operation, Some(t.phase.key), None))) == None
  {
    hide WellLogged, OpenKey, Append, UnresolvedIntent;
    IntentInHandIsUnresolved(es, t.phase.key, t.phase.call);
    var row := ResultRow(t.phase.call.operation, Some(t.phase.key), None);
    if request.Some? {
      UnkeyedKeeps(es, request.value);
      ResultKeeps(Append(es, request.value), row);
    } else {
      ResultKeeps(es, row);
    }
  }

  /** A step that puts a row over an unanswered intent: a guard that ends or escalates before
      reconciling, or a child's result delivered to a crashed caller. */
  ghost predicate Disturbs(cfg: Config, s: State, step: Step)
    requires Enabled(cfg, s, step)
  {
    (step.Guard? && UnresolvedIntent(s.turn.value.conversation.entries).Some?
     && |Apply(cfg, s, step).turn.value.conversation.entries| > |s.turn.value.conversation.entries|)
    || (step.Deliver? && UnresolvedIntent(s.store.conversation.entries).Some?)
  }

  ghost predicate Undisturbed(cfg: Config, s: State, steps: seq<Step>)
    requires Legal(cfg, s, steps)
  {
    steps == [] ||
    (var before := steps[..|steps| - 1];
     Undisturbed(cfg, s, before) && !Disturbs(cfg, Run(cfg, s, before), steps[|steps| - 1]))
  }

  ghost predicate NeverOverlaid(s: State) {
    !s.store.overlaid && (s.turn.Some? ==> !s.turn.value.overlaid)
  }

  lemma OneLonger(es: seq<Entry>, row: Entry)
    ensures |Append(es, row)| == |es| + 1
  {
  }

  lemma OnlyDisturbancesOverlay(cfg: Config, s: State, step: Step)
    requires Good(s) && WaitsAnswered(s) && NeverOverlaid(s) && Enabled(cfg, s, step) && !Disturbs(cfg, s, step)
    ensures NeverOverlaid(Apply(cfg, s, step))
  {
    hide WellLogged, OpenKey, Append, BuildMessages, UnresolvedIntent, Grown, RequestCount, FindApproval, FindByKey,
      EndsInIntent, NextSeq, AddUsage;
    OpenKeyReads(s.store.conversation.entries);
    if s.turn.Some? {
      var t := s.turn.value;
      var es := t.conversation.entries;
      OpenKeyReads(es);
      OneLonger(es, PlainRow(ErrorNote, "full"));
      OneLonger(es, PlainRow(ErrorNote, "stuck"));
      if step.Reconcile? {
        var intent := t.phase.intent;
        ResultKeeps(es, ResultRow(intent.toolName, intent.key,
                                  SettledStamp(t.granted, intent, Settlement(t.granted, intent, step.verdict))));
      }
    }
  }

  /** Undisturbed runs, crashing anywhere, send only well-paired messages. */
  lemma {:induction false} UndisturbedRunsPair(cfg: Config, prompt: string, maxTurns: nat, steps: seq<Step>)
    requires Legal(cfg, Born(prompt, maxTurns), steps) && Undisturbed(cfg, Born(prompt, maxTurns), steps)
    ensures var s := Run(cfg, Born(prompt, maxTurns), steps);
            && WaitsAnswered(s) && NeverOverlaid(s)
            && (s.turn.Some? && s.turn.value.phase.Prompting? ==> WellPaired(s.turn.value.phase.messages))
  {
    RunPairs(cfg, prompt, maxTurns, steps);
    if steps != [] {
      var before := steps[..|steps| - 1];
      var s := Run(cfg, Born(prompt, maxTurns), before);
      UndisturbedRunsPair(cfg, prompt, maxTurns, before);
      RunKeeps(cfg, prompt, maxTurns, before);
      StepWaitsAnswered(cfg, s, steps[|steps| - 1]);
      OnlyDisturbancesOverlay(cfg, s, steps[|steps| - 1]);
    }
  }

  // ------------------------------------------------------------------ and it does happen

  /** Between advances, with an intent a crash left open, nothing yet over it. */
  ghost predicate Stranded(s: State, limit: nat) {
    var c := s.store.conversation;
    && s.turn.None? && c.status == Running && !c.leased && c.turnCount == 1 && c.maxTurns == Some(limit)
    && c.escalations == 0 && |c.entries| == 2 && UnresolvedIntent(c.entries).Some? && s.store.questions == []
    && UnresolvedIntent(c.entries).value.toolName == ""
  }

  lemma ReachedIsGood(cfg: Config, limit: nat, s: State)
    requires Reaches(cfg, Born("", limit), s)
    ensures Good(s)
    ensures s.turn.Some? && s.turn.value.phase.Prompting? ==>
              (WellPaired(s.turn.value.phase.messages) <==> !s.turn.value.overlaid)
  {
    var steps :| Legal(cfg, Born("", limit), steps) && Run(cfg, Born("", limit), steps) == s;
    RunKeeps(cfg, "", limit, steps);
    MessagesPairUnlessOverlaid(cfg, "", limit, steps);
  }

  lemma CrashMidCall(cfg: Config, limit: nat) returns (s: State)
    requires cfg.maxAttempts >= 1 && limit >= 1
    ensures Reaches(cfg, Born("", limit), s) && Stranded(s, limit)
  {
    hide Reaches, Run, Legal, BuildMessages, Plus, InFlight;
    var birth := Born("", limit);
    ReachesItself(cfg, birth);
    ReachesNext(cfg, birth, birth, Begin);
    s := Apply(cfg, birth, Begin);
    assert UnresolvedIntent(s.turn.value.conversation.entries).None?;
    var guard := Guard(Some(AssistantInfo(true, None)), map[]);
    ReachesNext(cfg, birth, s, guard);
    s := Apply(cfg, s, guard);
    var attempt := Attempt(Response(WantsTools, "", [Call("", Null)], None, NoUsage));
    ReachesNext(cfg, birth, s, attempt);
    s := Apply(cfg, s, attempt);
    ReachesNext(cfg, birth, s, Intend);
    s := Apply(cfg, s, Intend);
    OpenAfterIntend(cfg, limit, s);
    ReachesNext(cfg, birth, s, Crash);
    s := Apply(cfg, s, Crash);
    ReachesNext(cfg, birth, s, LeaseExpires);
    s := Apply(cfg, s, LeaseExpires);
  }

  lemma OpenAfterIntend(cfg: Config, limit: nat, s: State)
    requires Reaches(cfg, Born("", limit), s) && s.turn.Some? && s.turn.value.phase.Gating?
    ensures UnresolvedIntent(s.store.conversation.entries).Some?
    ensures UnresolvedIntent(s.store.conversation.entries).value.toolName == s.turn.value.phase.call.operation
  {
    ReachedIsGood(cfg, limit, s);
    IntentInHandIsUnresolved(s.turn.value.conversation.entries, s.turn.value.phase.key, s.turn.value.phase.call);
  }

  /** From an overlaid intent still open, below the turn limit, to messages that are not well paired. */
  lemma BuriedReachesTheModel(cfg: Config, limit: nat, s: State) returns (next: State)
    requires Reaches(cfg, Born("", limit), s) && s.turn.None? && s.store.overlaid
    requires var c := s.store.conversation;
             && c.status == Running && !c.leased && c.maxTurns.Some? && c.turnCount < c.maxTurns.value && !IsFull(c)
             && UnresolvedIntent(c.entries).Some? && UnresolvedIntent(c.entries).value.toolName == ""
    ensures Reaches(cfg, Born("", limit), next) && next.turn.Some? && next.turn.value.phase.Prompting?
    ensures !WellPaired(next.turn.value.phase.messages)
  {
    hide Reaches, Run, Legal, BuildMessages, WellPaired, UnresolvedIntent, Append, Good;
    var birth := Born("", limit);
    ReachesNext(cfg, birth, s, Begin);
    next := Apply(cfg, s, Begin);
    var guard := Guard(Some(AssistantInfo(true, None)), map[]);
    ReachesNext(cfg, birth, next, guard);
    next := Apply(cfg, next, guard);
    ReachesNext(cfg, birth, next, Reconcile(None));
    next := Apply(cfg, next, Reconcile(None));
    ReachedIsGood(cfg, limit, next);
  }

  /** A child's result delivered to a caller that crashed mid-call: the next list sent is not paired. */
  lemma DeliveryBreaksPairing(cfg: Config) returns (s: State)
    requires cfg.maxAttempts >= 1
    ensures Reaches(cfg, Born("", 20), s) && s.turn.Some? && s.turn.value.phase.Prompting?
    ensures !WellPaired(s.turn.value.phase.messages)
  {
    hide Reaches, Run, Legal, WellPaired, UnresolvedIntent, Append, Good;
    s := CrashMidCall(cfg, 20);
    ReachedIsGood(cfg, 20, s);
    StillOpen(s, PlainRow(Answer, ""));
    ReachesNext(cfg, Born("", 20), s, Deliver(""));
    s := Apply(cfg, s, Deliver(""));
    s := BuriedReachesTheModel(cfg, 20, s);
  }

  lemma StillOpen(s: State, row: Entry)
    requires Good(s) && Unkeyed(row)
    ensures UnresolvedIntent(Append(s.store.conversation.entries, row))
            == UnresolvedIntent(s.store.conversation.entries)
    ensures |Append(s.store.conversation.entries, row)| == |s.store.conversation.entries| + 1
  {
    UnkeyedKeeps(s.store.conversation.entries, row);
  }

  /** The turn limit, checked before recovery: its escalation, once answered, leaves the same list. */
  lemma LimitBreaksPairing(cfg: Config) returns (s: State)
    requires cfg.maxAttempts >= 1 && cfg.maxEscalations >= 1
    ensures Reaches(cfg, Born("", 1), s) && s.turn.Some? && s.turn.value.phase.Prompting?
    ensures !WellPaired(s.turn.value.phase.messages)
  {
    hide Reaches, Run, Legal, WellPaired, UnresolvedIntent, Append, Good;
    var birth := Born("", 1);
    s := CrashMidCall(cfg, 1);
    ReachedIsGood(cfg, 1, s);
    StillOpen(s, PlainRow(ErrorNote, "stuck"));
    s := EscalatedAtLimit(cfg, s);
    ReachedIsGood(cfg, 1, s);
    StillOpen(s, PlainRow(Answer, "").(questionId := Some(0)));
    ReachesNext(cfg, birth, s, SetAnswer(0, Some(true), false));
    s := Apply(cfg, s, SetAnswer(0, Some(true), false));
    ReachesNext(cfg, birth, s, WatchAnswered(""));
    s := Apply(cfg, s, WatchAnswered(""));
    s := BuriedReachesTheModel(cfg, 1, s);
  }

  lemma EscalatedAtLimit(cfg: Config, s: State) returns (next: State)
    requires cfg.maxEscalations >= 1 && Reaches(cfg, Born("", 1), s) && Stranded(s, 1)
    ensures Reaches(cfg, Born("", 1), next) && next.turn.None? && next.store.overlaid
    ensures var c := next.store.conversation;
            && c.status == Waiting && c.waitingFor == User && c.currentQuestion == Some(0) && !c.leased
            && c.turnCount == 1 && c.maxTurns == Some(6)
            && c.entries == Append(s.store.conversation.entries, PlainRow(ErrorNote, "stuck"))
            && next.store.questions == [Question(Keys.EscalationKey(1), true, None, false)]
  {
    hide Reaches, Run, Legal, UnresolvedIntent, Append;
    var birth := Born("", 1);
    ReachesNext(cfg, birth, s, Begin);
    next := Apply(cfg, s, Begin);
    var guard := Guard(Some(AssistantInfo(true, None)), map[]);
    ReachesNext(cfg, birth, next, guard);
    next := Apply(cfg, next, guard);
    ReachesNext(cfg, birth, next, Escalate);
    next := Apply(cfg, next, Escalate);
    ReachesNext(cfg, birth, next, Commit);
    next := Apply(cfg, next, Commit);
  }
}
