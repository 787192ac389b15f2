/** How much one advance adds to the log, and when the log stays within its limit. */
module Growth {
  import opened Wrappers
  import opened CanonicalJson
  import opened Conversations
  import opened Loop
  import opened IntentLog
  import opened ExactlyOnce
  import opened Runs

  /** What one step may cost in rows: one for a reconciled intent or a failed attempt, two a call. */
  function Share(step: Step): nat {
    match step
    case Reconcile(_) => 1
    case Attempt(reply) =>
      if reply.Transient? then 1
      else if reply.Response? && reply.finish.WantsTools? then 2 * |reply.calls| else 0
    case _ => 0
  }

  /** The rows the advance at work may add: u + a + 2c, counted from its Begin. */
  function Allowance(steps: seq<Step>): nat {
    if steps == [] || steps[|steps| - 1].Begin? then 0
    else Allowance(steps[..|steps| - 1]) + Share(steps[|steps| - 1])
  }

  /** Rows this advance may still add: what each call in hand needs, and one to close with. */
  ghost function Pending(t: Turn): nat {
    match t.phase
    case Escalating => 0
    case Committing(_) => 0
    case Calling => 2 * |t.calls| + 1
    case Gating(_, _) => 2 * |t.calls| + 2
    case Asking(_, _) => 2 * |t.calls| + 2
    case Executing(_, _, _) => 2 * |t.calls| + 2
    case Executed(_, _, _, _, _, _, _) => 2 * |t.calls| + 2
    case _ => 1
  }

  ghost predicate Roomy(t: Turn) {
    var rows := |t.conversation.entries|;
    && rows + Pending(t) <= t.base + t.allowance + 1
    && (t.phase.Guards? ==> rows == t.base)
    && (!t.phase.Guards? && t.base + ENTRY_HEADROOM > MAX_ENTRIES ==>
          t.phase.Committing? && t.conversation.status == Failed
          && (rows <= MAX_ENTRIES || rows <= t.base))
  }

  lemma AppendAddsOne()
    ensures forall es, row {:trigger Append(es, row)} :: |Append(es, row)| == |es| + 1
  {
  }

  lemma GuardIsRoomy(t: Turn, assistant: Option<AssistantInfo>, granted: map<string, Grant>)
    requires Roomy(t) && t.phase.Guards?
    ensures Roomy(GuardTurn(t, assistant, granted))
  {
    hide Append, UnresolvedIntent, BuildMessages, TurnLimit;
    AppendAddsOne();
  }

  lemma ReconcileIsRoomy(s: State, verdict: Option<Outcome>)
    requires s.turn.Some? && s.turn.value.phase.Reconciling? && Roomy(s.turn.value)
    ensures Roomy(ReconcileStep(s, verdict).turn.value)
  {
    hide Append, UnresolvedIntent, BuildMessages, Settlement, SettledStamp, FindByKey;
    AppendAddsOne();
  }

  lemma AttemptIsRoomy(s: State, reply: ModelReply)
    requires s.turn.Some? && s.turn.value.phase.Prompting? && Roomy(s.turn.value)
    ensures Roomy(AttemptStep(s, reply).turn.value)
  {
    hide Append, UnresolvedIntent, Plus;
    AppendAddsOne();
  }

  lemma CallIsRoomy(s: State)
    requires s.turn.Some? && Roomy(s.turn.value)
    ensures s.turn.value.phase.Calling? && s.turn.value.calls != [] ==> Roomy(IntendStep(s).turn.value)
    ensures s.turn.value.phase.Gating? ==>
              forall read: bool :: Roomy(GateTurn(s.turn.value, Readable(s.store.questions, read)))
    ensures s.turn.value.phase.Asking? ==> Roomy(AskStep(s).turn.value)
  {
    hide Append, UnresolvedIntent, FindApproval, RequestCount, Raise, NextSeq, ArgsHash;
    AppendAddsOne();
  }

  lemma RecordIsRoomy(s: State)
    requires s.turn.Some? && s.turn.value.phase.Executed? && Roomy(s.turn.value)
    requires s.turn.value.costEntry.Some? && s.turn.value.costEntry.value < |s.turn.value.conversation.entries|
    ensures Roomy(RecordStep(s).turn.value)
  {
    hide Append, Plus, OperationUsage, ArgsHash;
    AppendAddsOne();
  }

  lemma GiveUpIsRoomy(t: Turn)
    requires t.phase.Prompting? && Roomy(t)
    ensures Roomy(ToEscalation(t, t.conversation))
  {
    hide Append, UnresolvedIntent;
    AppendAddsOne();
  }

  /** The bound survives every step, and the allowance is the one the steps themselves give. */
  lemma StepIsRoomy(cfg: Config, s: State, step: Step)
    requires Enabled(cfg, s, step) && (s.turn.Some? ==> Roomy(s.turn.value)) && Apply(cfg, s, step).turn.Some?
    ensures Roomy(Apply(cfg, s, step).turn.value)
  {
    hide Append, UnresolvedIntent, GuardTurn, ReconcileStep, AttemptStep, IntendStep, GateTurn, AskStep, RecordStep,
      ToEscalation, Raise, Plus, OperationUsage;
    match step
    case Guard(assistant, granted) => GuardIsRoomy(s.turn.value, assistant, granted);
    case Reconcile(verdict) => ReconcileIsRoomy(s, verdict);
    case Attempt(reply) => AttemptIsRoomy(s, reply);
    case GiveUp => GiveUpIsRoomy(s.turn.value);
    case Intend => CallIsRoomy(s);
    case Gate(_) => CallIsRoomy(s);
    case Ask => CallIsRoomy(s);
    case Record => RecordIsRoomy(s);
    case _ =>
  }

  lemma StepAllows(cfg: Config, s: State, step: Step)
    requires Enabled(cfg, s, step) && Apply(cfg, s, step).turn.Some?
    ensures step.Begin? || s.turn.Some?
    ensures Apply(cfg, s, step).turn.value.allowance
            == if step.Begin? then 0 else s.turn.value.allowance + Share(step)
  {
    hide Append, UnresolvedIntent, FindApproval, Raise, Plus, OperationUsage, Settlement, SettledStamp, RequestCount,
      NextSeq, ArgsHash, BuildMessages, TurnLimit, AddUsage, Suspended;
  }

  lemma {:induction false} RunIsRoomy(cfg: Config, prompt: string, maxTurns: nat, steps: seq<Step>)
    requires Legal(cfg, Born(prompt, maxTurns), steps)
    ensures var s := Run(cfg, Born(prompt, maxTurns), steps);
            s.turn.Some? ==> Roomy(s.turn.value) && s.turn.value.allowance == Allowance(steps)
  {
    hide Apply, Enabled, Roomy, Share;
    if steps != [] {
      var before := steps[..|steps| - 1];
      RunIsRoomy(cfg, prompt, maxTurns, before);
      if Run(cfg, Born(prompt, maxTurns), steps).turn.Some? {
        StepIsRoomy(cfg, Run(cfg, Born(prompt, maxTurns), before), steps[|steps| - 1]);
        StepAllows(cfg, Run(cfg, Born(prompt, maxTurns), before), steps[|steps| - 1]);
      }
    }
  }

  // ------------------------------------------------------------------ what a reader can rely on

  /** One advance, wherever it is, has added at most u + a + 2c + 1 rows to those it began with; and
      one that began past the guard ends failed without passing the limit. */
  lemma AdvanceAddsAtMost(cfg: Config, prompt: string, maxTurns: nat, steps: seq<Step>)
    requires Legal(cfg, Born(prompt, maxTurns), steps)
    requires Run(cfg, Born(prompt, maxTurns), steps).turn.Some?
    ensures var s := Run(cfg, Born(prompt, maxTurns), steps);
            var t := s.turn.value;
            var rows := |t.conversation.entries|;
            && |s.store.conversation.entries| <= rows <= t.base + Allowance(steps) + 1
            && (t.base > 95 && !t.phase.Guards? ==>
                  t.phase.Committing? && t.conversation.status == Failed && (rows <= 100 || rows <= t.base))
  {
    RunIsRoomy(cfg, prompt, maxTurns, steps);
    RunKeeps(cfg, prompt, maxTurns, steps);
  }

  predicate Watches(step: Step) {
    step.WatchAnswered? || step.WatchGone? || step.WatchWoken? || step.Deliver?
  }

  /** No advance of this run is allowed more than the headroom, and the watcher, which never asks
      whether the log is full, finds room when it appends. */
  ghost predicate Modest(cfg: Config, s: State, steps: seq<Step>)
    requires Legal(cfg, s, steps)
  {
    steps == [] ||
    (var before, last := steps[..|steps| - 1], steps[|steps| - 1];
     && Modest(cfg, s, before)
     && Allowance(steps) + 1 <= ENTRY_HEADROOM
     && (Watches(last) ==> |Run(cfg, s, before).store.conversation.entries| < MAX_ENTRIES))
  }

  lemma WatchAddsOne(cfg: Config, s: State, step: Step)
    requires Enabled(cfg, s, step) && Apply(cfg, s, step).turn.None?
    ensures var rows := |Apply(cfg, s, step).store.conversation.entries|;
            if Watches(step) then rows == |s.store.conversation.entries| + 1
            else rows == |s.store.conversation.entries|
                 || (s.turn.Some? && rows == |s.turn.value.conversation.entries|)
  {
    hide Append, UnresolvedIntent, FindApproval, Plus, OperationUsage, Settlement, SettledStamp, ArgsHash,
      BuildMessages, GuardTurn, ToEscalation, GateTurn;
    AppendAddsOne();
  }

  /** A turn whose rows are within the limit began within it. */
  lemma BeginsWithin(cfg: Config, s: State, step: Step)
    requires Enabled(cfg, s, step) && Apply(cfg, s, step).turn.Some?
    ensures Apply(cfg, s, step).turn.value.base
            == if step.Begin? then |s.store.conversation.entries| else s.turn.value.base
  {
    hide Append, UnresolvedIntent, FindApproval, Raise, Plus, OperationUsage, Settlement, SettledStamp, RequestCount,
      NextSeq, ArgsHash, BuildMessages, TurnLimit, AddUsage, Suspended;
  }

  lemma {:induction false} ModestRunStaysWithin(cfg: Config, prompt: string, maxTurns: nat, steps: seq<Step>)
    requires Legal(cfg, Born(prompt, maxTurns), steps) && Modest(cfg, Born(prompt, maxTurns), steps)
    ensures var s := Run(cfg, Born(prompt, maxTurns), steps);
            && |s.store.conversation.entries| <= 100
            && (s.turn.Some? ==> s.turn.value.base <= 100 && |s.turn.value.conversation.entries| <= 100)
  {
    hide Apply, Enabled;
    if steps != [] {
      var before := steps[..|steps| - 1];
      var s, step := Run(cfg, Born(prompt, maxTurns), before), steps[|steps| - 1];
      ModestRunStaysWithin(cfg, prompt, maxTurns, before);
      if Run(cfg, Born(prompt, maxTurns), steps).turn.Some? {
        StepAllows(cfg, s, step);
        BeginsWithin(cfg, s, step);
        AdvanceAddsAtMost(cfg, prompt, maxTurns, steps);
        RunIsRoomy(cfg, prompt, maxTurns, steps);
      } else {
        WatchAddsOne(cfg, s, step);
      }
    }
  }

  // ------------------------------------------------------------------ the bound is reached

  ghost predicate NothingAsked(es: seq<Entry>) {
    forall e | e in es :: e.kind != ApprovalRequest
  }

  /** A Conversation at rest, running, with this many rows. */
  ghost predicate Resting(s: State, rows: nat) {
    var c := s.store.conversation;
    && s.turn.None? && c.status == Running && !c.leased && c.turnCount <= 1 && c.maxTurns == Some(20)
    && |c.entries| == rows && NothingAsked(c.entries)
  }

  lemma RowsAfter(es: seq<Entry>, row: Entry)
    ensures |Append(es, row)| == |es| + 1
    ensures NothingAsked(es) && row.kind != ApprovalRequest ==> NothingAsked(Append(es, row))
  {
  }

  lemma {:induction false} LongLog(cfg: Config, n: nat) returns (s: State)
    ensures Reaches(cfg, Born("", 20), s) && Resting(s, n + 1) && s.store.conversation.turnCount == 0
    ensures UnresolvedIntent(s.store.conversation.entries).None?
  {
    if n == 0 {
      s := Born("", 20);
      assert Run(cfg, s, []) == s;
      assert UnresolvedFrom(s.store.conversation.entries, 1).None?;
    } else {
      var before := LongLog(cfg, n - 1);
      ReachesNext(cfg, Born("", 20), before, Deliver(""));
      s := Apply(cfg, before, Deliver(""));
      RowsAfter(before.store.conversation.entries, PlainRow(Answer, ""));
      AnswerOpensNothing(cfg, before);
    }
  }

  lemma ReachedIsGood(cfg: Config, s: State)
    requires Reaches(cfg, Born("", 20), s)
    ensures Good(s)
  {
    var steps :| Legal(cfg, Born("", 20), steps) && Run(cfg, Born("", 20), steps) == s;
    RunKeeps(cfg, "", 20, steps);
  }

  lemma AnswerOpensNothing(cfg: Config, s: State)
    requires Reaches(cfg, Born("", 20), s)
    ensures UnresolvedIntent(Append(s.store.conversation.entries, PlainRow(Answer, "")))
            == UnresolvedIntent(s.store.conversation.entries)
  {
    ReachedIsGood(cfg, s);
    UnkeyedKeeps(s.store.conversation.entries, PlainRow(Answer, ""));
  }

  /** What the Turn is granted: one Operation, which needs an approval. */
  const GRANTED := map["a" := Grant(true, true, true)]

  const REFUSED := Call("", Null)
  const HELD := Call("a", Null)

  /** An advance that began at this many rows, with this allowance used so far, and no row to spare. */
  ghost predicate Filling(s: State, base: nat, allowance: nat, rows: nat) {
    && s.turn.Some? && s.turn.value.base == base && s.turn.value.allowance == allowance
       && s.turn.value.granted == GRANTED
    && |s.turn.value.conversation.entries| == rows && NothingAsked(s.turn.value.conversation.entries)
  }

  ghost predicate Prompted(s: State, base: nat, allowance: nat, attempt: nat) {
    Filling(s, base, allowance, base + allowance) && s.turn.value.phase.Prompting?
      && s.turn.value.phase.attempt == attempt
  }

  /** A Turn that begins with nothing to recover. */
  lemma BeginClean(cfg: Config, rows: nat) returns (s: State)
    requires 1 <= rows && rows + ENTRY_HEADROOM <= MAX_ENTRIES
    ensures Reaches(cfg, Born("", 20), s) && Prompted(s, rows, 0, 1)
    ensures var c := s.turn.value.conversation; c.status == Running && c.turnCount == 0 && c.maxTurns == Some(20)
  {
    hide Reaches, Run, Legal, BuildMessages, UnresolvedIntent, NothingAsked;
    var rest := LongLog(cfg, rows - 1);
    ReachesNext(cfg, Born("", 20), rest, Begin);
    s := Apply(cfg, rest, Begin);
    ReachesNext(cfg, Born("", 20), s, Guard(Some(AssistantInfo(true, None)), GRANTED));
    s := Apply(cfg, s, Guard(Some(AssistantInfo(true, None)), GRANTED));
  }

  /** A process that died over its last row, an intent. */
  ghost predicate Stranded(s: State, rows: nat) {
    Resting(s, rows) && UnresolvedIntent(s.store.conversation.entries).Some?
    && UnresolvedIntent(s.store.conversation.entries).value.toolName == ""
  }

  /** An intent just written, by a Conversation in its first Turn. */
  ghost predicate Intending(s: State, rows: nat) {
    var c := s.store.conversation;
    && s.turn.Some? && s.turn.value.phase.Gating? && s.turn.value.phase.call == REFUSED
    && c.status == Running && c.turnCount <= 1 && c.maxTurns == Some(20)
    && |c.entries| == rows && NothingAsked(c.entries)
  }

  lemma WriteIntent(cfg: Config, s: State, rows: nat) returns (t: State)
    requires Reaches(cfg, Born("", 20), s) && Prompted(s, rows, 0, 1) && cfg.maxAttempts >= 1
    requires var c := s.turn.value.conversation; c.status == Running && c.turnCount == 0 && c.maxTurns == Some(20)
    ensures Reaches(cfg, Born("", 20), t) && Intending(t, rows + 1)
  {
    hide Reaches, Run, Legal, BuildMessages, UnresolvedIntent, NothingAsked, Append, NextSeq, Plus;
    var birth := Born("", 20);
    var attempt := Attempt(Response(WantsTools, "", [REFUSED], None, NoUsage));
    ReachesNext(cfg, birth, s, attempt);
    t := Apply(cfg, s, attempt);
    var es := t.turn.value.conversation.entries;
    RowsAfter(es, IntentRow(REFUSED, "", NextSeq(es), NoUsage));
    ReachesNext(cfg, birth, t, Intend);
    t := Apply(cfg, t, Intend);
  }

  lemma CrashOverIntent(cfg: Config, rows: nat) returns (s: State)
    requires 2 <= rows && rows + ENTRY_HEADROOM <= MAX_ENTRIES && cfg.maxAttempts >= 1
    ensures Reaches(cfg, Born("", 20), s) && Stranded(s, rows)
  {
    hide Reaches, Run, Legal, UnresolvedIntent, NothingAsked, Plus, InFlight, Good, Filling;
    var birth := Born("", 20);
    s := BeginClean(cfg, rows - 1);
    s := WriteIntent(cfg, s, rows - 1);
    OpenIntent(cfg, s);
    ReachesNext(cfg, birth, s, Crash);
    s := Apply(cfg, s, Crash);
    if s.store.conversation.leased {
      ReachesNext(cfg, birth, s, LeaseExpires);
      s := Apply(cfg, s, LeaseExpires);
    }
  }

  /** A Turn that begins by recovering an interrupted call. */
  lemma BeginRecovering(cfg: Config, rows: nat) returns (s: State)
    requires 2 <= rows && rows + ENTRY_HEADROOM <= MAX_ENTRIES && cfg.maxAttempts >= 1
    ensures Reaches(cfg, Born("", 20), s) && Prompted(s, rows, 1, 1)
  {
    hide Reaches, Run, Legal, BuildMessages, UnresolvedIntent, NothingAsked, Append, Good;
    var birth := Born("", 20);
    s := CrashOverIntent(cfg, rows);
    ReachesNext(cfg, birth, s, Begin);
    s := Apply(cfg, s, Begin);
    ReachesNext(cfg, birth, s, Guard(Some(AssistantInfo(true, None)), GRANTED));
    s := Apply(cfg, s, Guard(Some(AssistantInfo(true, None)), GRANTED));
    var intent := s.turn.value.phase.intent;
    RowsAfter(s.turn.value.conversation.entries, ResultRow(intent.toolName, intent.key, None));
    ReachesNext(cfg, birth, s, Reconcile(None));
    s := Apply(cfg, s, Reconcile(None));
  }

  lemma OpenIntent(cfg: Config, s: State)
    requires Reaches(cfg, Born("", 20), s) && s.turn.Some? && s.turn.value.phase.Gating?
    ensures UnresolvedIntent(s.store.conversation.entries).Some?
    ensures UnresolvedIntent(s.store.conversation.entries).value.toolName == s.turn.value.phase.call.operation
  {
    ReachedIsGood(cfg, s);
    IntentInHandIsUnresolved(s.turn.value.conversation.entries, s.turn.value.phase.key, s.turn.value.phase.call);
  }

  /** So many attempts at the model fail. */
  lemma {:induction false} FailingAttempts(cfg: Config, s: State, base: nat, u: nat, a: nat) returns (t: State)
    requires Reaches(cfg, Born("", 20), s) && Prompted(s, base, u, 1) && a <= cfg.maxAttempts
    ensures Reaches(cfg, Born("", 20), t) && Prompted(t, base, u + a, a + 1)
  {
    hide Reaches, Run, Legal, NothingAsked, Append, Plus;
    if a == 0 {
      t := s;
    } else {
      var before := FailingAttempts(cfg, s, base, u, a - 1);
      RowsAfter(before.turn.value.conversation.entries, PlainRow(ErrorNote, "transient"));
      ReachesNext(cfg, Born("", 20), before, Attempt(Transient(NoUsage)));
      t := Apply(cfg, before, Attempt(Transient(NoUsage)));
    }
  }

  /** Calls still to make: refused ones, then one that is held for approval. */
  function Calls(n: nat): seq<Call> {
    if n == 0 then [HELD] else [REFUSED] + Calls(n - 1)
  }

  lemma {:induction false} CallsLength(n: nat)
    ensures |Calls(n)| == n + 1
  {
    if n > 0 { CallsLength(n - 1); }
  }

  ghost predicate Making(s: State, base: nat, allowance: nat, rows: nat, n: nat) {
    Filling(s, base, allowance, rows) && s.turn.value.phase.Calling? && s.turn.value.calls == Calls(n)
  }

  lemma {:induction false} RefusedCalls(cfg: Config, s: State, base: nat, allowance: nat, rows: nat, n: nat)
    returns (t: State)
    requires Reaches(cfg, Born("", 20), s) && Making(s, base, allowance, rows, n)
    ensures Reaches(cfg, Born("", 20), t) && Making(t, base, allowance, rows + 2 * n, 0)
    decreases n
  {
    hide Reaches, Run, Legal, NothingAsked, Append, NextSeq, UnresolvedIntent;
    if n == 0 {
      t := s;
    } else {
      var es := s.turn.value.conversation.entries;
      var first := s.turn.value.costEntry.None?;
      var row := IntentRow(REFUSED, if first then s.turn.value.narration else "", NextSeq(es),
                           if first then s.turn.value.bill else NoUsage);
      RowsAfter(es, row);
      RowsAfter(Append(es, row), ResultRow("", Some(NextSeq(es)), None));
      assert s.turn.value.calls[1..] == Calls(n - 1);
      ReachesNext(cfg, Born("", 20), s, Intend);
      var held := Apply(cfg, s, Intend);
      ReachesNext(cfg, Born("", 20), held, Gate(true));
      t := Apply(cfg, held, Gate(true));
      t := RefusedCalls(cfg, t, base, allowance, rows + 2, n - 1);
    }
  }

  lemma Unasked(es: seq<Entry>, questions: seq<Question>)
    requires NothingAsked(es)
    ensures FindApproval(es, "a", ArgsHash(Null), questions) == Missing
  {
  }

  /** An advance about to write its last, with all it was allowed and one row more. */
  ghost predicate Closing(s: State, base: nat, allowance: nat, rows: nat) {
    && s.turn.Some? && s.turn.value.phase == Committing(true)
    && s.turn.value.base == base && s.turn.value.allowance == allowance
    && |s.turn.value.conversation.entries| == rows
  }

  /** The last call: an intent, a request and a refusal, and the Turn is over. */
  lemma HeldCall(cfg: Config, s: State, base: nat, allowance: nat, rows: nat) returns (t: State)
    requires Reaches(cfg, Born("", 20), s) && Making(s, base, allowance, rows, 0)
    ensures Reaches(cfg, Born("", 20), t) && Closing(t, base, allowance, rows + 3)
  {
    hide Reaches, Run, Legal, NothingAsked, Append, NextSeq, UnresolvedIntent, FindApproval, Raise, RequestCount,
      ArgsHash, Plus;
    var birth := Born("", 20);
    var es := s.turn.value.conversation.entries;
    var first := s.turn.value.costEntry.None?;
    RowsAfter(es, IntentRow(HELD, if first then s.turn.value.narration else "", NextSeq(es),
                            if first then s.turn.value.bill else NoUsage));
    ReachesNext(cfg, birth, s, Intend);
    t := Apply(cfg, s, Intend);
    Unasked(t.turn.value.conversation.entries, t.store.questions);
    ReachesNext(cfg, birth, t, Gate(true));
    t := Apply(cfg, t, Gate(true));
    AppendAddsOne();
    ReachesNext(cfg, birth, t, Ask);
    t := Apply(cfg, t, Ask);
  }

  /** No calls at all: the reply is the one row more. */
  lemma RepliedTurn(cfg: Config, s: State, base: nat, allowance: nat, attempt: nat) returns (t: State)
    requires Reaches(cfg, Born("", 20), s) && Prompted(s, base, allowance, attempt) && attempt <= cfg.maxAttempts
    ensures Reaches(cfg, Born("", 20), t) && Closing(t, base, allowance, base + allowance + 1)
  {
    hide Reaches, Run, Legal, Append, Plus;
    AppendAddsOne();
    var reply := Attempt(Response(Answered, "", [], None, NoUsage));
    ReachesNext(cfg, Born("", 20), s, reply);
    t := Apply(cfg, s, reply);
  }

  lemma ToolTurn(cfg: Config, s: State, base: nat, allowance: nat, attempt: nat, c: nat) returns (t: State)
    requires Reaches(cfg, Born("", 20), s) && Prompted(s, base, allowance, attempt) && attempt <= cfg.maxAttempts
             && c >= 1
    ensures Reaches(cfg, Born("", 20), t) && Closing(t, base, allowance + 2 * c, base + allowance + 2 * c + 1)
  {
    hide Reaches, Run, Legal, Append, Plus, NothingAsked;
    CallsLength(c - 1);
    var reply := Attempt(Response(WantsTools, "", Calls(c - 1), None, NoUsage));
    ReachesNext(cfg, Born("", 20), s, reply);
    t := Apply(cfg, s, reply);
    t := RefusedCalls(cfg, t, base, allowance + 2 * c, base + allowance, c - 1);
    t := HeldCall(cfg, t, base, allowance + 2 * c, base + allowance + 2 * (c - 1));
  }

  /** Every attempt has failed: the escalation's note is the one row more. */
  lemma GivenUp(cfg: Config, s: State, base: nat, allowance: nat, attempt: nat) returns (t: State)
    requires Reaches(cfg, Born("", 20), s) && Prompted(s, base, allowance, attempt) && attempt > cfg.maxAttempts
    ensures Reaches(cfg, Born("", 20), t) && Closing(t, base, allowance, base + allowance + 1)
  {
    hide Reaches, Run, Legal, Append, UnresolvedIntent, Raise;
    AppendAddsOne();
    ReachesNext(cfg, Born("", 20), s, GiveUp);
    t := Apply(cfg, s, GiveUp);
    ReachesNext(cfg, Born("", 20), t, Escalate);
    t := Apply(cfg, t, Escalate);
  }

  /** The bound is exact: from any log the guard lets through that leaves room for a crashed call, an
      advance that recovers u calls, fails a attempts and makes c calls can store all of
      u + a + 2c + 1 rows, none of them calls when every attempt failed; so whenever that is more than the
      headroom, some advance overruns. */
  lemma BoundIsReached(cfg: Config, rows: nat, u: nat, a: nat, c: nat) returns (steps: seq<Step>)
    requires 2 <= rows <= 95
    requires u <= 1 && (u == 1 ==> cfg.maxAttempts >= 1)
    requires a <= cfg.maxAttempts && (a == cfg.maxAttempts ==> c == 0)
    ensures Legal(cfg, Born("", 20), steps + [Commit]) && Legal(cfg, Born("", 20), steps)
    ensures var s := Run(cfg, Born("", 20), steps);
            s.turn.Some? && s.turn.value.base == rows && Allowance(steps) == u + a + 2 * c
    ensures |Run(cfg, Born("", 20), steps + [Commit]).store.conversation.entries| == rows + u + a + 2 * c + 1
    ensures rows == 95 && u + a + 2 * c + 1 > 5 ==>
              |Run(cfg, Born("", 20), steps + [Commit]).store.conversation.entries| > 100
  {
    hide Prompted, Filling, Run, Legal, Born;
    var s;
    if u == 0 { s := BeginClean(cfg, rows); } else { s := BeginRecovering(cfg, rows); }
    s := FailingAttempts(cfg, s, rows, u, a);
    if a == cfg.maxAttempts {
      s := GivenUp(cfg, s, rows, u + a, a + 1);
    } else if c == 0 {
      s := RepliedTurn(cfg, s, rows, u + a, a + 1);
    } else {
      s := ToolTurn(cfg, s, rows, u + a, a + 1, c);
    }
    steps :| Legal(cfg, Born("", 20), steps) && Run(cfg, Born("", 20), steps) == s;
    RunIsRoomy(cfg, "", 20, steps);
    Extends(cfg, Born("", 20), steps, Commit);
  }

  /** Three calls are enough. */
  lemma ThreeCallsOverrun(cfg: Config) returns (steps: seq<Step>)
    requires cfg.maxAttempts >= 1
    ensures Legal(cfg, Born("", 20), steps)
    ensures |Run(cfg, Born("", 20), steps).store.conversation.entries| > 100
  {
    steps := BoundIsReached(cfg, 95, 0, 0, 3);
    steps := steps + [Commit];
  }
}
