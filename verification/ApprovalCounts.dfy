/** Requests and stamps for one call, counted over whole runs. */
module ApprovalCounts {
  import opened Wrappers
  import opened CanonicalJson
  import opened Conversations
  import opened Loop
  import opened IntentLog
  import opened ExactlyOnce
  import opened Approvals
  import opened ApprovalAccounts
  import opened Tallies
  import Keys

  predicate CallsFor(operation: string, args: Json, p: Pair) {
    operation == p.operation && ArgsHash(args) == p.hash
  }

  /** The call whose intent is open ran under a yes: the log is ready for its stamp. */
  ghost predicate Backed(es: seq<Entry>, xs: seq<Execution>, p: Pair) {
    forall x | x in xs && x.yes.Some? && CallsFor(x.operation, x.args, p) && OpenKey(es) == Some(x.key) ::
      ReadyAt(es, |es|, p)
  }

  /** A Conversation that waits on such a question has asked it. */
  ghost predicate Grounded(c: Conversation, questions: seq<Question>, p: Pair) {
    c.currentQuestion.Some? ==>
      && c.currentQuestion.value < |questions|
      && (Concerns(questions, c.currentQuestion.value, p) ==>
            AskedBefore(c.entries, c.currentQuestion.value, |c.entries|, p))
  }

  ghost predicate Sane(c: Conversation, questions: seq<Question>, xs: seq<Execution>, p: Pair) {
    Tally(c.entries, questions, p) && Backed(c.entries, xs, p) && Grounded(c, questions, p)
  }

  ghost predicate PhaseSane(t: Turn, questions: seq<Question>, p: Pair) {
    var es := t.conversation.entries;
    match t.phase
    case Asking(call, _) => CallsFor(call.operation, call.args, p) ==> Settled(es, p)
    case Executing(call, _, yes) => yes.Some? && CallsFor(call.operation, call.args, p) ==> ReadyAt(es, |es|, p)
    case Executed(call, _, yes, _, question, _, _) =>
      && (yes.Some? && CallsFor(call.operation, call.args, p) ==> ReadyAt(es, |es|, p))
      && (question.Some? ==> question.value < |questions| && questions[question.value].key.CallKey?)
    case _ => true
  }

  ghost predicate Counted(s: State, p: Pair) {
    && AllLive(s.store.questions)
    && Sane(s.store.conversation, s.store.questions, s.store.executions, p)
    && (s.turn.Some? ==>
          && Sane(s.turn.value.conversation, s.store.questions, s.store.executions, p)
          && PhaseSane(s.turn.value, s.store.questions, p))
  }

  /** No approval question is deleted; the gate can read the questions about this call; these arguments are
      put to the User for this Operation only; and recovery vouches for no such call that did not run under a
      yes. */
  ghost predicate Fair(s: State, step: Step, p: Pair) {
    && (step.Delete? && step.question < |s.store.questions| ==> !s.store.questions[step.question].key.ApprovalKey?)
    && (step == Gate(false) && s.turn.Some? && s.turn.value.phase.Gating? ==>
          !CallsFor(s.turn.value.phase.call.operation, s.turn.value.phase.call.args, p))
    && (step.Ask? && s.turn.Some? && s.turn.value.phase.Asking? ==>
          (ArgsHash(s.turn.value.phase.call.args) == p.hash ==> s.turn.value.phase.call.operation == p.operation))
    && (step.Reconcile? && s.turn.Some? && s.turn.value.phase.Reconciling? ==>
          var intent := s.turn.value.phase.intent;
          Vouched(s.turn.value.granted, intent, step.verdict) && CallsFor(intent.toolName, intent.toolArgs, p) ==>
            exists x :: x in s.store.executions && x.yes.Some? && Some(x.key) == intent.key)
  }

  ghost predicate FairRun(cfg: Config, s: State, steps: seq<Step>, p: Pair)
    requires Legal(cfg, s, steps)
  {
    steps == [] ||
    (var before := steps[..|steps| - 1];
     FairRun(cfg, s, before, p) && Fair(Run(cfg, s, before), steps[|steps| - 1], p))
  }

  // ------------------------------------------------------------------ rows and fields

  lemma SaneSame(c: Conversation, d: Conversation, questions: seq<Question>, xs: seq<Execution>, p: Pair)
    requires Sane(c, questions, xs, p) && d.entries == c.entries
    requires d.currentQuestion == c.currentQuestion || d.currentQuestion == None
    ensures Sane(d, questions, xs, p)
  {
  }

  lemma SaneWaiting(c: Conversation, d: Conversation, q: nat, questions: seq<Question>, xs: seq<Execution>, p: Pair)
    requires Sane(c, questions, xs, p) && d.entries == c.entries && d.currentQuestion == Some(q) && q < |questions|
    requires Concerns(questions, q, p) ==> AskedBefore(c.entries, q, |c.entries|, p)
    ensures Sane(d, questions, xs, p)
  {
  }

  /** A quiet log stays sane while its open call stays the same one, or one nothing ran for. */
  lemma QuietlySane(c: Conversation, d: Conversation, questions: seq<Question>, xs: seq<Execution>, p: Pair)
    requires Sane(c, questions, xs, p) && Quietly(c.entries, d.entries, p) && d.currentQuestion == c.currentQuestion
    requires OpenKey(d.entries) == OpenKey(c.entries) || forall x | x in xs :: OpenKey(d.entries) != Some(x.key)
    ensures Sane(d, questions, xs, p)
  {
    hide Tally, OpenKey;
    QuietKeeps(c.entries, d.entries, questions, p);
    if c.currentQuestion.Some? && Concerns(questions, c.currentQuestion.value, p) {
      AskedLater(c.entries, d.entries, c.currentQuestion.value, |c.entries|, p);
    }
  }

  lemma QuietAppend(es: seq<Entry>, row: Entry, p: Pair)
    requires Quiet(row, p)
    ensures Quietly(es, Append(es, row), p)
  {
  }

  lemma PlainSane(c: Conversation, row: Entry, questions: seq<Question>, xs: seq<Execution>, p: Pair)
    requires Sane(c, questions, xs, p) && WellLogged(c.entries) && Unkeyed(row) && Quiet(row, p)
    ensures Sane(Appended(c, row), questions, xs, p) && WellLogged(Appended(c, row).entries)
  {
    hide Sane, WellLogged, OpenKey, Append;
    UnkeyedKeeps(c.entries, row);
    QuietAppend(c.entries, row, p);
    QuietlySane(c, Appended(c, row), questions, xs, p);
  }

  lemma ResultSane(c: Conversation, row: Entry, questions: seq<Question>, xs: seq<Execution>, p: Pair)
    requires Sane(c, questions, xs, p) && WellLogged(c.entries) && UnresolvedIntent(c.entries).Some?
    requires row.kind == ToolResult && row.key.Some? && row.key == OpenKey(c.entries)
    requires Matches(row, UnresolvedIntent(c.entries).value)
    requires Stamps(row, p) ==> ReadyAt(c.entries, |c.entries|, p)
    ensures Sane(Appended(c, row), questions, xs, p) && WellLogged(Appended(c, row).entries)
  {
    hide Tally, WellLogged, OpenKey, Append;
    ResultKeeps(c.entries, row);
    if Stamps(row, p) {
      StampKeeps(c.entries, row, questions, p);
      AppendIs(c.entries, row);
      if c.currentQuestion.Some? && Concerns(questions, c.currentQuestion.value, p) {
        AskedLater(c.entries, Append(c.entries, row), c.currentQuestion.value, |c.entries|, p);
      }
    } else {
      QuietAppend(c.entries, row, p);
      QuietlySane(c, Appended(c, row), questions, xs, p);
    }
  }

  lemma EscalatedSane(c: Conversation, questions: seq<Question>, xs: seq<Execution>, p: Pair)
    requires Sane(c, questions, xs, p) && WellLogged(c.entries)
    ensures Sane(Escalated(c), questions, xs, p)
  {
    hide Sane, WellLogged;
    var d := c.(escalations := c.escalations + 1);
    SaneSame(c, d, questions, xs, p);
    PlainSane(d, PlainRow(ErrorNote, "stuck"), questions, xs, p);
  }

  /** Questions keep their keys and gain company. */
  lemma SaneLater(c: Conversation, old': seq<Question>, new': seq<Question>, xs: seq<Execution>, p: Pair)
    requires Sane(c, old', xs, p) && KeysKept(old', new')
    ensures Sane(c, new', xs, p)
  {
    hide Tally;
    TallyLater(c.entries, old', new', p);
  }

  // ------------------------------------------------------------------ the steps

  lemma GuardSane(s: State, assistant: Option<AssistantInfo>, granted: map<string, Grant>, p: Pair)
    requires Good(s) && Counted(s, p) && s.turn.Some? && s.turn.value.phase.Guards?
    ensures Sane(GuardTurn(s.turn.value, assistant, granted).conversation, s.store.questions, s.store.executions, p)
    ensures PhaseSane(GuardTurn(s.turn.value, assistant, granted), s.store.questions, p)
  {
    hide Sane, WellLogged, Append, UnresolvedIntent, BuildMessages, Grown, OpenKey;
    var c, questions, xs := s.turn.value.conversation, s.store.questions, s.store.executions;
    PlainSane(c, PlainRow(ErrorNote, "full"), questions, xs, p);
    EscalatedSane(c, questions, xs, p);
    SaneSame(c, c.(leased := false), questions, xs, p);
    SaneSame(c, c.(status := Running, waitingFor := Nobody), questions, xs, p);
    var noted := if |c.entries| < MAX_ENTRIES then Appended(c, PlainRow(ErrorNote, "full")) else c;
    SaneSame(noted, EndedFull(c), questions, xs, p);
    if assistant.Some? {
      var more := c.(maxTurns := Some(TurnLimit(c, assistant.value) + TURN_GRANT_ON_ESCALATION));
      SaneSame(c, more, questions, xs, p);
      EscalatedSane(more, questions, xs, p);
    }
  }

  lemma EscalateSane(cfg: Config, s: State, p: Pair)
    requires Counted(s, p) && s.turn.Some? && s.turn.value.phase.Escalating?
    ensures Sane(EscalateStep(cfg, s).turn.value.conversation, EscalateStep(cfg, s).store.questions, s.store.executions,
                 p)
  {
    hide Sane, Raise;
    var c, questions, xs := s.turn.value.conversation, s.store.questions, s.store.executions;
    if c.escalations > cfg.maxEscalations {
      SaneSame(c, c.(status := Failed, leased := false, currentQuestion := None), questions, xs, p);
    } else {
      var (more, id) := Raise(questions, Keys.EscalationKey(c.escalations));
      RaiseKeepsKeys(questions, Keys.EscalationKey(c.escalations));
      SaneLater(c, questions, more, xs, p);
      var asked := c.(status := Waiting, waitingFor := User, currentQuestion := Some(id), leased := false);
      SaneWaiting(c, asked, id, more, xs, p);
    }
  }

  lemma RaiseKeepsKeys(questions: seq<Question>, key: Keys.Key)
    ensures var (more, id) := Raise(questions, key);
            KeysKept(questions, more) && id < |more| && more[id].key == key && (AllLive(questions) ==> AllLive(more))
  {
  }

  lemma ReconcileSane(s: State, verdict: Option<Outcome>, p: Pair)
    requires Good(s) && Counted(s, p) && s.turn.Some? && s.turn.value.phase.Reconciling?
    requires Fair(s, Reconcile(verdict), p)
    ensures Sane(ReconcileStep(s, verdict).turn.value.conversation, s.store.questions, s.store.executions, p)
  {
    hide Sane, WellLogged, Append, BuildMessages, Settlement, SettledStamp, FindByKey, OpenKey, Tally, Grown, Good;
    var t := s.turn.value;
    var c, questions, xs := t.conversation, s.store.questions, s.store.executions;
    var intent := t.phase.intent;
    var settled := Settlement(t.granted, intent, verdict);
    var row := ResultRow(intent.toolName, intent.key, SettledStamp(t.granted, intent, settled));
    ReconcilingReads(s);
    RecoveryStamps(t.granted, intent, verdict);
    if Stamps(row, p) { ReconciledIsReady(s, p); }
    ResultSane(c, row, questions, xs, p);
    var late := Appended(c, row);
    EscalatedSane(late, questions, xs, p);
    if settled.Some? && settled.value.Suspension? {
      var id := if settled.value.asks && intent.key.Some?
                then FindByKey(questions, Keys.CallKey(intent.key.value), 0) else None;
      var d := Suspended(late, settled.value.waitingFor, settled.value.wakes, id);
      if id.Some? { SaneWaiting(late, d, id.value, questions, xs, p); } else { SaneSame(late, d, questions, xs, p); }
    }
  }

  lemma ReconcilingReads(s: State)
    requires Good(s) && s.turn.Some? && s.turn.value.phase.Reconciling?
    ensures var es, intent := s.turn.value.conversation.entries, s.turn.value.phase.intent;
            WellLogged(es) && UnresolvedIntent(es) == Some(intent) && OpenKey(es) == intent.key && intent.key.Some?
            && es == s.store.conversation.entries
  {
    hide WellLogged, Grown, UnresolvedIntent, OpenKey;
    OpenKeyReads(s.turn.value.conversation.entries);
  }

  /** The intent recovery stamps ran under a yes, for the call it names. */
  lemma ReconciledIsReady(s: State, p: Pair)
    requires Good(s) && Counted(s, p) && s.turn.Some? && s.turn.value.phase.Reconciling?
    requires var intent := s.turn.value.phase.intent;
             intent.toolName == p.operation && ArgsHash(intent.toolArgs) == p.hash
             && exists x :: x in s.store.executions && x.yes.Some? && Some(x.key) == intent.key
    ensures ReadyAt(s.turn.value.conversation.entries, |s.turn.value.conversation.entries|, p)
  {
    hide Tally, Grown, ReadyAt;
    var es, intent := s.turn.value.conversation.entries, s.turn.value.phase.intent;
    ReconcilingReads(s);
    var x :| x in s.store.executions && x.yes.Some? && Some(x.key) == intent.key;
    assert Announced(s.store, x);
    AnnouncedIsTheIntent(es, x);
  }

  lemma AnnouncedIsTheIntent(es: seq<Entry>, x: Execution)
    requires WellLogged(es) && HasIntent(es, x.key, Call(x.operation, x.args))
    requires UnresolvedIntent(es).Some? && UnresolvedIntent(es).value.key == Some(x.key)
    ensures UnresolvedIntent(es).value.toolName == x.operation && UnresolvedIntent(es).value.toolArgs == x.args
  {
  }

  lemma AttemptSane(s: State, reply: ModelReply, p: Pair)
    requires Good(s) && Counted(s, p) && s.turn.Some? && s.turn.value.phase.Prompting?
    ensures Sane(AttemptStep(s, reply).turn.value.conversation, s.store.questions, s.store.executions, p)
  {
    hide Sane, WellLogged, Append, OpenKey, Grown, Plus;
    var c, questions, xs := s.turn.value.conversation, s.store.questions, s.store.executions;
    PlainSane(c, PlainRow(ErrorNote, "transient"), questions, xs, p);
    EscalatedSane(c, questions, xs, p);
    if reply.Response? {
      var counted := c.(turnCount := c.turnCount + 1);
      SaneSame(c, counted, questions, xs, p);
      EscalatedSane(counted, questions, xs, p);
      var bill := if reply.usage.Some? then reply.usage.value else NoUsage;
      var row := PlainRow(Reply, reply.text).(usage := bill);
      PlainSane(counted, row, questions, xs, p);
      SaneSame(Appended(counted, row), Appended(counted, row).(status := Done, leased := false), questions, xs, p);
    }
  }

  lemma IntendSane(s: State, p: Pair)
    requires Good(s) && Counted(s, p) && s.turn.Some? && s.turn.value.phase.Calling? && s.turn.value.calls != []
    ensures Sane(IntendStep(s).turn.value.conversation, s.store.questions, s.store.executions, p)
  {
    hide Sane, WellLogged, Append, OpenKey, Grown, NextSeq, Tally;
    var t := s.turn.value;
    var c, es := t.conversation, t.conversation.entries;
    var first := t.costEntry.None?;
    var row := IntentRow(t.calls[0], if first then t.narration else "", NextSeq(es), if first then t.bill else NoUsage);
    IntentKeeps(es, row);
    NewKeyIsFresh(s.store, t);
    QuietAppend(es, row, p);
    QuietlySane(c, Appended(c, row), s.store.questions, s.store.executions, p);
  }

  lemma InHandReads(store: Store, t: Turn, call: Call, key: nat)
    requires GoodTurn(store, t) && InHand(store, t, call, key)
    ensures var es := t.conversation.entries;
            && WellLogged(es) && UnresolvedIntent(es).Some? && OpenKey(es) == Some(key)
            && UnresolvedIntent(es).value.toolName == call.operation && UnresolvedIntent(es).value.toolArgs == call.args
  {
  }

  lemma RefusalSane(s: State, t: Turn, call: Call, key: nat, p: Pair)
    requires s.turn.Some? && GoodTurn(s.store, s.turn.value) && InHand(s.store, s.turn.value, call, key)
    requires Sane(t.conversation, s.store.questions, s.store.executions, p)
             && t.conversation == s.turn.value.conversation
    ensures Sane(Appended(t.conversation, ResultRow(call.operation, Some(key), None)), s.store.questions,
                 s.store.executions, p)
  {
    hide Sane, WellLogged, Append, OpenKey, Grown;
    InHandReads(s.store, s.turn.value, call, key);
    ResultSane(t.conversation, ResultRow(call.operation, Some(key), None), s.store.questions, s.store.executions, p);
  }

  lemma GateSane(s: State, read: bool, p: Pair)
    requires Good(s) && Counted(s, p) && Asked(s) && s.turn.Some? && s.turn.value.phase.Gating?
    requires Fair(s, Gate(read), p)
    ensures var next := GateTurn(s.turn.value, Readable(s.store.questions, read));
            && Sane(next.conversation, s.store.questions, s.store.executions, p)
            && PhaseSane(next, s.store.questions, p)
  {
    hide Sane, WellLogged, Append, OpenKey, Grown, FindApproval, Tally, Asked, ReadyAt, Settled, Readable;
    var t, questions := s.turn.value, s.store.questions;
    var call, key := t.phase.call, t.phase.key;
    UnreadIsMissing(t.conversation.entries, call.operation, ArgsHash(call.args), questions, read);
    RefusalSane(s, t, call, key, p);
    var late := Appended(t.conversation, ResultRow(call.operation, Some(key), None));
    var approval := FindApproval(t.conversation.entries, call.operation, ArgsHash(call.args), questions);
    if approval.Pending? {
      PendingIsAsked(s, call, approval.questionId, p);
      AskedInLonger(t.conversation.entries, ResultRow(call.operation, Some(key), None), approval.questionId, p);
      SaneWaiting(late, Suspended(late, User, false, Some(approval.questionId)), approval.questionId, questions,
                  s.store.executions, p);
    }
    if CallsFor(call.operation, call.args, p) {
      GateReadsTheLog(s, p);
    }
  }

  lemma GateReadsTheLog(s: State, p: Pair)
    requires Good(s) && Counted(s, p) && s.turn.Some? && s.turn.value.phase.Gating?
    ensures var es := s.turn.value.conversation.entries;
            var approval := FindApproval(es, p.operation, p.hash, s.store.questions);
            && (approval.Valid? ==> ReadyAt(es, |es|, p))
            && (approval.Missing? || approval.Consumed? ==> Settled(es, p))
  {
    hide Tally, FindApproval, ReadyAt, Settled, Backed, Grounded;
    var es := s.turn.value.conversation.entries;
    var approval := FindApproval(es, p.operation, p.hash, s.store.questions);
    if approval.Valid? { ValidIsReady(es, s.store.questions, p, approval.questionId); }
    if approval.Missing? || approval.Consumed? { AskingIsSettled(es, s.store.questions, p); }
  }

  lemma AskedInLonger(es: seq<Entry>, row: Entry, q: nat, p: Pair)
    ensures AskedBefore(es, q, |es|, p) ==> AskedBefore(Append(es, row), q, |es| + 1, p)
    ensures |Append(es, row)| == |es| + 1
  {
    AppendIs(es, row);
    if AskedBefore(es, q, |es|, p) { AskedLater(es, Append(es, row), q, |es|, p); }
  }

  /** A question a call waits on has been asked, for that call. */
  lemma PendingIsAsked(s: State, call: Call, q: nat, p: Pair)
    requires Counted(s, p) && Asked(s) && s.turn.Some?
    requires FindApproval(s.turn.value.conversation.entries, call.operation, ArgsHash(call.args), s.store.questions)
             == Pending(q)
    ensures q < |s.store.questions|
    ensures Concerns(s.store.questions, q, p) ==>
              AskedBefore(s.turn.value.conversation.entries, q, |s.turn.value.conversation.entries|, p)
  {
    hide Spaced, Earned, AnswersFollow, Backed, Grounded;
  }

  lemma AskSane(s: State, p: Pair)
    requires Good(s) && Counted(s, p) && s.turn.Some? && s.turn.value.phase.Asking? && Fair(s, Ask, p)
    ensures Sane(AskStep(s).turn.value.conversation, AskStep(s).store.questions, s.store.executions, p)
  {
    hide Sane, WellLogged, Append, OpenKey, Grown, RequestCount, Raise, Tally, Settled;
    var t := s.turn.value;
    var call, key, c := t.phase.call, t.phase.key, t.conversation;
    var hash := ArgsHash(call.args);
    var askKey := Keys.ApprovalKey(hash, RequestCount(c.entries, call.operation, hash) + 1);
    var (more, id) := Raise(s.store.questions, askKey);
    var row := RequestRow(call.operation, hash, id);
    var result := ResultRow(call.operation, Some(key), None);
    RaiseKeepsKeys(s.store.questions, askKey);
    SaneLater(c, s.store.questions, more, s.store.executions, p);
    InHandReads(s.store, t, call, key);
    RequestSane(s, c, more, row, p);
    var asked := Appended(c, row);
    UnkeyedKeeps(c.entries, row);
    ResultSane(asked, result, more, s.store.executions, p);
    var late := Appended(asked, result);
    AskedInLonger(asked.entries, result, id, p);
    SaneWaiting(late, Suspended(late, User, false, Some(id)), id, more, s.store.executions, p);
  }

  /** The request row, whether it is for this call or for another. */
  lemma RequestSane(s: State, c: Conversation, more: seq<Question>, row: Entry, p: Pair)
    requires Good(s) && Counted(s, p) && s.turn.Some? && s.turn.value.phase.Asking? && Fair(s, Ask, p)
    requires c == s.turn.value.conversation && Sane(c, more, s.store.executions, p)
    requires var call := s.turn.value.phase.call;
             row.questionId.Some? && row == RequestRow(call.operation, ArgsHash(call.args), row.questionId.value)
             && row.questionId.value < |more|
             && more[row.questionId.value].key
                == Keys.ApprovalKey(ArgsHash(call.args),
                                    RequestCount(c.entries, call.operation, ArgsHash(call.args)) + 1)
    ensures Sane(Appended(c, row), more, s.store.executions, p)
    ensures Concerns(more, row.questionId.value, p) ==>
              AskedBefore(Append(c.entries, row), row.questionId.value, |Append(c.entries, row)|, p)
  {
    hide WellLogged, Append, OpenKey, Grown, Tally, Settled;
    var call := s.turn.value.phase.call;
    UnkeyedKeeps(c.entries, row);
    AppendIs(c.entries, row);
    if CallsFor(call.operation, call.args, p) {
      RequestKeeps(c.entries, row, more, p);
      if c.currentQuestion.Some? && Concerns(more, c.currentQuestion.value, p) {
        AskedLater(c.entries, Append(c.entries, row), c.currentQuestion.value, |c.entries|, p);
      }
    } else {
      QuietAppend(c.entries, row, p);
      QuietlySane(c, Appended(c, row), more, s.store.executions, p);
    }
  }

  lemma ExecuteSane(s: State, outcome: Outcome, landed: bool, report: Report, spent: Usage, p: Pair)
    requires Good(s) && Counted(s, p) && s.turn.Some? && s.turn.value.phase.Executing?
    ensures Counted(ExecuteStep(s, outcome, landed, report, spent), p)
  {
    hide WellLogged, OpenKey, Grown, Raise, Tally, ReadyAt;
    var t := s.turn.value;
    var next := ExecuteStep(s, outcome, landed, report, spent).store;
    RaiseKeepsKeys(s.store.questions, Keys.CallKey(t.phase.key));
    SaneLater(s.store.conversation, s.store.questions, next.questions, s.store.executions, p);
    SaneLater(t.conversation, s.store.questions, next.questions, s.store.executions, p);
  }

  lemma RecordSane(s: State, p: Pair)
    requires Good(s) && Counted(s, p) && s.turn.Some? && s.turn.value.phase.Executed?
    requires s.turn.value.costEntry.Some? && s.turn.value.costEntry.value < |s.turn.value.conversation.entries|
    ensures Sane(RecordStep(s).turn.value.conversation, s.store.questions, s.store.executions, p)
  {
    hide Sane, WellLogged, Append, OpenKey, Grown, Tally, ReadyAt, AddUsage, OperationUsage;
    var t := s.turn.value;
    var c, ph, questions, xs := t.conversation, t.phase, s.store.questions, s.store.executions;
    InHandReads(s.store, t, ph.call, ph.key);
    var stamp := if ph.yes.Some? && ph.outcome.Value? then Some(ArgsHash(ph.call.args)) else None;
    var row := ResultRow(ph.call.operation, Some(ph.key), stamp);
    ResultSane(c, row, questions, xs, p);
    var late := Appended(c, row);
    AppendIs(c.entries, row);
    if ph.outcome.Suspension? {
      var d := Suspended(late, ph.outcome.waitingFor, ph.outcome.wakes, ph.question);
      if ph.question.Some? {
        SaneWaiting(late, d, ph.question.value, questions, xs, p);
      } else {
        SaneSame(late, d, questions, xs, p);
      }
    } else if OperationUsage(ph.report).Some? {
      TokensSane(late, t.costEntry.value, OperationUsage(ph.report).value, questions, xs, p);
    }
  }

  lemma TokensSane(c: Conversation, at: nat, usage: Usage, questions: seq<Question>, xs: seq<Execution>, p: Pair)
    requires Sane(c, questions, xs, p) && WellLogged(c.entries) && at < |c.entries|
    ensures Sane(c.(entries := AddUsage(c.entries, at, usage)), questions, xs, p)
  {
    hide Sane, WellLogged, OpenKey, Grown;
    AddUsageGrows(c.entries, at, usage);
    UsageKeeps(c.entries, AddUsage(c.entries, at, usage));
    QuietlySane(c, c.(entries := AddUsage(c.entries, at, usage)), questions, xs, p);
  }

  lemma AnsweredSane(c: Conversation, text: string, questions: seq<Question>, xs: seq<Execution>, p: Pair)
    requires Sane(c, questions, xs, p) && WellLogged(c.entries) && c.currentQuestion.Some?
    ensures Sane(Appended(c.(status := Running, waitingFor := Nobody, currentQuestion := None),
                          PlainRow(Answer, text).(questionId := c.currentQuestion)), questions, xs, p)
  {
    hide Tally, WellLogged, OpenKey, Append, ReadyAt;
    var row := PlainRow(Answer, text).(questionId := c.currentQuestion);
    AnswerKeeps(c.entries, row, questions, p);
    UnkeyedKeeps(c.entries, row);
    AppendIs(c.entries, row);
  }

  lemma IdleSane(cfg: Config, s: State, step: Step, p: Pair)
    requires Good(s) && Counted(s, p) && Enabled(cfg, s, step) && s.turn.None? && !step.SetAnswer? && !step.Delete?
    ensures Counted(Apply(cfg, s, step), p)
  {
    hide Sane, WellLogged, OpenKey, Append, UnresolvedIntent, Grown;
    var c, questions, xs := s.store.conversation, s.store.questions, s.store.executions;
    var woken := c.(status := Running, waitingFor := Nobody);
    SaneSame(c, woken, questions, xs, p);
    match step
    case WatchAnswered(text) => AnsweredSane(c, text, questions, xs, p);
    case WatchGone(_) =>
      var freed := woken.(currentQuestion := None);
      SaneSame(c, freed, questions, xs, p);
      PlainSane(freed, PlainRow(ErrorNote, "gone"), questions, xs, p);
    case WatchWoken =>
      SaneSame(c, woken.(wakes := false), questions, xs, p);
      PlainSane(woken.(wakes := false), PlainRow(Timeout, "woken"), questions, xs, p);
    case Deliver(text) =>
      SaneSame(c, woken.(wakes := false), questions, xs, p);
      PlainSane(woken.(wakes := false), PlainRow(Answer, text), questions, xs, p);
      PlainSane(c, PlainRow(Answer, text), questions, xs, p);
    case _ =>
      SaneSame(c, c.(leased := true), questions, xs, p);
      SaneSame(c, c.(leased := false), questions, xs, p);
  }

  // ------------------------------------------------------------------ every step, every run

  lemma EscalateCounted(cfg: Config, s: State, p: Pair)
    requires Counted(s, p) && s.turn.Some? && s.turn.value.phase.Escalating?
    ensures Counted(EscalateStep(cfg, s), p)
  {
    hide Sane, Raise;
    EscalateSane(cfg, s, p);
    var key := Keys.EscalationKey(s.turn.value.conversation.escalations);
    RaiseKeepsKeys(s.store.questions, key);
    SaneLater(s.store.conversation, s.store.questions, Raise(s.store.questions, key).0, s.store.executions, p);
  }

  lemma ReconcileCounted(s: State, verdict: Option<Outcome>, p: Pair)
    requires Good(s) && Counted(s, p) && s.turn.Some? && s.turn.value.phase.Reconciling?
    requires Fair(s, Reconcile(verdict), p)
    ensures Counted(ReconcileStep(s, verdict), p)
  {
    hide Sane, Good, Fair, Append, BuildMessages, Settlement, SettledStamp, FindByKey, UnresolvedIntent;
    ReconcileSane(s, verdict, p);
  }

  lemma IntendCounted(s: State, p: Pair)
    requires Good(s) && Counted(s, p) && s.turn.Some? && s.turn.value.phase.Calling? && s.turn.value.calls != []
    ensures Counted(IntendStep(s), p)
  {
    hide Sane, Good, Append, NextSeq;
    IntendSane(s, p);
  }

  lemma AskCounted(s: State, p: Pair)
    requires Good(s) && Counted(s, p) && s.turn.Some? && s.turn.value.phase.Asking? && Fair(s, Ask, p)
    ensures Counted(AskStep(s), p)
  {
    hide Sane, Good, Append, Raise, RequestCount, Fair;
    AskSane(s, p);
    var call := s.turn.value.phase.call;
    var hash := ArgsHash(call.args);
    var key := Keys.ApprovalKey(hash, RequestCount(s.turn.value.conversation.entries, call.operation, hash) + 1);
    RaiseKeepsKeys(s.store.questions, key);
    SaneLater(s.store.conversation, s.store.questions, Raise(s.store.questions, key).0, s.store.executions, p);
  }

  lemma RecordCounted(s: State, p: Pair)
    requires Good(s) && Counted(s, p) && s.turn.Some? && s.turn.value.phase.Executed?
    requires s.turn.value.costEntry.Some? && s.turn.value.costEntry.value < |s.turn.value.conversation.entries|
    ensures Counted(RecordStep(s), p)
  {
    hide Sane, Good, Append, AddUsage, OperationUsage, Plus;
    RecordSane(s, p);
  }

  lemma AttemptCounted(s: State, reply: ModelReply, p: Pair)
    requires Good(s) && Counted(s, p) && s.turn.Some? && s.turn.value.phase.Prompting?
    ensures Counted(AttemptStep(s, reply), p)
  {
    hide Sane, Good, Append, Plus, UnresolvedIntent;
    AttemptSane(s, reply, p);
  }

  lemma QuestionsCounted(s: State, questions: seq<Question>, confirmed: set<nat>, p: Pair)
    requires Counted(s, p) && AllLive(questions) && KeysKept(s.store.questions, questions)
    ensures Counted(s.(store := s.store.(questions := questions, confirmed := confirmed)), p)
  {
    hide Sane;
    SaneLater(s.store.conversation, s.store.questions, questions, s.store.executions, p);
    if s.turn.Some? {
      SaneLater(s.turn.value.conversation, s.store.questions, questions, s.store.executions, p);
    }
  }

  lemma StepCounts(cfg: Config, s: State, step: Step, p: Pair)
    requires Good(s) && Asked(s) && Counted(s, p) && Enabled(cfg, s, step) && Fair(s, step, p)
    ensures Counted(Apply(cfg, s, step), p)
  {
    hide Sane, Good, Asked, EscalateStep, ReconcileStep, AttemptStep, IntendStep, AskStep, ExecuteStep, RecordStep,
      GuardTurn, GateTurn, ToEscalation, BeginTurn, Watched, Plus, InFlight, Append;
    match step
    case Guard(assistant, granted) => GuardSane(s, assistant, granted, p);
    case Escalate => EscalateCounted(cfg, s, p);
    case Reconcile(verdict) => ReconcileCounted(s, verdict, p);
    case Attempt(reply) => AttemptCounted(s, reply, p);
    case GiveUp => GiveUpCounted(s, p);
    case Intend => IntendCounted(s, p);
    case EndCalls => EndCallsCounted(s, p);
    case Gate(read) => GateSane(s, read, p);
    case Ask => AskCounted(s, p);
    case Execute(outcome, landed, report, spent) => ExecuteSane(s, outcome, landed, report, spent, p);
    case Record => RecordCounted(s, p);
    case Commit =>
    case Crash =>
    case SetAnswer(q, confirmed, spoken) =>
      var questions := s.store.questions[q := s.store.questions[q].(confirmed := confirmed, spoken := spoken)];
      QuestionsCounted(s, questions, s.store.confirmed + if confirmed == Some(true) then {q} else {}, p);
    case Delete(q) =>
      QuestionsCounted(s, s.store.questions[q := s.store.questions[q].(live := false)], s.store.confirmed, p);
    case _ => IdleSane(cfg, s, step, p);
  }

  lemma GiveUpCounted(s: State, p: Pair)
    requires Good(s) && Counted(s, p) && s.turn.Some? && s.turn.value.phase.Prompting?
    ensures Counted(s.(turn := Some(ToEscalation(s.turn.value, s.turn.value.conversation))), p)
  {
    hide Sane, WellLogged, Grown, OpenKey, Append, UnresolvedIntent;
    EscalatedSane(s.turn.value.conversation, s.store.questions, s.store.executions, p);
  }

  lemma EndCallsCounted(s: State, p: Pair)
    requires Counted(s, p) && s.turn.Some? && s.turn.value.phase.Calling?
    ensures Counted(EndCallsStep(s), p)
  {
    hide Sane, Plus;
    var c := s.turn.value.conversation;
    SaneSame(c, c.(leased := false, status := Running), s.store.questions, s.store.executions, p);
  }

  lemma BornCounted(prompt: string, maxTurns: nat, p: Pair)
    ensures Counted(Born(prompt, maxTurns), p)
  {
  }

  lemma {:induction false} RunCounts(cfg: Config, prompt: string, maxTurns: nat, steps: seq<Step>, p: Pair)
    requires Legal(cfg, Born(prompt, maxTurns), steps) && FairRun(cfg, Born(prompt, maxTurns), steps, p)
    ensures Counted(Run(cfg, Born(prompt, maxTurns), steps), p)
  {
    hide Apply, Enabled, Counted, Born, Fair;
    if steps == [] {
      BornCounted(prompt, maxTurns, p);
    } else {
      var before := steps[..|steps| - 1];
      RunCounts(cfg, prompt, maxTurns, before, p);
      RunKeeps(cfg, prompt, maxTurns, before);
      RunAsks(cfg, prompt, maxTurns, before);
      StepCounts(cfg, Run(cfg, Born(prompt, maxTurns), before), steps[|steps| - 1], p);
    }
  }

  /** Conservation of approvals, over every fair crashing run: of one Operation with one set of
      arguments there are never more stamped results than requests, and never more than one request
      that no stamped result has spent. */
  lemma RequestsMatchStamps(cfg: Config, prompt: string, maxTurns: nat, steps: seq<Step>, p: Pair)
    requires Legal(cfg, Born(prompt, maxTurns), steps) && FairRun(cfg, Born(prompt, maxTurns), steps, p)
    ensures var es := Run(cfg, Born(prompt, maxTurns), steps).store.conversation.entries;
            StampCount(es, p) <= Requests(es, p) <= StampCount(es, p) + 1
  {
    hide Run, Legal, FairRun, Born;
    RunCounts(cfg, prompt, maxTurns, steps, p);
    var es := Run(cfg, Born(prompt, maxTurns), steps).store.conversation.entries;
    RequestsWithinStamps(es, p);
    StampsWithinRequests(es, p, |es|);
    assert es[..|es|] == es;
  }
}
