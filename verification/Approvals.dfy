/** What a User's yes pays for. Every execution under an approval is traced to the question whose
    yes let it run, and a question lets the same call run twice only over a result nobody stamped. */
module Approvals {
  import opened Wrappers
  import opened CanonicalJson
  import opened Conversations
  import opened Loop
  import opened IntentLog
  import opened ExactlyOnce
  import Keys

  // ------------------------------------------------------------------ the vocabulary

  ghost predicate SameCall(x: Execution, y: Execution) {
    x.operation == y.operation && ArgsHash(x.args) == ArgsHash(y.args)
  }

  ghost predicate Stamped(es: seq<Entry>, key: nat) {
    exists i :: 0 <= i < |es| && es[i].kind == ToolResult && es[i].key == Some(key) && es[i].argsHash.Some?
  }

  /** The call's result is on record and says nothing of an approval having been spent. */
  ghost predicate Unspent(es: seq<Entry>, key: nat) {
    Resolved(es, Some(key)) && !Stamped(es, key)
  }

  ghost predicate AnswerBefore(es: seq<Entry>, question: nat, key: nat) {
    exists i :: 0 <= i < |es| && IsAnswer(es[i], question) && es[i].seqNo < key
  }

  ghost predicate Requested(es: seq<Entry>, operation: string, hash: string, question: nat) {
    exists i :: 0 <= i < |es| && IsRequest(es[i], operation, hash) && es[i].questionId == Some(question)
  }

  /** A yes was given, recorded, and asked for, before this call was made. */
  ghost predicate Authorised(es: seq<Entry>, confirmed: set<nat>, operation: string, args: Json, key: nat, q: nat) {
    && q in confirmed
    && AnswerBefore(es, q, key)
    && Requested(es, operation, ArgsHash(args), q)
  }

  ghost predicate ExecutionsAuthorised(store: Store) {
    forall x | x in store.executions && x.yes.Some? ::
      Authorised(store.conversation.entries, store.confirmed, x.operation, x.args, x.key, x.yes.value)
  }

  /** A second execution of one call under one yes leaves the first one's result unstamped. */
  ghost predicate RepeatsAreUnspent(store: Store) {
    forall i, j | 0 <= i < j < |store.executions|
                  && store.executions[i].yes.Some? && store.executions[i].yes == store.executions[j].yes
                  && SameCall(store.executions[i], store.executions[j]) ::
      Unspent(store.conversation.entries, store.executions[i].key)
  }

  /** Only a question that was once answered yes reads as confirmed. */
  ghost predicate ConfirmedOnRecord(store: Store) {
    forall q | 0 <= q < |store.questions| && store.questions[q].confirmed == Some(true) :: q in store.confirmed
  }

  /** A valid approval in hand: nothing after its answer has spent it. */
  ghost predicate ReadyToSpend(store: Store, t: Turn, call: Call, key: nat, q: nat) {
    && Authorised(store.conversation.entries, store.confirmed, call.operation, call.args, key, q)
    && FirstAnswer(t.conversation.entries, q).Some?
    && !Spent(t.conversation.entries, call.operation, ArgsHash(call.args),
              FirstAnswer(t.conversation.entries, q).value.seqNo)
  }

  /** The execution just made is on record under the key in hand. */
  ghost predicate JustExecuted(store: Store, call: Call, key: nat, yes: Option<nat>) {
    exists x :: x in store.executions && x.key == key && x.operation == call.operation && x.args == call.args
                && x.yes == yes
  }

  ghost predicate TurnApproved(store: Store, t: Turn) {
    match t.phase
    case Executing(call, key, yes) => yes.Some? ==> ReadyToSpend(store, t, call, key, yes.value)
    case Executed(call, key, yes, _, _, _, _) => JustExecuted(store, call, key, yes)
    case _ => true
  }

  ghost predicate Approved(s: State) {
    && ExecutionsAuthorised(s.store)
    && RepeatsAreUnspent(s.store)
    && ConfirmedOnRecord(s.store)
    && (s.turn.Some? ==> TurnApproved(s.store, s.turn.value))
  }

  // ------------------------------------------------------------------ records only grow

  lemma AuthorisedGrows(a: seq<Entry>, b: seq<Entry>, some: set<nat>, more: set<nat>,
                        operation: string, args: Json, key: nat, q: nat)
    requires Grown(a, b) && some <= more && Authorised(a, some, operation, args, key, q)
    ensures Authorised(b, more, operation, args, key, q)
  {
  }

  lemma UnspentGrows(a: seq<Entry>, b: seq<Entry>, key: nat)
    requires Grown(a, b) && WellLogged(b) && Unspent(a, key)
    ensures Unspent(b, key)
  {
  }

  lemma RecordsGrow(old': Store, new': Store)
    requires Grown(old'.conversation.entries, new'.conversation.entries) && WellLogged(new'.conversation.entries)
    requires old'.confirmed <= new'.confirmed && old'.executions == new'.executions
    requires ExecutionsAuthorised(old') && RepeatsAreUnspent(old')
    ensures ExecutionsAuthorised(new') && RepeatsAreUnspent(new')
  {
    var a, b := old'.conversation.entries, new'.conversation.entries;
    forall x | x in new'.executions && x.yes.Some?
      ensures Authorised(b, new'.confirmed, x.operation, x.args, x.key, x.yes.value)
    {
      AuthorisedGrows(a, b, old'.confirmed, new'.confirmed, x.operation, x.args, x.key, x.yes.value);
    }
    forall i, j | 0 <= i < j < |new'.executions|
                  && new'.executions[i].yes.Some? && new'.executions[i].yes == new'.executions[j].yes
                  && SameCall(new'.executions[i], new'.executions[j])
      ensures Unspent(b, new'.executions[i].key)
    {
      UnspentGrows(a, b, new'.executions[i].key);
    }
  }

  // ------------------------------------------------------------------ reading an approval

  lemma {:induction false} FirstAnswerIsFirst(es: seq<Entry>, q: nat, i: nat)
    requires Increasing(es) && i < |es| && IsAnswer(es[i], q)
    ensures FirstAnswer(es, q).Some? && FirstAnswer(es, q).value.seqNo <= es[i].seqNo
  {
    if !IsAnswer(es[0], q) {
      FirstAnswerIsFirst(es[1..], q, i - 1);
    }
  }

  /** A valid approval, read while a call is in hand, is evidence for that call. */
  lemma GateReadsAYes(s: State, call: Call, key: nat, q: nat)
    requires Good(s) && Approved(s) && s.turn.Some? && InHand(s.store, s.turn.value, call, key)
    requires FindApproval(s.turn.value.conversation.entries, call.operation, ArgsHash(call.args), s.store.questions)
             == Valid(q)
    ensures ReadyToSpend(s.store, s.turn.value, call, key, q)
  {
    var es := s.turn.value.conversation.entries;
    var request := LastRequest(es, call.operation, ArgsHash(call.args)).value;
    var answer := FirstAnswer(es, q).value;
    var i :| 0 <= i < |es| && es[i] == answer;
    assert es[i].seqNo < es[|es| - 1].seqNo;
    var j :| 0 <= j < |es| && es[j] == request;
    assert Requested(es, call.operation, ArgsHash(call.args), q);
  }

  /** The gate and the watcher take one view of a question: once its answer is recorded, a call about it waits
      exactly as long as nothing is filled in; and only a yes, recorded and unspent, lets it through. */
  lemma WaitsExactlyUntilAnswered(es: seq<Entry>, operation: string, hash: string, questions: seq<Question>, q: nat)
    requires LastRequest(es, operation, hash).Some? && LastRequest(es, operation, hash).value.questionId == Some(q)
    requires q < |questions| && questions[q].live
    ensures var approval := FindApproval(es, operation, hash, questions);
            && (FirstAnswer(es, q).Some? ==> (approval == Pending(q) <==> !IsAnswered(questions[q])))
            && (!IsAnswered(questions[q]) ==> approval == Pending(q))
            && (approval == Declined(q) <==> IsAnswered(questions[q]) && questions[q].confirmed != Some(true))
            && (approval == Valid(q) ==> questions[q].confirmed == Some(true) && FirstAnswer(es, q).Some?)
            && !approval.Missing?
  {
    var confirmed := questions[q].confirmed;
    if confirmed.Some? {
      if confirmed.value { assert confirmed == Some(true); } else { assert confirmed == Some(false); }
    }
  }

  lemma OtherIntentsAreResolved(es: seq<Entry>, key: nat, call: Call, other: nat, otherCall: Call)
    requires WellLogged(es) && EndsInIntent(es, key, call) && HasIntent(es, other, otherCall) && other != key
    ensures Resolved(es, Some(other))
  {
  }

  /** An approval nothing has spent: no call made after its answer carries a stamp. */
  lemma NothingStampedSince(es: seq<Entry>, key: nat, call: Call, q: nat)
    requires WellLogged(es) && HasIntent(es, key, call) && AnswerBefore(es, q, key)
    requires FirstAnswer(es, q).Some?
    requires !Spent(es, call.operation, ArgsHash(call.args), FirstAnswer(es, q).value.seqNo)
    ensures !Stamped(es, key)
  {
    var k :| 0 <= k < |es| && es[k].kind == ToolIntent && es[k].key == Some(key)
             && es[k].toolName == call.operation && es[k].toolArgs == call.args;
    var i :| 0 <= i < |es| && IsAnswer(es[i], q) && es[i].seqNo < key;
    FirstAnswerIsFirst(es, q, i);
    forall j | 0 <= j < |es| && es[j].kind == ToolResult && es[j].key == Some(key) ensures es[j].argsHash.None? {
      assert Matches(es[j], es[k]);
      assert !IsStamp(es[j], call.operation, ArgsHash(call.args));
    }
  }

  /** An earlier execution of this call under this yes, if there was one, left no stamp. */
  lemma EarlierIsUnspent(s: State, call: Call, key: nat, q: nat, x: Execution)
    requires Good(s) && Approved(s) && s.turn.Some? && InHand(s.store, s.turn.value, call, key)
    requires ReadyToSpend(s.store, s.turn.value, call, key, q) && Fresh(s.store, key)
    requires x in s.store.executions && x.yes == Some(q)
    requires x.operation == call.operation && ArgsHash(x.args) == ArgsHash(call.args)
    ensures Unspent(s.store.conversation.entries, x.key)
  {
    hide WellLogged, HasIntent, EndsInIntent, OpenKey, Spent, FirstAnswer, Requested, Grown, RepeatsAreUnspent;
    var es := s.store.conversation.entries;
    assert Announced(s.store, x);
    assert Authorised(es, s.store.confirmed, x.operation, x.args, x.key, q);
    OtherIntentsAreResolved(es, key, call, x.key, Call(x.operation, x.args));
    NothingStampedSince(es, x.key, Call(x.operation, x.args), q);
  }

  // ------------------------------------------------------------------ the steps

  lemma ExecuteIsApproved(cfg: Config, s: State, step: Step)
    requires Good(s) && Approved(s) && Enabled(cfg, s, step) && step.Execute?
    ensures Approved(Apply(cfg, s, step))
  {
    hide WellLogged, Grown, OpenKey, HasIntent, Unspent, Authorised, UnresolvedIntent, FirstAnswer, Spent, Requested,
      FindByKey;
    var next := Apply(cfg, s, step);
    var (call, key, yes) := (s.turn.value.phase.call, s.turn.value.phase.key, s.turn.value.phase.yes);
    var xs := s.store.executions;
    var x := Execution(key, call.operation, call.args, yes, step.landed);
    assert next.store.executions == xs + [x];
    forall i, j | 0 <= i < j < |xs + [x]| && (xs + [x])[i].yes.Some? && (xs + [x])[i].yes == (xs + [x])[j].yes
                  && SameCall((xs + [x])[i], (xs + [x])[j])
      ensures Unspent(s.store.conversation.entries, (xs + [x])[i].key)
    {
      if j == |xs| {
        EarlierIsUnspent(s, call, key, yes.value, xs[i]);
      }
    }
    assert x in next.store.executions;
    ConfirmedAfterRaise(s.store, Keys.CallKey(key));
  }

  lemma ConfirmedAfterRaise(store: Store, key: Keys.Key)
    requires ConfirmedOnRecord(store)
    ensures ConfirmedOnRecord(store.(questions := Raise(store.questions, key).0))
  {
  }

  lemma BystandersKeepTurn(old': Store, new': Store, t: Turn)
    requires TurnApproved(old', t) && old'.confirmed <= new'.confirmed && old'.executions == new'.executions
    requires old'.conversation.entries == new'.conversation.entries
    ensures TurnApproved(new', t)
  {
  }

  /** Only the gate lets a call through to a question or to the Operation, and only running it
      leaves it run. */
  lemma OnlyTheGateLetsThrough(cfg: Config, s: State, step: Step)
    requires Enabled(cfg, s, step) && Apply(cfg, s, step).turn.Some?
    ensures var phase := Apply(cfg, s, step).turn.value.phase;
            phase.Asking? || phase.Executing? || phase.Executed? ==>
              (if phase.Executed? then step.Execute? else step.Gate?)
              || ((step.SetAnswer? || step.Delete?) && Apply(cfg, s, step).turn == s.turn)
  {
    hide FindApproval, BuildMessages, UnresolvedIntent, RequestCount, Raise, Append, Settlement, SettledStamp, AddUsage,
      Plus, TurnLimit, NextSeq, OperationUsage, GateTurn, Suspended, EndedFull, ArgsHash;
    if step.Gate? { GateLeads(s.turn.value, Readable(s.store.questions, step.read)); }
  }

  lemma GateLeads(t: Turn, questions: seq<Question>)
    requires t.phase.Gating?
    ensures !GateTurn(t, questions).phase.Executed?
  {
    hide FindApproval, Append;
  }

  lemma OnlyExecuteExecutes(cfg: Config, s: State, step: Step)
    requires Enabled(cfg, s, step) && !step.Execute?
    ensures Apply(cfg, s, step).store.executions == s.store.executions
    ensures s.store.confirmed <= Apply(cfg, s, step).store.confirmed
  {
    hide FindApproval, BuildMessages, UnresolvedIntent, RequestCount, Raise, Append, Settlement, SettledStamp, AddUsage,
      Plus, TurnLimit, NextSeq, OperationUsage, ToEscalation, GuardTurn, GateTurn, Suspended, ArgsHash;
  }

  lemma StepKeepsConfirmed(cfg: Config, s: State, step: Step)
    requires ConfirmedOnRecord(s.store) && Enabled(cfg, s, step)
    ensures ConfirmedOnRecord(Apply(cfg, s, step).store)
  {
    hide FindApproval, BuildMessages, UnresolvedIntent, RequestCount, Raise, Append, Settlement, SettledStamp, AddUsage,
      Plus, TurnLimit, NextSeq, OperationUsage, ToEscalation, GuardTurn, GateTurn, Suspended, ArgsHash;
    match step
    case Ask =>
      var t := s.turn.value;
      var hash := ArgsHash(t.phase.call.args);
      var attempt := RequestCount(t.conversation.entries, t.phase.call.operation, hash) + 1;
      ConfirmedAfterRaise(s.store, Keys.ApprovalKey(hash, attempt));
    case Escalate =>
      ConfirmedAfterRaise(s.store, Keys.EscalationKey(s.turn.value.conversation.escalations));
    case Execute(_, _, _, _) =>
      ConfirmedAfterRaise(s.store, Keys.CallKey(s.turn.value.phase.key));
    case _ =>
  }

  lemma TurnStaysApproved(cfg: Config, s: State, step: Step)
    requires Good(s) && Approved(s) && Enabled(cfg, s, step) && !step.Execute? && Apply(cfg, s, step).turn.Some?
    ensures TurnApproved(Apply(cfg, s, step).store, Apply(cfg, s, step).turn.value)
  {
    hide WellLogged, Grown, OpenKey, HasIntent, ReadyToSpend, JustExecuted, FindApproval, Append, ArgsHash, Readable,
      BeginTurn, GuardTurn, EscalateStep, CommitStep, ReconcileStep, AttemptStep, IntendStep, EndCallsStep, AskStep,
      ExecuteStep, RecordStep, Watched, ToEscalation;
    OnlyTheGateLetsThrough(cfg, s, step);
    var next := Apply(cfg, s, step);
    match step
    case Gate(read) =>
      var call, key := s.turn.value.phase.call, s.turn.value.phase.key;
      UnreadIsMissing(s.turn.value.conversation.entries, call.operation, ArgsHash(call.args), s.store.questions, read);
      if next.turn.value.phase.Executing? && next.turn.value.phase.yes.Some? {
        GateReadsAYes(s, call, key, next.turn.value.phase.yes.value);
        ReadyAtTheGate(s.store, s.turn.value, next.turn.value, call, key, next.turn.value.phase.yes.value);
      }
    case SetAnswer(_, _, _) => BystandersKeepTurn(s.store, next.store, s.turn.value);
    case Delete(_) => BystandersKeepTurn(s.store, next.store, s.turn.value);
    case _ =>
  }

  lemma ReadyAtTheGate(store: Store, t: Turn, next: Turn, call: Call, key: nat, q: nat)
    requires ReadyToSpend(store, t, call, key, q) && next.conversation.entries == t.conversation.entries
    ensures ReadyToSpend(store, next, call, key, q)
  {
  }

  lemma StepIsApproved(cfg: Config, s: State, step: Step)
    requires Good(s) && Approved(s) && Enabled(cfg, s, step)
    ensures Approved(Apply(cfg, s, step))
  {
    hide Apply, Enabled, WellLogged, Grown, ExecutionsAuthorised, RepeatsAreUnspent, TurnApproved, ConfirmedOnRecord;
    if step.Execute? {
      ExecuteIsApproved(cfg, s, step);
    } else {
      StepKeeps(cfg, s, step);
      LogIsAppendOnly(cfg, s, step);
      OnlyExecuteExecutes(cfg, s, step);
      RecordsGrow(s.store, Apply(cfg, s, step).store);
      StepKeepsConfirmed(cfg, s, step);
      if Apply(cfg, s, step).turn.Some? { TurnStaysApproved(cfg, s, step); }
    }
  }

  lemma {:induction false} RunIsApproved(cfg: Config, prompt: string, maxTurns: nat, steps: seq<Step>)
    requires Legal(cfg, Born(prompt, maxTurns), steps)
    ensures Good(Run(cfg, Born(prompt, maxTurns), steps)) && Approved(Run(cfg, Born(prompt, maxTurns), steps))
  {
    RunKeeps(cfg, prompt, maxTurns, steps);
    if steps != [] {
      var before := steps[..|steps| - 1];
      RunIsApproved(cfg, prompt, maxTurns, before);
      StepIsApproved(cfg, Run(cfg, Born(prompt, maxTurns), before), steps[|steps| - 1]);
    }
  }

  // ------------------------------------------------------------------ what a reader can rely on

  /** Over every crashing run: an approved execution was asked for and said yes to first, and if one
      yes ran the same call twice, the first run's result is on record without a stamp. */
  lemma OneYesOneStampedCall(cfg: Config, prompt: string, maxTurns: nat, steps: seq<Step>)
    requires Legal(cfg, Born(prompt, maxTurns), steps)
    ensures var store := Run(cfg, Born(prompt, maxTurns), steps).store;
            var es, xs := store.conversation.entries, store.executions;
            && (forall x | x in xs && x.yes.Some? ::
                  Authorised(es, store.confirmed, x.operation, x.args, x.key, x.yes.value))
            && (forall i, j | 0 <= i < j < |xs| && xs[i].yes.Some? && xs[i].yes == xs[j].yes
                              && SameCall(xs[i], xs[j]) ::
                  Unspent(es, xs[i].key))
  {
    RunIsApproved(cfg, prompt, maxTurns, steps);
  }

  /** Exactly a stamp spends an approval: after any other result the same yes is valid again. */
  lemma {:induction false} SpentExactlyByStamp(es: seq<Entry>, operation: string, hash: string,
                                               questions: seq<Question>, q: nat, row: Entry)
    requires FindApproval(es, operation, hash, questions) == Valid(q) && row.kind == ToolResult
    ensures FindApproval(Append(es, row), operation, hash, questions)
            == if IsStamp(row, operation, hash) then Consumed(q) else Valid(q)
  {
    var late := Append(es, row);
    var answer := FirstAnswer(es, q).value;
    var i :| 0 <= i < |es| && es[i] == answer;
    assert late[..|late| - 1] == es;
    assert LastRequest(late, operation, hash) == LastRequest(es, operation, hash);
    FirstAnswerStays(es, row, q);
    var last := late[|es|];
    assert last.seqNo == NextSeq(es) > answer.seqNo;
    assert IsStamp(last, operation, hash) <==> IsStamp(row, operation, hash);
    assert forall k | 0 <= k < |es| :: late[k] == es[k];
  }

  lemma {:induction false} FirstAnswerStays(es: seq<Entry>, row: Entry, q: nat)
    requires FirstAnswer(es, q).Some?
    ensures FirstAnswer(Append(es, row), q) == FirstAnswer(es, q)
  {
    FirstAnswerOfPrefix(es, [row.(seqNo := NextSeq(es))], q);
  }

  lemma {:induction false} FirstAnswerOfPrefix(es: seq<Entry>, more: seq<Entry>, q: nat)
    requires FirstAnswer(es, q).Some?
    ensures FirstAnswer(es + more, q) == FirstAnswer(es, q)
  {
    assert (es + more)[0] == es[0];
    if !IsAnswer(es[0], q) {
      assert (es + more)[1..] == es[1..] + more;
      FirstAnswerOfPrefix(es[1..], more, q);
    }
  }
}
