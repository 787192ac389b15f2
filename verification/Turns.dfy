/** Runs put together from whole Turns: a call asked about, run, lost in a crash, recovered. */
module Turns {
  import opened Wrappers
  import opened CanonicalJson
  import opened Conversations
  import opened Loop
  import opened IntentLog
  import opened ExactlyOnce
  import opened Approvals
  import opened ApprovalAccounts
  import opened Tallies
  import opened ApprovalCounts
  import opened Settings
  import Keys

  /** Where a run takes place. */
  datatype Scene = Scene(cfg: Config, setting: Setting, plan: Plan)

  // ------------------------------------------------------------------ paths

  /** A run of the scene from one state to another. */
  ghost predicate Path(on: Scene, s: State, steps: seq<Step>, t: State) {
    Legal(on.cfg, s, steps) && AllowedRun(on.setting, on.plan, on.cfg, s, steps) && Run(on.cfg, s, steps) == t
  }

  lemma Stay(on: Scene, s: State)
    ensures Path(on, s, [], s)
  {
  }

  /** One more step. */
  lemma Go(on: Scene, s: State, steps: seq<Step>, t: State, step: Step) returns (more: seq<Step>, u: State)
    requires Path(on, s, steps, t) && Enabled(on.cfg, t, step) && Allowed(on.setting, on.plan, on.cfg, t, step)
             && Good(t)
    ensures Path(on, s, more, u) && u == Apply(on.cfg, t, step) && more == steps + [step] && Good(u)
  {
    hide Apply, Enabled, Allowed, Good;
    u, more := Apply(on.cfg, t, step), steps + [step];
    assert more[..|steps|] == steps;
    StepKeeps(on.cfg, t, step);
  }

  lemma {:induction false} Follow(on: Scene, s: State, a: seq<Step>, t: State, b: seq<Step>, u: State)
    requires Path(on, s, a, t) && Path(on, t, b, u)
    ensures Path(on, s, a + b, u)
  {
    hide Apply, Enabled, Allowed;
    if b == [] {
      assert a + b == a;
    } else {
      var before := b[..|b| - 1];
      Follow(on, s, a, t, before, Run(on.cfg, t, before));
      assert (a + b)[..|a + b| - 1] == a + before;
    }
  }

  /** Nothing is run, lost or recovered. */
  predicate Plain(steps: seq<Step>) {
    forall i | 0 <= i < |steps| :: !steps[i].Crash? && !steps[i].Execute? && !steps[i].Reconcile?
  }

  // ------------------------------------------------------------------ the state between Turns

  /** Answers name questions that were raised. */
  ghost predicate AnswersKnown(es: seq<Entry>, questions: seq<Question>) {
    forall i | 0 <= i < |es| && es[i].kind == Answer && es[i].questionId.Some? :: es[i].questionId.value < |questions|
  }

  /** Between advances: running, with room and turns left and no intent open. */
  ghost predicate Resting(s: State, turns: nat) {
    var c := s.store.conversation;
    && Good(s) && s.turn.None? && c.status == Running && !c.leased
    && c.turnCount <= turns && c.maxTurns == Some(20) && |c.entries| <= 4 * turns + 1
    && OpenKey(c.entries) == None && AnswersKnown(c.entries, s.store.questions)
  }

  /** A call is at the gate: its intent is the last row, in the store too. */
  ghost predicate AtGate(s: State, es: seq<Entry>, call: Call, granted: map<string, Grant>, turns: nat) {
    && Good(s) && s.turn.Some?
    && var t, c := s.turn.value, s.turn.value.conversation;
       var key := NextSeq(es);
       && t.phase == Gating(call, key) && t.granted == granted && t.calls == []
       && t.costEntry == Some(|es|) && t.bill == NoUsage
       && c.entries == Append(es, IntentRow(call, "", key, NoUsage)) && s.store.conversation == c
       && c.status == Running && c.leased && c.turnCount <= turns && c.maxTurns == Some(20) && |es| + 3 <= 4 * turns
       && AnswersKnown(es, s.store.questions)
  }

  const PRESENT := AssistantInfo(true, None)

  predicate Permitted(on: Scene, granted: map<string, Grant>) {
    && on.cfg.maxAttempts >= 1
    && (on.setting.approvalsChange || Agrees(on.plan, granted))
    && (on.setting.readOnlyAsks || OnlyMutatingAsk(granted))
  }

  function Wanting(calls: seq<Call>): Step {
    Attempt(Response(WantsTools, "", calls, None, NoUsage))
  }

  /** A Turn, up to the gate. */
  lemma ToTheGate(on: Scene, s: State, call: Call, granted: map<string, Grant>, turns: nat)
    returns (steps: seq<Step>, t: State)
    requires Resting(s, turns) && turns < 20 && Permitted(on, granted)
    ensures Path(on, s, steps, t) && AtGate(t, s.store.conversation.entries, call, granted, turns + 1)
    ensures steps == [Begin, Guard(Some(PRESENT), granted), Wanting([call]), Intend]
    ensures t.store.questions == s.store.questions && t.store.executions == s.store.executions
    ensures t.store.confirmed == s.store.confirmed
  {
    hide Good, Path, Append, OpenKey, BuildMessages, Plus, NextSeq, UnresolvedIntent, Agrees, OnlyMutatingAsk,
      AnswersKnown;
    Stay(on, s);
    OpenKeyReads(s.store.conversation.entries) by { GoodIsLogged(s); }
    steps, t := Go(on, s, [], s, Begin);
    steps, t := Go(on, s, steps, t, Guard(Some(PRESENT), granted));
    steps, t := Go(on, s, steps, t, Wanting([call]));
    steps, t := Go(on, s, steps, t, Intend);
  }

  lemma GoodIsLogged(s: State)
    requires Good(s)
    ensures WellLogged(s.store.conversation.entries)
    ensures s.turn.Some? ==> WellLogged(s.turn.value.conversation.entries)
  {
  }

  // ------------------------------------------------------------------ asking and answering

  /** The log once this call's approval has been asked for. */
  function AskedLog(es: seq<Entry>, call: Call, key: nat, id: nat): seq<Entry> {
    Append(Append(es, RequestRow(call.operation, ArgsHash(call.args), id)), ResultRow(call.operation, Some(key), None))
  }

  function IntentLogged(es: seq<Entry>, call: Call): seq<Entry> {
    Append(es, IntentRow(call, "", NextSeq(es), NoUsage))
  }

  function NextKey(es: seq<Entry>, call: Call): Keys.Key {
    Keys.ApprovalKey(ArgsHash(call.args), RequestCount(es, call.operation, ArgsHash(call.args)) + 1)
  }

  predicate MustAsk(es: seq<Entry>, call: Call, questions: seq<Question>) {
    var approval := FindApproval(es, call.operation, ArgsHash(call.args), questions);
    approval.Missing? || approval.Consumed?
  }

  predicate MayAsk(on: Scene, call: Call) {
    on.setting.argumentsShared
    || (ArgsHash(call.args) in on.plan.owners && on.plan.owners[ArgsHash(call.args)] == call.operation)
  }

  predicate Guarded(granted: map<string, Grant>, call: Call) {
    call.operation in granted && granted[call.operation].requiresApproval
  }

  /** Suspended on a question about a call that has its result. */
  ghost predicate WaitsOn(s: State, es: seq<Entry>, id: nat, turns: nat) {
    var c := s.store.conversation;
    && Good(s) && s.turn.None? && c.status == Waiting && c.waitingFor == User && !c.leased
       && c.currentQuestion == Some(id)
    && c.turnCount <= turns && c.maxTurns == Some(20) && |es| <= 4 * turns && c.entries == es
    && OpenKey(es) == None && AnswersKnown(es, s.store.questions)
  }

  lemma LogAfterAsking(s: State, es: seq<Entry>, call: Call, granted: map<string, Grant>, turns: nat, id: nat,
                       questions: seq<Question>)
    requires AtGate(s, es, call, granted, turns) && |s.store.questions| <= |questions|
    ensures var late := AskedLog(IntentLogged(es, call), call, NextSeq(es), id);
            |late| == |es| + 3 && OpenKey(late) == None && AnswersKnown(late, questions)
  {
    hide WellLogged, OpenKey, UnresolvedIntent, Grown, NextSeq;
    InHandReads(s.store, s.turn.value, call, NextSeq(es));
    var V := IntentLogged(es, call);
    var row := RequestRow(call.operation, ArgsHash(call.args), id);
    UnkeyedKeeps(V, row);
    ResultKeeps(Append(V, row), ResultRow(call.operation, Some(NextSeq(es)), None));
  }

  /** The gate finds no approval to use, so the question is raised and the call gets its refusal. */
  lemma AskForIt(on: Scene, s: State, es: seq<Entry>, call: Call, granted: map<string, Grant>, turns: nat, read: bool)
    returns (steps: seq<Step>, t: State, id: nat)
    requires AtGate(s, es, call, granted, turns) && Guarded(granted, call) && MayAsk(on, call)
    requires if read then MustAsk(IntentLogged(es, call), call, s.store.questions) else on.setting.questionsUnread
    ensures Path(on, s, steps, t) && steps == [Gate(read), Ask, Commit]
    ensures (t.store.questions, id) == Raise(s.store.questions, NextKey(IntentLogged(es, call), call))
    ensures WaitsOn(t, AskedLog(IntentLogged(es, call), call, NextSeq(es), id), id, turns)
    ensures t.store.executions == s.store.executions && t.store.confirmed == s.store.confirmed
  {
    hide Good, Path, Append, OpenKey, NextSeq, AnswersKnown, FindApproval, Raise, RequestCount, Readable;
    Stay(on, s);
    UnreadIsMissing(IntentLogged(es, call), call.operation, ArgsHash(call.args), s.store.questions, read);
    steps, t := Go(on, s, [], s, Gate(read));
    steps, t := Go(on, s, steps, t, Ask);
    id := Raise(s.store.questions, NextKey(IntentLogged(es, call), call)).1;
    LogAfterAsking(s, es, call, granted, turns, id, t.store.questions);
    steps, t := Go(on, s, steps, t, Commit);
  }

  function AnswerRow(id: nat): Entry {
    PlainRow(Answer, "").(questionId := Some(id))
  }

  function Confirmed(questions: seq<Question>, id: nat): seq<Question>
    requires id < |questions|
  {
    questions[id := questions[id].(confirmed := Some(true), spoken := false)]
  }

  lemma LogAfterAnswer(es: seq<Entry>, id: nat, questions: seq<Question>)
    requires WellLogged(es) && OpenKey(es) == None && AnswersKnown(es, questions) && id < |questions|
    ensures var late := Append(es, AnswerRow(id));
            |late| == |es| + 1 && OpenKey(late) == None && AnswersKnown(late, questions)
  {
    hide WellLogged, OpenKey, UnresolvedIntent, NextSeq;
    UnkeyedKeeps(es, AnswerRow(id));
  }

  /** The answer to a question is appended, and the Conversation wakes. */
  lemma Watch(on: Scene, s: State, es: seq<Entry>, id: nat, turns: nat) returns (steps: seq<Step>, t: State)
    requires WaitsOn(s, es, id, turns) && id < |s.store.questions| && s.store.questions[id].live
    requires s.store.questions[id].confirmed.Some?
    ensures Path(on, s, steps, t) && steps == [WatchAnswered("")] && Resting(t, turns)
    ensures t.store.conversation.entries == Append(es, AnswerRow(id))
    ensures t.store.questions == s.store.questions && t.store.executions == s.store.executions
    ensures t.store.confirmed == s.store.confirmed
  {
    hide Good, Path, Append, OpenKey, NextSeq, AnswersKnown, UnresolvedIntent;
    Stay(on, s);
    GoodIsLogged(s);
    LogAfterAnswer(es, id, s.store.questions);
    steps, t := Go(on, s, [], s, WatchAnswered(""));
  }

  /** The User says yes. */
  lemma SayYes(on: Scene, s: State, es: seq<Entry>, id: nat, turns: nat) returns (steps: seq<Step>, t: State)
    requires WaitsOn(s, es, id, turns) && id < |s.store.questions| && s.store.questions[id].live
    ensures Path(on, s, steps, t) && steps == [SetAnswer(id, Some(true), false), WatchAnswered("")] && Resting(t, turns)
    ensures t.store.conversation.entries == Append(es, AnswerRow(id))
    ensures t.store.questions == Confirmed(s.store.questions, id) && t.store.executions == s.store.executions
  {
    hide Good, Path, Append, OpenKey, NextSeq, UnresolvedIntent;
    Stay(on, s);
    var yes := SetAnswer(id, Some(true), false);
    var first, told := Go(on, s, [], s, yes);
    var second;
    second, t := Watch(on, told, es, id, turns);
    Follow(on, s, first, told, second, t);
    steps := first + second;
  }

  /** The User says no. */
  lemma SayNo(on: Scene, s: State, es: seq<Entry>, id: nat, turns: nat) returns (steps: seq<Step>, t: State)
    requires WaitsOn(s, es, id, turns) && id < |s.store.questions| && s.store.questions[id].live
    ensures Path(on, s, steps, t) && steps == [SetAnswer(id, Some(false), false), WatchAnswered("")]
            && Resting(t, turns)
    ensures t.store.conversation.entries == Append(es, AnswerRow(id)) && t.store.confirmed == s.store.confirmed
    ensures t.store.executions == s.store.executions
    ensures t.store.questions
            == s.store.questions[id := s.store.questions[id].(confirmed := Some(false), spoken := false)]
  {
    hide Good, Path, Append, OpenKey, NextSeq, UnresolvedIntent;
    Stay(on, s);
    var no := SetAnswer(id, Some(false), false);
    var first, told := Go(on, s, [], s, no);
    var second;
    second, t := Watch(on, told, es, id, turns);
    Follow(on, s, first, told, second, t);
    steps := first + second;
  }

  // ------------------------------------------------------------------ running

  /** Let through by the gate, whether under a yes or without needing one. */
  predicate LetsThrough(es: seq<Entry>, call: Call, granted: map<string, Grant>, questions: seq<Question>,
                        yes: Option<nat>)
  {
    && call.operation in granted
    && if granted[call.operation].requiresApproval
       then yes.Some? && FindApproval(es, call.operation, ArgsHash(call.args), questions) == Valid(yes.value)
       else yes.None?
  }

  ghost predicate Runs(s: State, es: seq<Entry>, call: Call, granted: map<string, Grant>, yes: Option<nat>,
                       turns: nat) {
    && Good(s) && s.turn.Some? && s.turn.value.phase == Executing(call, NextSeq(es), yes)
    && AtGate(s.(turn := Some(s.turn.value.(phase := Gating(call, NextSeq(es))))), es, call, granted, turns)
  }

  lemma StartRunning(on: Scene, s: State, es: seq<Entry>, call: Call, granted: map<string, Grant>, yes: Option<nat>,
                     turns: nat)
    returns (steps: seq<Step>, t: State)
    requires AtGate(s, es, call, granted, turns)
    requires LetsThrough(IntentLogged(es, call), call, granted, s.store.questions, yes)
    ensures Path(on, s, steps, t) && steps == [Gate(true)] && Runs(t, es, call, granted, yes, turns)
    ensures t.store == s.store
  {
    hide Good, Path, Append, OpenKey, NextSeq, AnswersKnown, FindApproval;
    Stay(on, s);
    steps, t := Go(on, s, [], s, Gate(true));
  }

  /** What a call run under this yes leaves when it answers this. */
  function RunLog(es: seq<Entry>, call: Call, yes: Option<nat>, outcome: Outcome): seq<Entry> {
    Append(IntentLogged(es, call),
           ResultRow(call.operation, Some(NextSeq(es)),
                     if yes.Some? && outcome.Value? then Some(ArgsHash(call.args)) else None))
  }

  ghost predicate HasRun(s: State, es: seq<Entry>, call: Call, granted: map<string, Grant>, yes: Option<nat>,
                         outcome: Outcome, turns: nat)
  {
    && Good(s) && s.turn.Some?
    && s.turn.value.phase == Executed(call, NextSeq(es), yes, outcome, None, NoReport, NoUsage)
    && !outcome.Suspension?
    && AnswersKnown(es, s.store.questions)
    && var t, c := s.turn.value, s.turn.value.conversation;
       && t.calls == [] && t.costEntry == Some(|es|) && t.bill == NoUsage && c.entries == IntentLogged(es, call)
       && s.store.conversation == c && c.leased
       && c.status == Running && c.turnCount <= turns && c.maxTurns == Some(20) && |es| + 3 <= 4 * turns
  }

  lemma RunIt(on: Scene, s: State, es: seq<Entry>, call: Call, granted: map<string, Grant>, yes: Option<nat>,
              outcome: Outcome, landed: bool, turns: nat)
    returns (steps: seq<Step>, t: State)
    requires Runs(s, es, call, granted, yes, turns) && !outcome.Suspension?
    ensures Path(on, s, steps, t) && HasRun(t, es, call, granted, yes, outcome, turns)
    ensures t == ExecuteStep(s, outcome, landed, NoReport, NoUsage)
    ensures t.store.questions == s.store.questions
    ensures t.store.executions
            == s.store.executions + [Execution(NextSeq(es), call.operation, call.args, yes, landed)]
  {
    hide Good, Path, Append, OpenKey, NextSeq, AnswersKnown, Plus;
    Stay(on, s);
    steps, t := Go(on, s, [], s, Execute(outcome, landed, NoReport, NoUsage));
  }

  lemma KnownStays(es: seq<Entry>, row: Entry, questions: seq<Question>)
    requires AnswersKnown(es, questions) && row.kind != Answer
    ensures AnswersKnown(Append(es, row), questions) && |Append(es, row)| == |es| + 1
  {
  }

  /** The result is recorded and the Turn ends. */
  lemma WrapUp(on: Scene, s: State, es: seq<Entry>, call: Call, granted: map<string, Grant>, yes: Option<nat>,
               outcome: Outcome, turns: nat)
    returns (steps: seq<Step>, t: State)
    requires HasRun(s, es, call, granted, yes, outcome, turns)
    requires on.setting.effectsHidden || Truthful(s, Record)
    ensures Path(on, s, steps, t) && steps == [Record, EndCalls, Commit] && Resting(t, turns)
    ensures t.store.conversation.entries == RunLog(es, call, yes, outcome)
    ensures t.store.questions == s.store.questions && t.store.executions == s.store.executions
  {
    hide Path, Append, OpenKey, NextSeq, AnswersKnown, Plus, Truthful, WellLogged, Grown, GoodStore, ArgsHash;
    Stay(on, s);
    KnownStays(es, IntentRow(call, "", NextSeq(es), NoUsage), s.store.questions);
    KnownStays(IntentLogged(es, call), ResultRow(call.operation, Some(NextSeq(es)),
      if yes.Some? && outcome.Value? then Some(ArgsHash(call.args)) else None), s.store.questions);
    steps, t := Go(on, s, [], s, Record);
    steps, t := Go(on, s, steps, t, EndCalls);
    steps, t := Go(on, s, steps, t, Commit);
  }

  // ------------------------------------------------------------------ crashing and recovering

  /** The process died over this call's intent. */
  ghost predicate Stranded(s: State, es: seq<Entry>, call: Call, turns: nat) {
    var c := s.store.conversation;
    && Good(s) && s.turn.None? && c.status == Running && c.leased && c.turnCount <= turns && c.maxTurns == Some(20)
    && |es| + 3 <= 4 * turns && c.entries == IntentLogged(es, call)
    && UnresolvedIntent(c.entries) == Some(Written(es, call)) && AnswersKnown(es, s.store.questions)
  }

  function Written(es: seq<Entry>, call: Call): Entry {
    IntentRow(call, "", NextSeq(es), NoUsage).(seqNo := NextSeq(es))
  }

  lemma LastIsWritten(es: seq<Entry>, call: Call)
    ensures var V := IntentLogged(es, call); |V| == |es| + 1 && V[|es|] == Written(es, call)
  {
  }

  /** The call in hand, before it ran or after. */
  ghost predicate MidCall(s: State, es: seq<Entry>, call: Call, granted: map<string, Grant>, yes: Option<nat>,
                          outcome: Outcome, turns: nat)
  {
    AtGate(s, es, call, granted, turns) || HasRun(s, es, call, granted, yes, outcome, turns)
  }

  lemma MidCallIsOpen(s: State, es: seq<Entry>, call: Call, granted: map<string, Grant>, yes: Option<nat>,
                      outcome: Outcome, turns: nat)
    requires MidCall(s, es, call, granted, yes, outcome, turns)
    ensures var c := s.store.conversation;
            && Good(s) && s.turn.Some? && c.status == Running && c.leased && c.turnCount <= turns
               && c.maxTurns == Some(20)
            && |es| + 3 <= 4 * turns && c.entries == IntentLogged(es, call)
            && UnresolvedIntent(c.entries) == Some(Written(es, call)) && AnswersKnown(es, s.store.questions)
  {
    hide Append, OpenKey, NextSeq, AnswersKnown, WellLogged, Grown, GoodStore, UnresolvedIntent, EndsInIntent;
    GoodIsLogged(s);
    LastIsWritten(es, call);
    IntentInHandIsUnresolved(s.turn.value.conversation.entries, NextSeq(es), call);
  }

  ghost predicate Dies(cfg: Config, s: State, t: State) {
    s.turn.Some? && t == Apply(cfg, s, Crash)
  }

  /** Dying with the call in hand. */
  lemma DieMidCall(on: Scene, s: State, es: seq<Entry>, call: Call, granted: map<string, Grant>, yes: Option<nat>,
                   outcome: Outcome, turns: nat)
    returns (steps: seq<Step>, t: State)
    requires MidCall(s, es, call, granted, yes, outcome, turns)
    ensures Path(on, s, steps, t) && Stranded(t, es, call, turns) && Dies(on.cfg, s, t)
    ensures t.store.questions == s.store.questions && t.store.executions == s.store.executions
  {
    hide Path, IntentLogged, Written, AnswersKnown, Plus, InFlight, Good, UnresolvedIntent, MidCall, NextSeq;
    Stay(on, s);
    MidCallIsOpen(s, es, call, granted, yes, outcome, turns);
    steps, t := Go(on, s, [], s, Crash);
  }

  function RecoveredLog(es: seq<Entry>, call: Call, granted: map<string, Grant>, verdict: Option<Outcome>): seq<Entry> {
    var intent := Written(es, call);
    Append(IntentLogged(es, call),
           ResultRow(call.operation, Some(NextSeq(es)),
                     SettledStamp(granted, intent, Settlement(granted, intent, verdict))))
  }

  /** The next advance recovers the call, and stores what it concludes. */
  ghost predicate Recovered(s: State, es: seq<Entry>, call: Call, granted: map<string, Grant>, verdict: Option<Outcome>,
                            turns: nat)
  {
    && Good(s) && s.turn.Some? && s.turn.value.phase.Prompting? && s.turn.value.phase.attempt == 1
    && var c := s.store.conversation;
       && s.turn.value.conversation == c && c.entries == RecoveredLog(es, call, granted, verdict)
       && c.status == Running && c.turnCount <= turns && c.maxTurns == Some(20) && |es| + 3 <= 4 * turns
       && AnswersKnown(c.entries, s.store.questions)
  }

  lemma Recover(on: Scene, s: State, es: seq<Entry>, call: Call, granted: map<string, Grant>, verdict: Option<Outcome>,
                turns: nat)
    returns (steps: seq<Step>, t: State)
    requires Stranded(s, es, call, turns) && turns < 20 && Permitted(on, granted)
    requires var settled := Settlement(granted, Written(es, call), verdict); settled.Some? && !settled.value.Suspension?
    requires on.setting.recoveryMisses || Vouched(granted, Written(es, call), verdict)
             || NextSeq(es) !in LandedKeys(s.store.executions)
    requires on.setting.recoveryInvents || (verdict == Some(Value) ==> Ran(s.store.executions, NextSeq(es)))
    ensures Path(on, s, steps, t) && Recovered(t, es, call, granted, verdict, turns)
    ensures steps == [LeaseExpires, Begin, Guard(Some(PRESENT), granted), Reconcile(verdict)]
    ensures t.store.questions == s.store.questions && t.store.executions == s.store.executions
  {
    hide Good, Path, Append, OpenKey, NextSeq, AnswersKnown, UnresolvedIntent, Agrees, OnlyMutatingAsk, BuildMessages,
      Settlement, SettledStamp, Vouched, LandedKeys, Ran, ArgsHash;
    Stay(on, s);
    LastIsWritten(es, call);
    KnownStays(es, IntentRow(call, "", NextSeq(es), NoUsage), s.store.questions);
    KnownStays(IntentLogged(es, call), ResultRow(call.operation, Some(NextSeq(es)),
      SettledStamp(granted, Written(es, call), Settlement(granted, Written(es, call), verdict))), s.store.questions);
    steps, t := Go(on, s, [], s, LeaseExpires);
    steps, t := Go(on, s, steps, t, Begin);
    steps, t := Go(on, s, steps, t, Guard(Some(PRESENT), granted));
    steps, t := Go(on, s, steps, t, Reconcile(verdict));
  }

  /** The Turn that follows calls nothing more. */
  lemma EndQuietly(on: Scene, s: State, es: seq<Entry>, call: Call, granted: map<string, Grant>,
                   verdict: Option<Outcome>,
                   turns: nat)
    returns (steps: seq<Step>, t: State)
    requires Recovered(s, es, call, granted, verdict, turns) && on.cfg.maxAttempts >= 1
    ensures Path(on, s, steps, t) && steps == [Wanting([]), EndCalls, Commit] && Resting(t, turns + 1)
    ensures t.store.conversation.entries == RecoveredLog(es, call, granted, verdict)
    ensures t.store.questions == s.store.questions && t.store.executions == s.store.executions
  {
    hide Path, Append, OpenKey, NextSeq, AnswersKnown, Plus, WellLogged, Grown, GoodStore, BuildMessages;
    Stay(on, s);
    RecoveredLength(es, call, granted, verdict);
    steps, t := Go(on, s, [], s, Wanting([]));
    steps, t := Go(on, s, steps, t, EndCalls);
    steps, t := Go(on, s, steps, t, Commit);
  }

  lemma RecoveredLength(es: seq<Entry>, call: Call, granted: map<string, Grant>, verdict: Option<Outcome>)
    ensures |RecoveredLog(es, call, granted, verdict)| == |es| + 2
  {
  }

  // ------------------------------------------------------------------ what the gate reads in a longer log

  lemma LastRequestAfter(es: seq<Entry>, row: Entry, operation: string, hash: string)
    ensures LastRequest(Append(es, row), operation, hash)
            == if IsRequest(row, operation, hash) then Some(row.(seqNo := NextSeq(es)))
              else LastRequest(es, operation, hash)
  {
    assert Append(es, row)[..|es|] == es;
  }

  lemma {:induction false} FirstAnswerAfter(es: seq<Entry>, row: Entry, q: nat)
    ensures FirstAnswer(Append(es, row), q)
            == if FirstAnswer(es, q).Some? then FirstAnswer(es, q)
               else if IsAnswer(row, q) then Some(row.(seqNo := NextSeq(es))) else None
  {
    FirstAnswerEnds(es, row.(seqNo := NextSeq(es)), q);
  }

  lemma {:induction false} FirstAnswerEnds(es: seq<Entry>, last: Entry, q: nat)
    ensures FirstAnswer(es + [last], q)
            == if FirstAnswer(es, q).Some? then FirstAnswer(es, q)
               else if IsAnswer(last, q) then Some(last) else None
  {
    if es == [] {
      assert es + [last] == [last] && [last][1..] == [];
    } else {
      assert (es + [last])[1..] == es[1..] + [last];
      FirstAnswerEnds(es[1..], last, q);
    }
  }

  lemma SpentAfter(es: seq<Entry>, row: Entry, operation: string, hash: string, after: nat)
    requires !IsStamp(row, operation, hash)
    ensures Spent(Append(es, row), operation, hash, after) == Spent(es, operation, hash, after)
  {
    var late := Append(es, row);
    assert !IsStamp(late[|es|], operation, hash);
    assert forall i | 0 <= i < |es| :: late[i] == es[i];
  }

  /** Nothing in a log is numbered after its end. */
  lemma NotSpentSinceNow(es: seq<Entry>, operation: string, hash: string)
    ensures !Spent(es, operation, hash, NextSeq(es))
  {
  }

  lemma ApprovalAfter(es: seq<Entry>, row: Entry, operation: string, hash: string, questions: seq<Question>)
    requires row.kind != Answer && !IsRequest(row, operation, hash) && !IsStamp(row, operation, hash)
    ensures FindApproval(Append(es, row), operation, hash, questions) == FindApproval(es, operation, hash, questions)
  {
    hide Append, LastRequest, FirstAnswer, Spent;
    LastRequestAfter(es, row, operation, hash);
    var request := LastRequest(es, operation, hash);
    if request.Some? && request.value.questionId.Some? {
      var q := request.value.questionId.value;
      FirstAnswerAfter(es, row, q);
      if FirstAnswer(es, q).Some? { SpentAfter(es, row, operation, hash, FirstAnswer(es, q).value.seqNo); }
    }
  }

  /** Asked, and answered: the approval is valid unless a stamp came after the first answer. */
  lemma ApprovalOnceAnswered(es: seq<Entry>, call: Call, key: nat, id: nat, questions: seq<Question>)
    requires id < |questions| && questions[id].live && questions[id].confirmed == Some(true)
    ensures var hash := ArgsHash(call.args);
            FindApproval(Append(AskedLog(es, call, key, id), AnswerRow(id)), call.operation, hash, questions)
            == if FirstAnswer(es, id).Some? && Spent(es, call.operation, hash, FirstAnswer(es, id).value.seqNo)
               then Consumed(id) else Valid(id)
  {
    hide Append, LastRequest, FirstAnswer, Spent, NextSeq;
    var hash := ArgsHash(call.args);
    var request := RequestRow(call.operation, hash, id);
    var asked := Append(es, request);
    var result := ResultRow(call.operation, Some(key), None);
    var told := Append(asked, result);
    LastRequestAfter(es, request, call.operation, hash);
    LastRequestAfter(asked, result, call.operation, hash);
    LastRequestAfter(told, AnswerRow(id), call.operation, hash);
    FirstAnswerAfter(es, request, id);
    FirstAnswerAfter(asked, result, id);
    FirstAnswerAfter(told, AnswerRow(id), id);
    NotSpentSinceNow(told, call.operation, hash);
    var after := FirstAnswer(Append(told, AnswerRow(id)), id).value.seqNo;
    SpentAfter(es, request, call.operation, hash, after);
    SpentAfter(asked, result, call.operation, hash, after);
    SpentAfter(told, AnswerRow(id), call.operation, hash, after);
  }

  lemma {:induction false} UnknownIsUnanswered(es: seq<Entry>, questions: seq<Question>, id: nat)
    requires AnswersKnown(es, questions) && id >= |questions|
    ensures FirstAnswer(es, id).None?
  {
    if es != [] {
      UnknownIsUnanswered(es[1..], questions, id);
    }
  }

  // ------------------------------------------------------------------ whole Turns

  /** A call is made and asked about under a question of its own, and the User says yes. */
  lemma AskedAndConfirmed(on: Scene, s: State, call: Call, granted: map<string, Grant>, turns: nat)
    returns (steps: seq<Step>, t: State)
    requires Resting(s, turns) && turns < 20 && Permitted(on, granted) && Guarded(granted, call) && MayAsk(on, call)
    requires MustAsk(s.store.conversation.entries, call, s.store.questions)
    requires var V := IntentLogged(s.store.conversation.entries, call);
             FindByKey(s.store.questions, NextKey(V, call), 0).None?
    ensures Path(on, s, steps, t) && Plain(steps) && Resting(t, turns + 1)
    ensures var es, questions := s.store.conversation.entries, s.store.questions;
            var V, id := IntentLogged(es, call), |questions|;
            && t.store.conversation.entries == Append(AskedLog(V, call, NextSeq(es), id), AnswerRow(id))
            && t.store.questions == questions + [Question(NextKey(V, call), true, Some(true), false)]
            && FindApproval(t.store.conversation.entries, call.operation, ArgsHash(call.args), t.store.questions)
               == Valid(id)
    ensures t.store.executions == s.store.executions
  {
    hide Good, Path, Append, OpenKey, NextSeq, FindApproval, LastRequest, FirstAnswer, RequestCount, Enabled, Apply,
      ArgsHash, AnswersKnown;
    var es, questions := s.store.conversation.entries, s.store.questions;
    var V, id := IntentLogged(es, call), |questions|;
    var a, gate := ToTheGate(on, s, call, granted, turns);
    ApprovalAfter(es, IntentRow(call, "", NextSeq(es), NoUsage), call.operation, ArgsHash(call.args), questions);
    var b, asked, raised := AskForIt(on, gate, es, call, granted, turns + 1, true);
    var c;
    c, t := SayYes(on, asked, AskedLog(V, call, NextSeq(es), raised), raised, turns + 1);
    Follow(on, s, a, gate, b, asked);
    Follow(on, s, a + b, asked, c, t);
    steps := a + b + c;
    KnownStays(es, IntentRow(call, "", NextSeq(es), NoUsage), questions);
    UnknownIsUnanswered(V, questions, id);
    ApprovalOnceAnswered(V, call, NextSeq(es), id, t.store.questions);
  }

  /** A call is made and asked about under a question raised for another one, which has its yes. */
  lemma AskedUnderAnOldYes(on: Scene, s: State, call: Call, granted: map<string, Grant>, id: nat, turns: nat)
    returns (steps: seq<Step>, t: State)
    requires Resting(s, turns) && turns < 20 && Permitted(on, granted) && Guarded(granted, call) && MayAsk(on, call)
    requires MustAsk(s.store.conversation.entries, call, s.store.questions)
    requires var V := IntentLogged(s.store.conversation.entries, call);
             FindByKey(s.store.questions, NextKey(V, call), 0) == Some(id)
    requires id < |s.store.questions| && s.store.questions[id].confirmed == Some(true)
    ensures Path(on, s, steps, t) && Resting(t, turns + 1)
    ensures var es := s.store.conversation.entries;
            var V := IntentLogged(es, call);
            t.store.conversation.entries == Append(AskedLog(V, call, NextSeq(es), id), AnswerRow(id))
    ensures t.store.questions == s.store.questions && t.store.executions == s.store.executions
  {
    hide Good, Path, Append, OpenKey, NextSeq, FindApproval, LastRequest, FirstAnswer, RequestCount, Enabled, Apply,
      ArgsHash, AnswersKnown;
    var es, questions := s.store.conversation.entries, s.store.questions;
    var V := IntentLogged(es, call);
    var a, gate := ToTheGate(on, s, call, granted, turns);
    ApprovalAfter(es, IntentRow(call, "", NextSeq(es), NoUsage), call.operation, ArgsHash(call.args), questions);
    var b, asked, raised := AskForIt(on, gate, es, call, granted, turns + 1, true);
    var c;
    c, t := Watch(on, asked, AskedLog(V, call, NextSeq(es), id), id, turns + 1);
    Follow(on, s, a, gate, b, asked);
    Follow(on, s, a + b, asked, c, t);
    steps := a + b + c;
  }

  /** A call is made under a valid yes, and runs. */
  lemma RunUnderAYes(on: Scene, s: State, call: Call, granted: map<string, Grant>, q: nat, outcome: Outcome,
                     landed: bool,
                     turns: nat)
    returns (steps: seq<Step>, t: State)
    requires Resting(s, turns) && turns < 20 && Permitted(on, granted) && Guarded(granted, call)
    requires FindApproval(s.store.conversation.entries, call.operation, ArgsHash(call.args), s.store.questions)
             == Valid(q)
    requires outcome.Value? || (outcome.Error? && on.setting.effectsHidden)
    ensures Path(on, s, steps, t) && Resting(t, turns + 1)
    ensures var es := s.store.conversation.entries;
            && t.store.conversation.entries == RunLog(es, call, Some(q), outcome)
            && t.store.executions == s.store.executions
               + [Execution(NextSeq(es), call.operation, call.args, Some(q), landed)]
    ensures t.store.questions == s.store.questions
    ensures FindApproval(t.store.conversation.entries, call.operation, ArgsHash(call.args), t.store.questions)
            == if outcome.Value? then Consumed(q) else Valid(q)
  {
    hide Good, Path, Append, OpenKey, NextSeq, FindApproval, LastRequest, FirstAnswer, RequestCount, Enabled, Apply,
      ArgsHash, AnswersKnown;
    var es, questions := s.store.conversation.entries, s.store.questions;
    var V := IntentLogged(es, call);
    ApprovalAfter(es, IntentRow(call, "", NextSeq(es), NoUsage), call.operation, ArgsHash(call.args), questions);
    var a, gate := ToTheGate(on, s, call, granted, turns);
    var b, running := StartRunning(on, gate, es, call, granted, Some(q), turns + 1);
    var c, ran := RunIt(on, running, es, call, granted, Some(q), outcome, landed, turns + 1);
    var d;
    d, t := WrapUp(on, ran, es, call, granted, Some(q), outcome, turns + 1);
    Follow(on, s, a, gate, b, running);
    Follow(on, s, a + b, running, c, ran);
    Follow(on, s, a + b + c, ran, d, t);
    steps := a + b + c + d;
    SpentExactlyByStamp(V, call.operation, ArgsHash(call.args), questions, q,
      ResultRow(call.operation, Some(NextSeq(es)), if outcome.Value? then Some(ArgsHash(call.args)) else None));
  }

  /** A call is made under a valid yes and lands, the process dies, and recovery finds nothing granted. */
  lemma RunAndLose(on: Scene, s: State, call: Call, granted: map<string, Grant>, q: nat, turns: nat)
    returns (steps: seq<Step>, t: State)
    requires Resting(s, turns) && turns < 19 && Permitted(on, granted) && Guarded(granted, call)
             && on.setting.recoveryMisses
    requires FindApproval(s.store.conversation.entries, call.operation, ArgsHash(call.args), s.store.questions)
             == Valid(q)
    ensures Path(on, s, steps, t) && Resting(t, turns + 2)
    ensures t.store.executions
            == s.store.executions
               + [Execution(NextSeq(s.store.conversation.entries), call.operation, call.args, Some(q), true)]
    ensures t.store.questions == s.store.questions
    ensures FindApproval(t.store.conversation.entries, call.operation, ArgsHash(call.args), t.store.questions)
            == Valid(q)
  {
    hide Good, Path, Append, OpenKey, NextSeq, FindApproval, LastRequest, FirstAnswer, RequestCount, Enabled, Apply,
      ArgsHash, AnswersKnown, LandedKeys, Ran;
    var es, questions := s.store.conversation.entries, s.store.questions;
    var V := IntentLogged(es, call);
    ApprovalAfter(es, IntentRow(call, "", NextSeq(es), NoUsage), call.operation, ArgsHash(call.args), questions);
    var a, gate := ToTheGate(on, s, call, granted, turns);
    var b, running := StartRunning(on, gate, es, call, granted, Some(q), turns + 1);
    var c, ran := RunIt(on, running, es, call, granted, Some(q), Value, true, turns + 1);
    var d, dead := DieMidCall(on, ran, es, call, granted, Some(q), Value, turns + 1);
    var e, back := Recover(on, dead, es, call, map[], Some(Error), turns + 1);
    var f;
    f, t := EndQuietly(on, back, es, call, map[], Some(Error), turns + 1);
    Follow(on, s, a, gate, b, running);
    Follow(on, s, a + b, running, c, ran);
    Follow(on, s, a + b + c, ran, d, dead);
    Follow(on, s, a + b + c + d, dead, e, back);
    Follow(on, s, a + b + c + d + e, back, f, t);
    steps := a + b + c + d + e + f;
    SpentExactlyByStamp(V, call.operation, ArgsHash(call.args), questions, q,
                        ResultRow(call.operation, Some(NextSeq(es)), None));
  }
}
