/** What the model is shown, told from what happened: the prompt, its own words, its calls and their
    results, and everything the User or the watcher said, in order and nothing else. */
module Transcripts {
  import opened Wrappers
  import opened CanonicalJson
  import opened Conversations
  import opened Loop
  import opened IntentLog
  import opened ExactlyOnce
  import Keys

  /** What has been said as of the last write, and as of now in memory; what the model said when it asked
      for calls, until the first of them carries it; the calls still wanted; and the one in hand. */
  datatype Tale = Tale(stored: seq<Message>, held: seq<Message>, prose: string, wanted: seq<Call>, inHand: Call)

  function Heard(tale: Tale, text: string): Tale {
    tale.(stored := tale.stored + [UserMessage(text)])
  }

  function Noted(tale: Tale, text: string): Tale {
    tale.(held := tale.held + [UserMessage(text)])
  }

  function Answered(tale: Tale, key: nat, operation: string): Tale {
    tale.(held := tale.held + [ToolMessage(ByKey(key), operation)])
  }

  function Kept(tale: Tale): Tale {
    tale.(stored := tale.held)
  }

  /** What a guard says that ends an advance, or escalates it. */
  function GuardTells(tale: Tale, c: Conversation, assistant: Option<AssistantInfo>): Tale {
    if IsFull(c) then if |c.entries| < MAX_ENTRIES then Noted(tale, "full") else tale
    else if assistant.None? then Noted(tale, "stuck")
    else if assistant.value.enabled && c.turnCount >= TurnLimit(c, assistant.value) then Noted(tale, "stuck")
    else tale
  }

  /** The model's answer is said at once when it is a reply, and with its first call when it wants calls. */
  function ReplyTells(tale: Tale, reply: ModelReply): Tale {
    match reply
    case Transient(_) => Noted(tale, "transient")
    case Fatal(_) => Noted(tale, "stuck")
    case Response(finish, text, calls, _, _) =>
      match finish
      case Abnormal => Noted(tale, "stuck")
      case WantsTools => tale.(prose := text, wanted := calls)
      case _ => tale.(held := tale.held + [AssistantMessage(text)])
  }

  function IntentTells(tale: Tale, key: nat): Tale {
    if tale.wanted == [] then tale
    else
      var call := tale.wanted[0];
      var said := tale.held + [ToolCallMessage(ByKey(key), tale.prose, call.operation, call.args)];
      Tale(said, said, "", tale.wanted[1..], call)
  }

  /** Recovery answers the interrupted call, and what comes of it is stored unless something ends here. */
  function RecoveryTells(tale: Tale, intent: Entry, granted: map<string, Grant>, verdict: Option<Outcome>): Tale {
    var answered := Answered(tale, if intent.key.Some? then intent.key.value else 0, intent.toolName);
    var settled := Settlement(granted, intent, verdict);
    if settled.None? then Noted(answered, "stuck")
    else if settled.value.Suspension? then answered
    else Kept(answered)
  }

  /** A call the gate does not let through, to a question or to the Operation, has its answer there. */
  function GateTells(tale: Tale, key: nat, next: Phase): Tale {
    if next.Executing? || next.Asking? then tale else Answered(tale, key, tale.inHand.operation)
  }

  /** What this step adds to the tale. */
  ghost function Told(cfg: Config, s: State, step: Step, tale: Tale): Tale
    requires Enabled(cfg, s, step)
  {
    match step
    case Begin => tale.(held := tale.stored)
    case Guard(assistant, _) => GuardTells(tale, s.turn.value.conversation, assistant)
    case Commit => Kept(tale)
    case Reconcile(verdict) => RecoveryTells(tale, s.turn.value.phase.intent, s.turn.value.granted, verdict)
    case Attempt(reply) => ReplyTells(tale, reply)
    case GiveUp => Noted(tale, "stuck")
    case Intend => IntentTells(tale, NextSeq(s.turn.value.conversation.entries))
    case Gate(_) => GateTells(tale, s.turn.value.phase.key, Apply(cfg, s, step).turn.value.phase)
    case Ask => Answered(tale, s.turn.value.phase.key, tale.inHand.operation)
    case Record => Answered(tale, s.turn.value.phase.key, tale.inHand.operation)
    case WatchAnswered(text) => Heard(tale, text)
    case WatchGone(_) => Heard(tale, "gone")
    case WatchWoken => Heard(tale, "woken")
    case Deliver(text) => Heard(tale, text)
    case _ => tale
  }

  ghost function Story(cfg: Config, prompt: string, maxTurns: nat, steps: seq<Step>): Tale
    requires Legal(cfg, Born(prompt, maxTurns), steps)
  {
    if steps == [] then Tale([UserMessage(prompt)], [], "", [], Call("", Null))
    else
      var before := steps[..|steps| - 1];
      Told(cfg, Run(cfg, Born(prompt, maxTurns), before), steps[|steps| - 1], Story(cfg, prompt, maxTurns, before))
  }

  // ------------------------------------------------------------------ the log tells that tale

  predicate MakesCalls(phase: Phase) {
    phase.Calling? || HasCall(phase)
  }

  predicate HasCall(phase: Phase) {
    phase.Gating? || phase.Asking? || phase.Executing? || phase.Executed?
  }

  ghost predicate TurnTells(t: Turn, tale: Tale) {
    && MessagesFrom(t.conversation.entries) == tale.held && tale.stored <= tale.held
    && (t.phase.Guards? || t.phase.Reconciling? ==> tale.held == tale.stored)
    && (t.phase.Prompting? ==> t.phase.messages == [SystemMessage] + tale.stored)
    && (MakesCalls(t.phase) ==> tale.wanted == t.calls && tale.prose == if t.costEntry.None? then t.narration else "")
    && (HasCall(t.phase) ==> tale.inHand == t.phase.call && t.costEntry.Some?)
  }

  ghost predicate Tells(s: State, tale: Tale) {
    && MessagesFrom(s.store.conversation.entries) == tale.stored
    && (s.turn.Some? ==> TurnTells(s.turn.value, tale))
  }

  lemma AppendTells(es: seq<Entry>, row: Entry)
    ensures MessagesFrom(Append(es, row)) == MessagesFrom(es) + MessagesOf(row.(seqNo := NextSeq(es)))
  {
    assert Append(es, row)[..|es|] == es;
  }

  lemma UserTells(es: seq<Entry>, row: Entry)
    requires row.kind in {Answer, Timeout, ErrorNote}
    ensures MessagesFrom(Append(es, row)) == MessagesFrom(es) + [UserMessage(row.text)]
  {
    AppendTells(es, row);
  }

  lemma ResultTells(es: seq<Entry>, operation: string, key: nat, stamp: Option<string>)
    ensures MessagesFrom(Append(es, ResultRow(operation, Some(key), stamp)))
            == MessagesFrom(es) + [ToolMessage(ByKey(key), operation)]
  {
    AppendTells(es, ResultRow(operation, Some(key), stamp));
  }

  lemma {:induction false} UsageTellsNothing(es: seq<Entry>, at: nat, usage: Usage)
    requires at < |es|
    ensures MessagesFrom(AddUsage(es, at, usage)) == MessagesFrom(es)
  {
    var late, n := AddUsage(es, at, usage), |es| - 1;
    if at == n {
      assert late[..n] == es[..n];
    } else {
      assert late[..n] == AddUsage(es[..n], at, usage);
      UsageTellsNothing(es[..n], at, usage);
    }
  }

  /** A row of a kind the log does not list is said only if it has a text, as an approval request has none. */
  lemma UnlistedRowsSpeak(row: Entry)
    requires row.kind == ApprovalRequest || row.kind == Other
    ensures MessagesOf(row) == if row.text == "" then [] else [UserMessage(row.text)]
    ensures forall operation, hash, q :: MessagesOf(RequestRow(operation, hash, q)) == []
  {
  }

  lemma GuardTellsIt(s: State, assistant: Option<AssistantInfo>, granted: map<string, Grant>, tale: Tale)
    requires s.turn.Some? && s.turn.value.phase.Guards? && Tells(s, tale)
    ensures TurnTells(GuardTurn(s.turn.value, assistant, granted),
                      GuardTells(tale, s.turn.value.conversation, assistant))
  {
    hide Append, UnresolvedIntent, MessagesFrom;
    var es := s.turn.value.conversation.entries;
    UserTells(es, PlainRow(ErrorNote, "full"));
    UserTells(es, PlainRow(ErrorNote, "stuck"));
  }

  lemma ReconcileTellsIt(s: State, verdict: Option<Outcome>, tale: Tale)
    requires Good(s) && s.turn.Some? && s.turn.value.phase.Reconciling? && Tells(s, tale)
    ensures Tells(ReconcileStep(s, verdict),
                  RecoveryTells(tale, s.turn.value.phase.intent, s.turn.value.granted, verdict))
  {
    hide Append, MessagesFrom, Settlement, SettledStamp, FindByKey, Grown, GoodStore;
    var t := s.turn.value;
    var es, intent := t.conversation.entries, t.phase.intent;
    OpenKeyReads(es);
    hide UnresolvedIntent, OpenKey, WellLogged;
    var stamp := SettledStamp(t.granted, intent, Settlement(t.granted, intent, verdict));
    var row := ResultRow(intent.toolName, intent.key, stamp);
    ResultTells(es, intent.toolName, intent.key.value, stamp);
    UserTells(Append(es, row), PlainRow(ErrorNote, "stuck"));
  }

  lemma AttemptTellsIt(s: State, reply: ModelReply, tale: Tale)
    requires s.turn.Some? && s.turn.value.phase.Prompting? && Tells(s, tale)
    ensures Tells(AttemptStep(s, reply), ReplyTells(tale, reply))
  {
    hide Append, UnresolvedIntent, MessagesFrom, Plus, NextSeq, MessagesOf;
    var es := s.turn.value.conversation.entries;
    if reply.Response? {
      ResponseTellsIt(s, reply, tale);
    } else {
      UserTells(es, PlainRow(ErrorNote, "transient"));
      UserTells(es, PlainRow(ErrorNote, "stuck"));
    }
  }

  lemma ResponseTellsIt(s: State, reply: ModelReply, tale: Tale)
    requires s.turn.Some? && s.turn.value.phase.Prompting? && Tells(s, tale) && reply.Response?
    ensures Tells(AttemptStep(s, reply), ReplyTells(tale, reply))
  {
    hide Append, UnresolvedIntent, MessagesFrom, Plus, NextSeq;
    var es := s.turn.value.conversation.entries;
    match reply.finish
    case Abnormal => UserTells(es, PlainRow(ErrorNote, "stuck"));
    case WantsTools =>
    case _ =>
      AppendTells(es, PlainRow(Reply, reply.text).(usage := if reply.usage.Some? then reply.usage.value else NoUsage));
  }

  lemma IntendTellsIt(s: State, tale: Tale)
    requires s.turn.Some? && s.turn.value.phase.Calling? && s.turn.value.calls != [] && Tells(s, tale)
    ensures Tells(IntendStep(s), IntentTells(tale, NextSeq(s.turn.value.conversation.entries)))
  {
    hide Append, MessagesFrom, NextSeq;
    var t := s.turn.value;
    var es, first := t.conversation.entries, t.costEntry.None?;
    AppendTells(es, IntentRow(t.calls[0], if first then t.narration else "", NextSeq(es),
                              if first then t.bill else NoUsage));
  }

  lemma GateTellsIt(s: State, read: bool, tale: Tale)
    requires s.turn.Some? && s.turn.value.phase.Gating? && Tells(s, tale)
    ensures var next := GateTurn(s.turn.value, Readable(s.store.questions, read));
            TurnTells(next, GateTells(tale, s.turn.value.phase.key, next.phase))
  {
    hide Append, MessagesFrom, FindApproval, Readable;
    var t := s.turn.value;
    ResultTells(t.conversation.entries, t.phase.call.operation, t.phase.key, None);
  }

  lemma AskTellsIt(s: State, tale: Tale)
    requires s.turn.Some? && s.turn.value.phase.Asking? && Tells(s, tale)
    ensures Tells(AskStep(s), Answered(tale, s.turn.value.phase.key, tale.inHand.operation))
  {
    hide Append, MessagesFrom, Raise, RequestCount, NextSeq;
    var t := s.turn.value;
    var call, es := t.phase.call, t.conversation.entries;
    var hash := ArgsHash(call.args);
    var id := Raise(s.store.questions, Keys.ApprovalKey(hash, RequestCount(es, call.operation, hash) + 1)).1;
    AppendTells(es, RequestRow(call.operation, hash, id));
    ResultTells(Append(es, RequestRow(call.operation, hash, id)), call.operation, t.phase.key, None);
  }

  lemma RecordTellsIt(s: State, tale: Tale)
    requires s.turn.Some? && s.turn.value.phase.Executed? && Tells(s, tale)
    requires s.turn.value.costEntry.Some? && s.turn.value.costEntry.value < |s.turn.value.conversation.entries|
    ensures Tells(RecordStep(s), Answered(tale, s.turn.value.phase.key, tale.inHand.operation))
  {
    hide Append, MessagesFrom, AddUsage, OperationUsage, Plus, ArgsHash;
    var t, p := s.turn.value, s.turn.value.phase;
    var es := t.conversation.entries;
    var stamp := if p.yes.Some? && p.outcome.Value? then Some(ArgsHash(p.call.args)) else None;
    ResultTells(es, p.call.operation, p.key, stamp);
    if OperationUsage(p.report).Some? {
      AppendIsLonger(es, ResultRow(p.call.operation, Some(p.key), stamp));
      UsageTellsNothing(Append(es, ResultRow(p.call.operation, Some(p.key), stamp)), t.costEntry.value,
                        OperationUsage(p.report).value);
    }
  }

  lemma AppendIsLonger(es: seq<Entry>, row: Entry)
    ensures |Append(es, row)| == |es| + 1
  {
  }

  lemma StepTells(cfg: Config, s: State, step: Step, tale: Tale)
    requires Good(s) && Tells(s, tale) && Enabled(cfg, s, step)
    ensures Tells(Apply(cfg, s, step), Told(cfg, s, step, tale))
  {
    hide Good, GuardTurn, ReconcileStep, AttemptStep, IntendStep, GateTurn, AskStep, RecordStep, MessagesFrom, Append,
      Raise, Plus, ReplyTells, IntentTells, RecoveryTells, Readable, LoadQuestion, UnresolvedIntent;
    match step
    case Guard(assistant, granted) => GuardTellsIt(s, assistant, granted, tale);
    case Reconcile(verdict) => ReconcileTellsIt(s, verdict, tale);
    case Attempt(reply) => AttemptTellsIt(s, reply, tale);
    case GiveUp => UserTells(s.turn.value.conversation.entries, PlainRow(ErrorNote, "stuck"));
    case Intend => IntendTellsIt(s, tale);
    case Gate(read) => GateTellsIt(s, read, tale);
    case Ask => AskTellsIt(s, tale);
    case Record => RecordTellsIt(s, tale);
    case WatchAnswered(text) =>
      UserTells(s.store.conversation.entries,
                PlainRow(Answer, text).(questionId := s.store.conversation.currentQuestion));
    case WatchGone(_) => UserTells(s.store.conversation.entries, PlainRow(ErrorNote, "gone"));
    case WatchWoken => UserTells(s.store.conversation.entries, PlainRow(Timeout, "woken"));
    case Deliver(text) => UserTells(s.store.conversation.entries, PlainRow(Answer, text));
    case _ =>
  }

  lemma {:induction false} RunTells(cfg: Config, prompt: string, maxTurns: nat, steps: seq<Step>)
    requires Legal(cfg, Born(prompt, maxTurns), steps)
    ensures Tells(Run(cfg, Born(prompt, maxTurns), steps), Story(cfg, prompt, maxTurns, steps))
  {
    hide Apply, Enabled, Told, Tells;
    if steps == [] {
      BornTells(prompt, maxTurns);
    } else {
      var before := steps[..|steps| - 1];
      RunTells(cfg, prompt, maxTurns, before);
      RunKeeps(cfg, prompt, maxTurns, before);
      StepTells(cfg, Run(cfg, Born(prompt, maxTurns), before), steps[|steps| - 1],
                Story(cfg, prompt, maxTurns, before));
    }
  }

  lemma BornTells(prompt: string, maxTurns: nat)
    ensures Tells(Born(prompt, maxTurns), Tale([UserMessage(prompt)], [], "", [], Call("", Null)))
  {
    assert Born(prompt, maxTurns).store.conversation.entries[..0] == [];
  }

  /** Nothing that has been stored is ever taken back or reordered. */
  lemma {:induction false} TaleGrows(cfg: Config, prompt: string, maxTurns: nat, steps: seq<Step>, n: nat)
    requires Legal(cfg, Born(prompt, maxTurns), steps) && n <= |steps|
    ensures Legal(cfg, Born(prompt, maxTurns), steps[..n])
    ensures Story(cfg, prompt, maxTurns, steps[..n]).stored <= Story(cfg, prompt, maxTurns, steps).stored
  {
    hide Apply, Enabled, Told, Tells;
    if n == |steps| {
      assert steps[..n] == steps;
    } else {
      var before := steps[..|steps| - 1];
      assert before[..n] == steps[..n];
      TaleGrows(cfg, prompt, maxTurns, before, n);
      RunTells(cfg, prompt, maxTurns, before);
      StoredGrows(cfg, Run(cfg, Born(prompt, maxTurns), before), steps[|steps| - 1],
                  Story(cfg, prompt, maxTurns, before));
    }
  }

  lemma StoredGrows(cfg: Config, s: State, step: Step, tale: Tale)
    requires Tells(s, tale) && Enabled(cfg, s, step)
    ensures tale.stored <= Told(cfg, s, step, tale).stored
  {
    hide MessagesFrom, Apply, Settlement, NextSeq;
  }

  /** Over every run, wherever it crashes: the log reads as the system message and then the tale as stored,
      and that is what a prompt to the model says. The tale begins with what the Conversation was born
      with, and what was stored by any earlier point of the run comes first, in the same order. */
  lemma PromptTellsTheTale(cfg: Config, prompt: string, maxTurns: nat, steps: seq<Step>, n: nat)
    requires Legal(cfg, Born(prompt, maxTurns), steps) && n <= |steps|
    ensures Legal(cfg, Born(prompt, maxTurns), steps[..n])
    ensures BuildMessages(Run(cfg, Born(prompt, maxTurns), steps).store.conversation.entries)
            == [SystemMessage] + Story(cfg, prompt, maxTurns, steps).stored
    ensures var s := Run(cfg, Born(prompt, maxTurns), steps);
            s.turn.Some? && s.turn.value.phase.Prompting? ==>
              && s.turn.value.phase.messages == [SystemMessage] + Story(cfg, prompt, maxTurns, steps).stored
              && [SystemMessage, UserMessage(prompt)] <= s.turn.value.phase.messages
              && [SystemMessage] + Story(cfg, prompt, maxTurns, steps[..n]).stored <= s.turn.value.phase.messages
  {
    hide Run, Legal, Told;
    RunTells(cfg, prompt, maxTurns, steps);
    TaleGrows(cfg, prompt, maxTurns, steps, n);
    TaleGrows(cfg, prompt, maxTurns, steps, 0);
    assert steps[..0] == [];
  }
}
