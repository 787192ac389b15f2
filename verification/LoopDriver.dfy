/** The driver as the program writes it: one method per method, fields updated in place, one loop
    over model attempts and one over tool calls. Every durable effect is recorded as a step of the
    transition system, so whatever holds over all runs holds of the driver. */
module LoopDriver {
  import opened Wrappers
  import opened CanonicalJson
  import opened Conversations
  import opened Loop
  import opened IntentLog
  import opened ExactlyOnce
  import Keys

  datatype Note =
    | AlreadyFinished
    | LeasedElsewhere
    | EntriesFull
    | UnknownAssistant
    | AssistantDisabled
    | MaxTurns
    | Unreconcilable
    | CallPending
    | ModelUnreachable
    | ModelError
    | Finished
    | TurnTaken

  /** What the gate says of one call. */
  datatype Passage = GoAhead(yes: Option<nat>) | Deny | Hold(question: nat)

  /** What one advance meets: the Assistant it finds, what that one is granted, what an Operation says of an
      interrupted call, and what the model answers, attempt by attempt. */
  datatype Around = Around(assistant: Option<AssistantInfo>, granted: map<string, Grant>, verdict: Option<Outcome>,
                           replies: nat -> ModelReply)

  ghost predicate HonestReplies(replies: nat -> ModelReply) {
    forall i: nat :: replies(i).Response? ==> Honest(replies(i).usage, replies(i).spent)
  }

  /** The first answer that is no transient failure, if one of so many attempts gets one. */
  function FirstReply(replies: nat -> ModelReply, from: nat, attempts: nat): Option<ModelReply>
    decreases attempts + 1 - from
  {
    if from > attempts then None
    else if !replies(from).Transient? then Some(replies(from))
    else FirstReply(replies, from + 1, attempts)
  }

  /** Where the model's answer leads. */
  predicate Concludes(reply: Option<ModelReply>, note: Note) {
    match note
    case ModelUnreachable => reply.None? || reply.value.Fatal?
    case ModelError => reply.Some? && reply.value.Response? && reply.value.finish.Abnormal?
    case Finished =>
      && reply.Some? && reply.value.Response?
      && (reply.value.finish == Finish.Answered || reply.value.finish == CutShort)
    case TurnTaken => reply.Some? && reply.value.Response? && reply.value.finish.WantsTools?
    case CallPending => reply.Some? && reply.value.Response? && reply.value.finish.WantsTools?
    case _ => false
  }

  /** Recovery goes on to the Turn only with the call settled, and not by a suspension. */
  predicate RecoversTo(settled: Option<Outcome>, note: Option<Note>) {
    match settled
    case None => note == Some(Unreconcilable)
    case Some(outcome) => note == if outcome.Suspension? then Some(CallPending) else None
  }

  /** With an enabled Assistant: turns left, then recovery, then the model. */
  predicate Proceeds(cfg: Config, c: Conversation, info: AssistantInfo, around: Around, note: Note) {
    var limit := if c.maxTurns.Some? then c.maxTurns.value else if info.maxTurns.Some? then info.maxTurns.value else 20;
    if c.turnCount >= limit then note.MaxTurns?
    else
      var intent := UnresolvedIntent(c.entries);
      if intent.None? then Concludes(FirstReply(around.replies, 1, cfg.maxAttempts), note)
      else
        var settled := Settlement(around.granted, intent.value, around.verdict);
        RecoversTo(settled, Some(note))
        || (RecoversTo(settled, None) && Concludes(FirstReply(around.replies, 1, cfg.maxAttempts), note))
  }

  /** The note an advance that finds this Conversation ends with. */
  predicate Leads(cfg: Config, c: Conversation, around: Around, note: Note) {
    if c.status == Done || c.status == Failed then note.AlreadyFinished?
    else if c.leased then note.LeasedElsewhere?
    else if |c.entries| > 95 then note.EntriesFull?
    else
      match around.assistant
      case None => note.UnknownAssistant?
      case Some(info) => if info.enabled then Proceeds(cfg, c, info, around, note) else note.AssistantDisabled?
  }

  // ------------------------------------------------------------------ what an advance leaves

  /** The steps an advance takes, or the User while it waits: no crash, no other advance, no watcher. */
  predicate WithinAdvance(step: Step) {
    match step
    case Begin => false
    case Crash => false
    case LeaseExpires => false
    case WatchAnswered(_) => false
    case WatchGone(_) => false
    case WatchWoken => false
    case Deliver(_) => false
    case _ => true
  }

  predicate AllWithin(steps: seq<Step>) {
    forall i | 0 <= i < |steps| :: WithinAdvance(steps[i])
  }

  /** `late` is `early` and then steps of one advance, ending in its write. */
  predicate Concluded(early: seq<Step>, late: seq<Step>) {
    early < late && AllWithin(late[|early|..]) && late[|late| - 1] == Commit
  }

  predicate Continued(early: seq<Step>, late: seq<Step>) {
    early <= late && AllWithin(late[|early|..])
  }

  lemma NotShorter(early: seq<Step>, late: seq<Step>)
    requires Continued(early, late)
    ensures |early| <= |late|
  {
  }

  lemma KeepsStep(early: seq<Step>, late: seq<Step>, at: nat)
    requires Continued(early, late) && at < |early|
    ensures at < |late| && late[at] == early[at]
  {
  }

  lemma OneMore(early: seq<Step>, late: seq<Step>, step: Step)
    requires Continued(early, late) && WithinAdvance(step)
    ensures Continued(early, late + [step])
    ensures step.Commit? ==> Concluded(early, late + [step])
  {
    assert (late + [step])[|early|..] == late[|early|..] + [step];
  }

  lemma InTwoParts(early: seq<Step>, mid: seq<Step>, late: seq<Step>)
    requires Continued(early, mid) && Continued(mid, late)
    ensures Continued(early, late)
    ensures Concluded(mid, late) ==> Concluded(early, late)
  {
    assert late[|early|..] == mid[|early|..] + late[|mid|..] by {
      assert late[..|mid|] == mid;
    }
  }

  lemma SoFar(steps: seq<Step>)
    ensures Continued(steps, steps)
  {
  }

  lemma ConcludedGoesOn(early: seq<Step>, late: seq<Step>)
    requires Concluded(early, late)
    ensures Continued(early, late)
  {
  }

  /** The log after n attempts at the model that failed for the moment. */
  function Retried(c: Conversation, n: nat): Conversation {
    if n == 0 then c else Appended(Retried(c, n - 1), PlainRow(ErrorNote, "transient"))
  }

  predicate EndsIn(c: Conversation, kind: Kind) {
    c.entries != [] && c.entries[|c.entries| - 1].kind == kind
  }

  /** What an escalation leaves: failed past the cap, else waiting on a live question of its own. */
  predicate LeftStuck(cfg: Config, noted: Conversation, now: Conversation, questions: seq<Question>) {
    if noted.escalations > cfg.maxEscalations then
      now == noted.(status := Failed, leased := false, currentQuestion := None)
    else
      && now.currentQuestion.Some? && now.currentQuestion.value < |questions|
      && questions[now.currentQuestion.value].live
      && questions[now.currentQuestion.value].key == Keys.EscalationKey(noted.escalations)
      && now == noted.(status := Waiting, waitingFor := User, currentQuestion := now.currentQuestion, leased := false)
  }

  predicate Stuck(cfg: Config, was: Conversation, now: Conversation, questions: seq<Question>) {
    now.escalations == was.escalations + 1 && EndsIn(now, ErrorNote) && LeftStuck(cfg, now, now, questions)
  }

  /** What is stored when an advance that found this Conversation ends with this note. */
  predicate Leaves(cfg: Config, note: Note, was: Conversation, now: Conversation, questions: seq<Question>) {
    match note
    case AlreadyFinished => now == was
    case LeasedElsewhere => now == was
    case EntriesFull => now == EndedFull(was)
    case AssistantDisabled => now == was.(leased := false)
    case UnknownAssistant => Stuck(cfg, was, now, questions) && now.turnCount == was.turnCount
    case Unreconcilable => Stuck(cfg, was, now, questions) && now.turnCount == was.turnCount
    case ModelUnreachable => Stuck(cfg, was, now, questions) && now.turnCount == was.turnCount
    case ModelError => Stuck(cfg, was, now, questions) && now.turnCount == was.turnCount + 1
    case MaxTurns =>
      && Stuck(cfg, was, now, questions) && now.turnCount == was.turnCount
      && now.maxTurns.Some? && now.maxTurns.value <= was.turnCount + 5
      && (was.maxTurns.Some? ==> now.maxTurns.value == was.maxTurns.value + 5)
    case CallPending =>
      && now.status == Waiting && !now.leased && EndsIn(now, ToolResult) && now.escalations == was.escalations
      && was.turnCount <= now.turnCount <= was.turnCount + 1
    case Finished =>
      now.status == Done && !now.leased && EndsIn(now, Kind.Reply) && now.turnCount == was.turnCount + 1
    case TurnTaken => now.status == Running && !now.leased && now.turnCount == was.turnCount + 1
  }

  /** A lease of one's own changes nothing of where an advance leads. */
  lemma SameProceeds(cfg: Config, c: Conversation, d: Conversation, around: Around)
    requires d == c.(leased := true)
    ensures forall info, note :: Proceeds(cfg, c, info, around, note) <==> Proceeds(cfg, d, info, around, note)
  {
    hide FirstReply, UnresolvedIntent, Settlement, Concludes, RecoversTo;
  }

  /** Two Conversations alike in what an advance counts. */
  predicate CountsAlike(a: Conversation, b: Conversation) {
    a.escalations == b.escalations && a.turnCount == b.turnCount && a.maxTurns == b.maxTurns
  }

  predicate Escalates(note: Note) {
    note.UnknownAssistant? || note.Unreconcilable? || note.ModelUnreachable? || note.ModelError? || note.MaxTurns?
  }

  lemma EscalationLeaves(cfg: Config, note: Note, was: Conversation, c: Conversation, now: Conversation,
                         questions: seq<Question>)
    requires LeftStuck(cfg, Escalated(c), now, questions) && Escalates(note) && c.escalations == was.escalations
    requires c.turnCount == was.turnCount + if note.ModelError? then 1 else 0
    requires note.MaxTurns? ==>
               && c.maxTurns.Some? && c.maxTurns.value <= was.turnCount + TURN_GRANT_ON_ESCALATION
               && (was.maxTurns.Some? ==> c.maxTurns.value == was.maxTurns.value + TURN_GRANT_ON_ESCALATION)
    ensures Leaves(cfg, note, was, now, questions)
  {
    hide NextSeq;
  }

  lemma LeavesAlike(cfg: Config, note: Note, was: Conversation, c: Conversation, now: Conversation,
                    questions: seq<Question>)
    requires Leaves(cfg, note, c, now, questions) && CountsAlike(was, c)
    requires Escalates(note) || note.CallPending? || note.Finished? || note.TurnTaken?
    ensures Leaves(cfg, note, was, now, questions)
  {
    hide LeftStuck, EndsIn;
  }

  lemma {:induction false} RetriedAlike(c: Conversation, n: nat)
    ensures CountsAlike(c, Retried(c, n))
  {
    if n > 0 { RetriedAlike(c, n - 1); }
  }

  /** How a Turn ends that was not stuck. */
  lemma TurnLeaves(cfg: Config, note: Note, was: Conversation, now: Conversation, questions: seq<Question>)
    requires !now.leased && now.escalations == was.escalations
    requires match note
             case CallPending =>
               now.status == Waiting && EndsIn(now, ToolResult) && was.turnCount <= now.turnCount <= was.turnCount + 1
             case Finished => now.status == Done && EndsIn(now, Kind.Reply) && now.turnCount == was.turnCount + 1
             case TurnTaken => now.status == Running && now.turnCount == was.turnCount + 1
             case _ => false
    ensures Leaves(cfg, note, was, now, questions)
  {
  }

  lemma AppendedEndsIn(c: Conversation, row: Entry)
    ensures EndsIn(Appended(c, row), row.kind)
  {
  }

  /** Where the model's answer leads. */
  lemma AnswerLeads(cfg: Config, s: State, reply: ModelReply)
    requires Enabled(cfg, s, Attempt(reply)) && reply.Response?
    ensures var next := Apply(cfg, s, Attempt(reply));
            var t := s.turn.value;
            var counted := t.conversation.(turnCount := t.conversation.turnCount + 1);
            var bill := if reply.usage.Some? then reply.usage.value else NoUsage;
            && next.store.conversation == s.store.conversation && next.store.questions == s.store.questions
            && next.turn.Some? && next.turn.value.granted == t.granted
            && match reply.finish
               case Abnormal =>
                 next.turn.value.phase.Escalating? && next.turn.value.conversation == Escalated(counted)
               case WantsTools =>
                 next.turn.value.phase.Calling? && next.turn.value.conversation == counted
                 && next.turn.value.calls == reply.calls && next.turn.value.narration == reply.text
                 && next.turn.value.bill == bill && next.turn.value.costEntry.None?
               case _ =>
                 next.turn.value.phase == Committing(true)
                 && next.turn.value.conversation
                    == Appended(counted, PlainRow(Kind.Reply, reply.text).(usage := bill))
                       .(status := Done, leased := false)
  {
    hide Append, UnresolvedIntent, Plus;
  }

  lemma ReplyLeaves(cfg: Config, was: Conversation, c: Conversation, now: Conversation, questions: seq<Question>,
                    row: Entry)
    requires c == was.(turnCount := was.turnCount + 1) && row.kind == Kind.Reply
    requires now == Appended(c, row).(status := Done, leased := false)
    ensures Leaves(cfg, Finished, was, now, questions)
  {
    AppendedEndsIn(c, row);
  }

  lemma SuspendedEndsIn(c: Conversation, party: Party, wakes: bool, question: Option<nat>)
    ensures EndsIn(Suspended(c, party, wakes, question), ToolResult) <==> EndsIn(c, ToolResult)
  {
  }

  class Driver {
    const cfg: Config

    /** The store: the Conversation as last written, and the Open Questions. */
    var stored: Conversation
    var questions: seq<Question>

    /** The Conversation as this advance holds it in memory. */
    var conversation: Conversation

    ghost const birth: State
    ghost var steps: seq<Step>
    ghost var state: State

    /** The steps taken so far form a legal run from birth, and lead to `state`. */
    ghost predicate History()
      reads this
    {
      Legal(cfg, birth, steps) && Run(cfg, birth, steps) == state
    }

    ghost predicate Valid()
      reads this
    {
      History() && state.store.conversation == stored && state.store.questions == questions
    }

    /** An advance is at work, and memory is as the transition system has it. */
    ghost predicate Working()
      reads this
    {
      Valid() && state.turn.Some? && state.turn.value.conversation == conversation
    }

    constructor (cfg: Config, prompt: string, maxTurns: nat)
      ensures Valid() && state.turn.None?
      ensures this.cfg == cfg && birth == Born(prompt, maxTurns) && steps == [] && questions == []
      ensures stored == Conversation(Running, Nobody, false, 0, Some(maxTurns), false, None, 0, stored.entries)
      ensures |stored.entries| == 1
              && stored.entries[0] == Blank.(seqNo := 1, kind := Prompt, text := prompt)
    {
      this.cfg := cfg;
      stored := Born(prompt, maxTurns).store.conversation;
      questions := [];
      conversation := Born(prompt, maxTurns).store.conversation;
      birth := Born(prompt, maxTurns);
      steps := [];
      state := Born(prompt, maxTurns);
    }

    /** One more step of the run. */
    ghost method Take(step: Step)
      requires History() && Enabled(cfg, state, step)
      modifies this`steps, this`state
      ensures History() && steps == old(steps) + [step] && state == Apply(cfg, old(state), step)
    {
      assert (steps + [step])[..|steps|] == steps;
      state := Apply(cfg, state, step);
      steps := steps + [step];
    }

    // ---------------------------------------------------------------- the store

    method AppendEntry(row: Entry)
      modifies this`conversation
      ensures conversation == Appended(old(conversation), row)
      ensures |conversation.entries| == |old(conversation.entries)| + 1
    {
      var full := row.(seqNo := NextSeq(conversation.entries));
      conversation := conversation.(entries := conversation.entries + [full]);
    }

    method Write()
      modifies this`stored
      ensures stored == conversation
    {
      stored := conversation;
    }

    /** Search, then create: the question under this key is found or added. */
    method RaiseQuestion(key: Keys.Key) returns (id: nat)
      modifies this`questions
      ensures (questions, id) == Raise(old(questions), key)
    {
      var i := 0;
      while i < |questions| && !(questions[i].live && questions[i].key == key)
        invariant i <= |questions| && FindByKey(questions, key, 0) == FindByKey(questions, key, i)
      {
        i := i + 1;
      }
      id := i;
      if i == |questions| {
        questions := questions + [Question(key, true, None, false)];
      }
    }

    /** What the User may do to Open Questions while an advance awaits something else. */
    method Interfere()
      requires Valid()
      modifies this`questions, this`steps, this`state
      ensures Valid() && state.turn == old(state.turn) && Continued(old(steps), steps)
    {
      hide Run, Legal, Continued;
      var more: nat := *;
      SoFar(steps);
      while more > 0
        invariant Valid() && state.turn == old(state.turn) && Continued(old(steps), steps)
      {
        ghost var before := steps;
        var q: nat, confirmed: Option<bool>, spoken: bool, deletes: bool := *, *, *, *;
        if q < |questions| && questions[q].live {
          if deletes {
            Take(Delete(q));
            OneMore(old(steps), before, Delete(q));
            questions := questions[q := questions[q].(live := false)];
          } else {
            Take(SetAnswer(q, confirmed, spoken));
            OneMore(old(steps), before, SetAnswer(q, confirmed, spoken));
            questions := questions[q := questions[q].(confirmed := confirmed, spoken := spoken)];
          }
        }
        more := more - 1;
      }
    }

    /** Stamp the result just appended with the arguments whose approval it spent. */
    method StampSpentApproval(hash: string)
      requires conversation.entries != []
      modifies this`conversation
      ensures var was := old(conversation.entries);
              conversation == old(conversation).(entries := was[|was| - 1 := was[|was| - 1].(argsHash := Some(hash))])
    {
      var last := |conversation.entries| - 1;
      var result := conversation.entries[last].(argsHash := Some(hash));
      conversation := conversation.(entries := conversation.entries[last := result]);
    }

    /** Put what the provider reported, if anything, on the row just appended. */
    method RecordUsage(usage: Option<Usage>)
      requires conversation.entries != []
      modifies this`conversation
      ensures var was := old(conversation.entries);
              conversation == if usage.None? then old(conversation) else
                old(conversation).(entries := was[|was| - 1 := was[|was| - 1].(usage := usage.value)])
    {
      if usage.Some? {
        var last := |conversation.entries| - 1;
        var billed := conversation.entries[last].(usage := usage.value);
        conversation := conversation.(entries := conversation.entries[last := billed]);
      }
    }

    /** Put the Conversation back to sleep: the only writer of the suspended state. */
    method Suspend(party: Party, wakes: bool, question: Option<nat>)
      requires Valid() && state.turn.Some? && state.turn.value.phase == Committing(true)
      requires state.turn.value.conversation == Suspended(conversation, party, wakes, question)
      modifies this
      ensures Valid() && state.turn.None? && steps == old(steps) + [Commit] && questions == old(questions)
      ensures stored == Suspended(old(conversation), party, wakes, question)
    {
      conversation := conversation.(status := Waiting);
      conversation := conversation.(waitingFor := party);
      conversation := conversation.(wakes := wakes);
      conversation := conversation.(currentQuestion := question);
      conversation := conversation.(leased := false);
      Write();
      Take(Commit);
    }

    method EscalateByKey()
      requires Valid() && state.turn.Some? && state.turn.value.phase.Escalating?
      requires state.turn.value.conversation == Escalated(conversation)
      modifies this
      ensures Valid() && state.turn.None? && Concluded(old(steps), steps)
      ensures LeftStuck(cfg, Escalated(old(conversation)), stored, questions)
    {
      hide Run, Legal, Raise, UnresolvedIntent, Plus, Append, Continued, Concluded, GuardTurn, ReconcileStep,
        AttemptStep, IntendStep, EndCallsStep, GateTurn, AskStep, ExecuteStep, RecordStep, BeginTurn, Watched;
      SoFar(steps);
      conversation := conversation.(escalations := conversation.escalations + 1);
      AppendEntry(PlainRow(ErrorNote, "stuck"));
      if conversation.escalations > cfg.maxEscalations {
        Take(Escalate);
        OneMore(old(steps), old(steps), Escalate);
        OneMore(old(steps), steps, Commit);
        conversation := conversation.(status := Failed);
        conversation := conversation.(leased := false);
        conversation := conversation.(currentQuestion := None);
        Write();
        Take(Commit);
        return;
      }
      Interfere();
      ghost var before := steps;
      var id := RaiseQuestion(Keys.EscalationKey(conversation.escalations));
      Take(Escalate);
      OneMore(old(steps), before, Escalate);
      OneMore(old(steps), steps, Commit);
      conversation := conversation.(status := Waiting);
      conversation := conversation.(waitingFor := User);
      conversation := conversation.(currentQuestion := Some(id));
      conversation := conversation.(leased := false);
      Write();
      Take(Commit);
    }

    /** Escalate, as the way an advance ends that found this Conversation and has come this far. */
    method EscalateFrom(ghost early: seq<Step>, ghost was: Conversation, ghost note: Note)
      requires Valid() && state.turn.Some? && state.turn.value.phase.Escalating? && Continued(early, steps)
      requires state.turn.value.conversation == Escalated(conversation) && Escalates(note)
      requires conversation.escalations == was.escalations
      requires conversation.turnCount == was.turnCount + if note.ModelError? then 1 else 0
      requires note.MaxTurns? ==>
                 && conversation.maxTurns.Some?
                    && conversation.maxTurns.value <= was.turnCount + TURN_GRANT_ON_ESCALATION
                 && (was.maxTurns.Some? ==>
                       conversation.maxTurns.value == was.maxTurns.value + TURN_GRANT_ON_ESCALATION)
      modifies this
      ensures Valid() && state.turn.None? && Concluded(early, steps)
      ensures LeftStuck(cfg, Escalated(old(conversation)), stored, questions)
      ensures Leaves(cfg, note, was, stored, questions)
    {
      hide Run, Legal, Continued, Concluded, Leaves, LeftStuck, Append;
      EscalateByKey();
      ConcludedGoesOn(old(steps), steps);
      InTwoParts(early, old(steps), steps);
      EscalationLeaves(cfg, note, was, old(conversation), stored, questions);
    }

    method EndBecauseFull()
      requires Valid() && state.turn.Some? && state.turn.value.phase == Committing(true)
      requires state.turn.value.conversation == EndedFull(conversation)
      modifies this
      ensures Valid() && state.turn.None? && steps == old(steps) + [Commit] && questions == old(questions)
      ensures stored == EndedFull(old(conversation))
    {
      if |conversation.entries| < MAX_ENTRIES {
        AppendEntry(PlainRow(ErrorNote, "full"));
      }
      conversation := conversation.(status := Failed);
      conversation := conversation.(waitingFor := Nobody);
      conversation := conversation.(leased := false);
      conversation := conversation.(currentQuestion := None);
      Write();
      Take(Commit);
    }

    /** Ask whether an interrupted call landed, never running it again. None is "nothing can say",
        and leaves the intent to the caller. `verdict` is what the Operation says, if it is asked. */
    method Reconcile(intent: Entry, granted: map<string, Grant>, verdict: Option<Outcome>)
      returns (settled: Option<Outcome>)
      requires Working() && state.turn.value.phase == Reconciling(intent)
      modifies this`conversation
      ensures settled == Settlement(granted, intent, verdict)
      ensures conversation
              == if settled.None? then old(conversation)
                 else Appended(old(conversation),
                               ResultRow(intent.toolName, intent.key, SettledStamp(granted, intent, settled)))
    {
      settled := if intent.toolName !in granted then Some(Error)
                 else if !granted[intent.toolName].mutating then Some(Value)
                 else if !granted[intent.toolName].reconciles then None
                 else verdict;
      if !settled.Some? { return; }
      AppendEntry(ResultRow(intent.toolName, intent.key, None));
      if intent.toolName in granted && granted[intent.toolName].requiresApproval && settled.value.Value? {
        StampSpentApproval(ArgsHash(intent.toolArgs));
      }
    }

    /** Bounded attempts, each transient failure leaving a row. None when every attempt failed. */
    method CallModelWithRetries(replies: nat -> ModelReply) returns (reply: Option<ModelReply>)
      requires HonestReplies(replies)
      requires Working() && state.turn.value.phase == Prompting(1, BuildMessages(conversation.entries))
      modifies this
      ensures Working() && stored == old(stored) && questions == old(questions) && Continued(old(steps), steps)
      ensures state.turn.value.phase.Prompting? && state.turn.value.phase.attempt >= 1
      ensures conversation == Retried(old(conversation), state.turn.value.phase.attempt - 1)
      ensures state.turn.value.granted == old(state.turn.value.granted)
      ensures reply == FirstReply(replies, 1, cfg.maxAttempts)
      ensures reply.None? ==> state.turn.value.phase.attempt == cfg.maxAttempts + 1
      ensures reply.Some? ==>
                && state.turn.value.phase.attempt <= cfg.maxAttempts && !reply.value.Transient?
                && (reply.value.Response? ==> Honest(reply.value.usage, reply.value.spent))
    {
      hide Run, Legal, Plus, BuildMessages, Continued, Append;
      SoFar(steps);
      var attempt := 1;
      while attempt <= cfg.maxAttempts
        invariant Working() && stored == old(stored) && questions == old(questions) && Continued(old(steps), steps)
        invariant state.turn.value.phase.Prompting? && state.turn.value.phase.attempt == attempt
        invariant 1 <= attempt <= cfg.maxAttempts + 1 && conversation == Retried(old(conversation), attempt - 1)
        invariant state.turn.value.granted == old(state.turn.value.granted)
        invariant FirstReply(replies, 1, cfg.maxAttempts) == FirstReply(replies, attempt, cfg.maxAttempts)
      {
        var answer := replies(attempt);
        if !answer.Transient? {
          return Some(answer);
        }
        AppendEntry(PlainRow(ErrorNote, "transient"));
        OneMore(old(steps), steps, Attempt(answer));
        Take(Attempt(answer));
        attempt := attempt + 1;
      }
      return None;
    }

    /** Ask the User to approve one call, and record that we did: the question first, then the row. */
    method RaiseApproval(call: Call) returns (id: nat)
      modifies this`questions, this`conversation
      ensures var es := old(conversation.entries);
              var hash := ArgsHash(call.args);
              && (questions, id)
                 == Raise(old(questions), Keys.ApprovalKey(hash, RequestCount(es, call.operation, hash) + 1))
              && conversation == Appended(old(conversation), RequestRow(call.operation, hash, id))
    {
      var hash := ArgsHash(call.args);
      var attempt := RequestCount(conversation.entries, call.operation, hash) + 1;
      id := RaiseQuestion(Keys.ApprovalKey(hash, attempt));
      AppendEntry(RequestRow(call.operation, hash, id));
    }

    /** The refusal, or leave to go ahead. `read` is whether the question can be read; one that cannot is
        asked again, whatever its answer: only what was read lets a call through or denies it. */
    method GateOnApproval(call: Call, key: nat, granted: map<string, Grant>, read: bool) returns (passage: Passage)
      requires Working() && state.turn.value.phase == Gating(call, key) && state.turn.value.granted == granted
      modifies this
      ensures Valid() && stored == old(stored) && Continued(old(steps), steps) && state.turn.Some?
      ensures var t, before := state.turn.value, old(state.turn.value);
              && t.granted == before.granted && t.calls == before.calls && t.narration == before.narration
              && t.bill == before.bill && t.costEntry == before.costEntry
      ensures conversation == old(conversation)
              || (passage.Hold?
                  && conversation
                     == Appended(old(conversation), RequestRow(call.operation, ArgsHash(call.args), passage.question)))
      ensures var approval := FindApproval(conversation.entries, call.operation, ArgsHash(call.args), questions);
              match passage
              case GoAhead(yes) =>
                && call.operation in granted
                && if granted[call.operation].requiresApproval
                   then yes.Some? && approval == Approval.Valid(yes.value) else yes.None?
              case Deny => call.operation !in granted || approval.Declined?
              case Hold(q) =>
                && call.operation in granted && granted[call.operation].requiresApproval
                && (conversation == old(conversation) ==> approval == Pending(q))
      ensures call.operation in granted && granted[call.operation].requiresApproval ==>
                exists i :: |old(steps)| <= i < |steps| && steps[i] == Gate(read)
      ensures !read && call.operation in granted && granted[call.operation].requiresApproval ==>
                passage.Hold? && conversation != old(conversation)
      ensures match passage
              case GoAhead(yes) =>
                state.turn.value.phase == Executing(call, key, yes) && state.turn.value.conversation == conversation
                && conversation == old(conversation)
              case Deny =>
                state.turn.value.phase == Calling && conversation == old(conversation)
                && state.turn.value.conversation == Appended(conversation, ResultRow(call.operation, Some(key), None))
              case Hold(q) =>
                state.turn.value.phase == Committing(true)
                && state.turn.value.conversation
                   == Suspended(Appended(conversation, ResultRow(call.operation, Some(key), None)), User, false,
                                Some(q))
    {
      hide Run, Legal, Raise, Plus, FindApproval, RequestCount, Append, Continued, Readable;
      SoFar(steps);
      OneMore(old(steps), steps, Gate(true));
      if call.operation !in granted {
        Take(Gate(true));
        return Deny;
      }
      if !granted[call.operation].requiresApproval {
        Take(Gate(true));
        return GoAhead(None);
      }
      Interfere();
      var hash := ArgsHash(call.args);
      var approval := FindApproval(conversation.entries, call.operation, hash, Readable(questions, read));
      UnreadIsMissing(conversation.entries, call.operation, hash, questions, read);
      OneMore(old(steps), steps, Gate(read));
      ghost var at := |steps|;
      NotShorter(old(steps), steps);
      Take(Gate(read));
      assert steps[at] == Gate(read);
      match approval {
        case Valid(q) => return GoAhead(Some(q));
        case Declined(_) => return Deny;
        case Pending(q) => return Hold(q);
        case _ =>
          ghost var before := steps;
          var id := AskForApproval(call, key);
          InTwoParts(old(steps), before, steps);
          KeepsStep(before, steps, at);
          assert |old(steps)| <= at < |steps| && steps[at] == Gate(read);
          AppendChanges(old(conversation), RequestRow(call.operation, hash, id));
          return Hold(id);
      }
    }

    lemma AppendChanges(c: Conversation, row: Entry)
      ensures Appended(c, row) != c
    {
      assert |Appended(c, row).entries| == |c.entries| + 1;
    }

    method AskForApproval(call: Call, key: nat) returns (id: nat)
      requires Working() && state.turn.value.phase == Asking(call, key)
      modifies this
      ensures Valid() && stored == old(stored) && Continued(old(steps), steps) && state.turn.Some?
      ensures conversation == Appended(old(conversation), RequestRow(call.operation, ArgsHash(call.args), id))
      ensures state.turn.value == Held(old(state.turn.value).(conversation := conversation), call, key, id)
    {
      hide Run, Legal, Raise, Plus, RequestCount, Append, Held, Continued;
      Interfere();
      id := RaiseApproval(call);
      OneMore(old(steps), steps, Ask);
      Take(Ask);
    }

    /** Run the Operation. What it answers and reports, whether it took effect and what it spent are its own;
        what it plausibly reports, it spent. */
    method ExecuteOperation(call: Call, key: nat, ghost yes: Option<nat>, outcome: Outcome, ghost landed: bool,
                            report: Report, ghost unreported: Usage)
      returns (question: Option<nat>, ghost spent: Usage)
      requires Working() && state.turn.value.phase == Executing(call, key, yes)
      modifies this
      ensures Working() && stored == old(stored) && Continued(old(steps), steps) && conversation == old(conversation)
      ensures state.turn.value
              == old(state.turn.value).(phase := Executed(call, key, yes, outcome, question, report, spent))
      ensures HonestReport(report, spent)
      ensures steps[|steps| - 1] == Execute(outcome, landed, report, spent)
      ensures question.Some? <==> outcome.Suspension? && outcome.asks
    {
      hide Run, Legal, Raise, Plus, Continued;
      Interfere();
      spent := if OperationUsage(report).Some? then OperationUsage(report).value else unreported;
      question := None;
      if outcome.Suspension? && outcome.asks {
        var id := RaiseQuestion(Keys.CallKey(key));
        question := Some(id);
      }
      OneMore(old(steps), steps, Execute(outcome, landed, report, spent));
      Take(Execute(outcome, landed, report, spent));
    }

    /** Write the intent before the Operation runs; the Turn's prose and cost go on the first. */
    method WriteIntent(call: Call, text: string, usage: Option<Usage>, costEntry: Option<nat>)
      returns (key: nat, cost: nat)
      requires Working() && state.turn.value.phase.Calling?
      requires state.turn.value.calls != [] && state.turn.value.calls[0] == call
      requires state.turn.value.narration == text && state.turn.value.costEntry == costEntry
      requires state.turn.value.bill == if usage.Some? then usage.value else NoUsage
      requires costEntry.Some? ==> costEntry.value < |conversation.entries|
      modifies this
      ensures Working() && steps == old(steps) + [Intend] && stored == conversation && questions == old(questions)
      ensures key == NextSeq(old(conversation.entries))
      ensures conversation
              == Appended(old(conversation), IntentRow(call, if costEntry.None? then text else "", key,
                                                       if costEntry.None? && usage.Some? then usage.value else NoUsage))
      ensures state.turn.value.phase == Gating(call, key) && cost < |conversation.entries|
      ensures var t, before := state.turn.value, old(state.turn.value);
              && t.granted == before.granted && t.calls == before.calls[1..] && t.narration == text
              && t.bill == before.bill && t.costEntry == Some(cost)
    {
      hide Run, Legal, Plus, NextSeq, UnresolvedIntent;
      key := NextSeq(conversation.entries);
      cost := if costEntry.Some? then costEntry.value else |conversation.entries|;
      AppendEntry(IntentRow(call, if costEntry.None? then text else "", key, NoUsage));
      if costEntry.None? {
        RecordUsage(usage);
      }
      Write();
      Take(Intend);
    }

    /** Append a call's result, stamped with the arguments whose approval it spent, if it spent one. */
    method AppendResult(operation: string, key: nat, spentOn: Option<string>)
      modifies this`conversation
      ensures conversation == Appended(old(conversation), ResultRow(operation, Some(key), spentOn))
      ensures |conversation.entries| == |old(conversation.entries)| + 1
    {
      AppendEntry(ResultRow(operation, Some(key), None));
      if spentOn.Some? {
        StampSpentApproval(spentOn.value);
      }
    }

    /** Record what a call answered: suspend on a pending one, stamp a yes it spent, add its cost. */
    method RecordResult(call: Call, key: nat, yes: Option<nat>, outcome: Outcome, question: Option<nat>,
                        report: Report, cost: nat)
      returns (suspended: bool)
      requires Working() && state.turn.value.phase.Executed?
      requires var p := state.turn.value.phase;
               p.call == call && p.key == key && p.yes == yes && p.outcome == outcome && p.question == question
               && p.report == report
      requires state.turn.value.costEntry == Some(cost) && cost < |conversation.entries|
      modifies this
      ensures suspended == outcome.Suspension? && questions == old(questions)
      ensures suspended ==>
                && Valid() && state.turn.None? && steps == old(steps) + [Record, Commit]
                && stored == Suspended(Appended(old(conversation), ResultRow(call.operation, Some(key), None)),
                                       outcome.waitingFor, outcome.wakes, question)
      ensures !suspended ==>
                && Working() && cost < |conversation.entries| && stored == old(stored) && steps == old(steps) + [Record]
                && var late := Appended(old(conversation),
                     ResultRow(call.operation, Some(key),
                               if yes.Some? && outcome.Value? then Some(ArgsHash(call.args)) else None));
                   && cost < |late.entries|
                   && var row := late.entries[cost];
                      conversation
                      == if outcome.Value? && report.Report? && report.prompt >= 0 && report.completion >= 0
                         then var usage := Usage(row.usage.prompt + report.prompt,
                                                 row.usage.completion + report.completion);
                              late.(entries := late.entries[cost := row.(usage := usage)])
                         else late
      ensures !suspended ==>
                   var t, before := state.turn.value, old(state.turn.value);
                   && t.phase.Calling? && t.granted == before.granted && t.calls == before.calls
                   && t.narration == before.narration && t.bill == before.bill && t.costEntry == before.costEntry
    {
      hide Run, Legal, Append, ArgsHash;
      AppendResult(call.operation, key, if yes.Some? && outcome.Value? then Some(ArgsHash(call.args)) else None);
      if outcome.Suspension? {
        Take(Record);
        Suspend(outcome.waitingFor, outcome.wakes, question);
        return true;
      }
      if outcome.Value? && OperationUsage(report).Some? {
        conversation := conversation.(entries := AddUsage(conversation.entries, cost, OperationUsage(report).value));
      }
      Take(Record);
      return false;
    }

    /** Past the gate: the effect, and its result. */
    method RunAndRecord(call: Call, key: nat, yes: Option<nat>, cost: nat) returns (suspended: bool)
      requires Working() && state.turn.value.phase == Executing(call, key, yes)
      requires state.turn.value.costEntry == Some(cost) && cost < |conversation.entries|
      modifies this
      ensures suspended ==>
                && Valid() && state.turn.None? && Concluded(old(steps), steps)
                && stored.status == Waiting && !stored.leased && EndsIn(stored, ToolResult)
                && CountsAlike(old(conversation), stored)
      ensures !suspended ==>
                && Working() && cost < |conversation.entries| && Continued(old(steps), steps)
                && CountsAlike(old(conversation), conversation)
                && var t, before := state.turn.value, old(state.turn.value);
                   && t.phase.Calling? && t.granted == before.granted && t.calls == before.calls
                   && t.narration == before.narration && t.bill == before.bill && t.costEntry == Some(cost)
    {
      hide Run, Legal, Plus, Append, OperationUsage, Continued, Concluded, ArgsHash, AddUsage, EndsIn, Apply, Enabled;
      var outcome: Outcome, report: Report := *, *;
      ghost var landed: bool, unreported: Usage := *, *;
      var question, _ := ExecuteOperation(call, key, yes, outcome, landed, report, unreported);
      OneMore(old(steps), steps, Record);
      OneMore(old(steps), steps + [Record], Commit);
      assert steps + [Record] + [Commit] == steps + [Record, Commit];
      AppendedEndsIn(conversation, ResultRow(call.operation, Some(key), None));
      SuspendedEndsIn(Appended(conversation, ResultRow(call.operation, Some(key), None)),
                      if outcome.Suspension? then outcome.waitingFor else Nobody,
                      outcome.Suspension? && outcome.wakes, question);
      suspended := RecordResult(call, key, yes, outcome, question, report, cost);
    }

    /** One tool call: intent, gate, effect, result. */
    method MakeCall(call: Call, text: string, usage: Option<Usage>, costEntry: Option<nat>, granted: map<string, Grant>)
      returns (suspended: bool, cost: nat)
      requires Working() && state.turn.value.phase.Calling? && state.turn.value.granted == granted
      requires state.turn.value.calls != [] && state.turn.value.calls[0] == call
      requires state.turn.value.narration == text && state.turn.value.costEntry == costEntry
      requires state.turn.value.bill == if usage.Some? then usage.value else NoUsage
      requires costEntry.Some? ==> costEntry.value < |conversation.entries|
      modifies this
      ensures suspended ==>
                && Valid() && state.turn.None? && Concluded(old(steps), steps)
                && stored.status == Waiting && !stored.leased && EndsIn(stored, ToolResult)
                && CountsAlike(old(conversation), stored)
      ensures !suspended ==>
                && Working() && cost < |conversation.entries| && Continued(old(steps), steps)
                && CountsAlike(old(conversation), conversation)
                && var t, before := state.turn.value, old(state.turn.value);
                   && t.phase.Calling? && t.granted == before.granted && t.calls == before.calls[1..]
                   && t.narration == before.narration && t.bill == before.bill && t.costEntry == Some(cost)
    {
      hide Run, Legal, Plus, Append, OperationUsage, Continued, Concluded, ArgsHash, AddUsage, EndsIn, Apply, Enabled;
      SoFar(steps);
      OneMore(old(steps), steps, Intend);
      var key;
      key, cost := WriteIntent(call, text, usage, costEntry);
      ghost var before := steps;
      var readable: bool := *;
      var passage := GateOnApproval(call, key, granted, readable);
      InTwoParts(old(steps), before, steps);
      match passage {
        case GoAhead(yes) =>
          before := steps;
          suspended := RunAndRecord(call, key, yes, cost);
          InTwoParts(old(steps), before, steps) by { if suspended { ConcludedGoesOn(before, steps); } }
        case Deny =>
          AppendEntry(ResultRow(call.operation, Some(key), None));
          suspended := false;
        case Hold(q) =>
          AppendedEndsIn(conversation, ResultRow(call.operation, Some(key), None));
          AppendEntry(ResultRow(call.operation, Some(key), None));
          SuspendedEndsIn(conversation, User, false, Some(q));
          OneMore(old(steps), steps, Commit);
          Suspend(User, false, Some(q));
          suspended := true;
      }
    }

    /** Settle the intent a crash left behind. None when a Turn may follow. */
    method Recover(intent: Entry, granted: map<string, Grant>, verdict: Option<Outcome>) returns (note: Option<Note>)
      requires Working() && state.turn.value.phase == Reconciling(intent) && state.turn.value.granted == granted
      modifies this
      ensures RecoversTo(Settlement(granted, intent, verdict), note)
      ensures note.None? ==>
                && Working() && stored == conversation && state.turn.value.granted == granted
                   && Continued(old(steps), steps)
                && state.turn.value.phase == Prompting(1, BuildMessages(conversation.entries))
                && CountsAlike(old(conversation), conversation)
      ensures note.Some? ==>
                && Valid() && state.turn.None? && (note.value.Unreconcilable? || note.value.CallPending?)
                && Concluded(old(steps), steps) && Leaves(cfg, note.value, old(conversation), stored, questions)
    {
      hide Run, Legal, BuildMessages, FindByKey, UnresolvedIntent, Continued, Concluded, Append, Leaves, LeftStuck,
        EndsIn, Settlement, NextSeq, Raise, GuardTurn, AttemptStep, IntendStep, GateTurn, AskStep,
        ExecuteStep, RecordStep, EndCallsStep, BeginTurn, Watched;
      SoFar(steps);
      var settled := Reconcile(intent, granted, verdict);
      if !settled.Some? {
        AppendEntry(ResultRow(intent.toolName, intent.key, None));
        OneMore(old(steps), steps, Loop.Step.Reconcile(verdict));
        Take(Loop.Step.Reconcile(verdict));
        EscalateFrom(old(steps), old(conversation), Unreconcilable);
        return Some(Unreconcilable);
      }
      Interfere();
      OneMore(old(steps), steps, Loop.Step.Reconcile(verdict));
      if settled.value.Suspension? {
        var found := if settled.value.asks && intent.key.Some?
                     then FindByKey(questions, Keys.CallKey(intent.key.value), 0) else None;
        Take(Loop.Step.Reconcile(verdict));
        OneMore(old(steps), steps, Commit);
        AppendedEndsIn(old(conversation),
                       ResultRow(intent.toolName, intent.key, SettledStamp(granted, intent, settled)));
        SuspendedEndsIn(conversation, settled.value.waitingFor, settled.value.wakes, found);
        Suspend(settled.value.waitingFor, settled.value.wakes, found);
        TurnLeaves(cfg, CallPending, old(conversation), stored, questions);
        return Some(CallPending);
      }
      Write();
      Take(Loop.Step.Reconcile(verdict));
      return None;
    }

    /** The tool calls of one Turn, in order. */
    method MakeCalls(calls: seq<Call>, text: string, usage: Option<Usage>, granted: map<string, Grant>)
      returns (note: Note)
      requires Working() && state.turn.value.phase.Calling? && state.turn.value.granted == granted
      requires state.turn.value.calls == calls && state.turn.value.narration == text
      requires state.turn.value.bill == if usage.Some? then usage.value else NoUsage
      requires state.turn.value.costEntry.None?
      modifies this
      ensures Valid() && state.turn.None? && Concluded(old(steps), steps) && (note.CallPending? || note.TurnTaken?)
      ensures !stored.leased && stored.turnCount == old(conversation.turnCount)
              && stored.escalations == old(conversation.escalations)
      ensures if note.CallPending? then stored.status == Waiting && EndsIn(stored, ToolResult)
              else stored.status == Running
    {
      hide Run, Legal, Plus, BuildMessages, Continued, Concluded;
      SoFar(steps);
      var costEntry: Option<nat> := None;
      var i := 0;
      while i < |calls|
        invariant i <= |calls| && Working() && Continued(old(steps), steps)
        invariant CountsAlike(old(conversation), conversation)
        invariant state.turn.value.phase.Calling? && state.turn.value.granted == granted
        invariant state.turn.value.calls == calls[i..] && state.turn.value.narration == text
        invariant state.turn.value.bill == if usage.Some? then usage.value else NoUsage
        invariant state.turn.value.costEntry == costEntry
        invariant costEntry.Some? ==> costEntry.value < |conversation.entries|
      {
        ghost var before := steps;
        var suspended, cost := MakeCall(calls[i], text, usage, costEntry, granted);
        if suspended {
          ConcludedGoesOn(before, steps);
          InTwoParts(old(steps), before, steps);
          return CallPending;
        }
        InTwoParts(old(steps), before, steps);
        costEntry := Some(cost);
        i := i + 1;
      }
      OneMore(old(steps), steps, EndCalls);
      Take(EndCalls);
      OneMore(old(steps), steps, Commit);
      conversation := conversation.(leased := false);
      conversation := conversation.(status := Running);
      Write();
      Take(Commit);
      return TurnTaken;
    }

    /** The model's last word, carrying what the Turn cost. */
    method Reply(text: string, usage: Option<Usage>)
      modifies this`conversation
      ensures conversation == Appended(old(conversation),
                PlainRow(Kind.Reply, text).(usage := if usage.Some? then usage.value else NoUsage))
    {
      AppendEntry(PlainRow(Kind.Reply, text));
      RecordUsage(usage);
    }

    /** The model is done: its reply is the last row, and the Conversation is over. */
    method End(text: string, usage: Option<Usage>)
      requires Valid() && state.turn.Some? && state.turn.value.phase == Committing(true)
      requires state.turn.value.conversation
               == Appended(conversation,
                           PlainRow(Kind.Reply, text).(usage := if usage.Some? then usage.value else NoUsage))
                    .(status := Done, leased := false)
      modifies this
      ensures Valid() && state.turn.None? && steps == old(steps) + [Commit] && questions == old(questions)
      ensures stored == Appended(old(conversation),
                          PlainRow(Kind.Reply, text).(usage := if usage.Some? then usage.value else NoUsage))
                          .(status := Done, leased := false)
    {
      hide Run, Legal, Append;
      Reply(text, usage);
      conversation := conversation.(status := Done);
      conversation := conversation.(leased := false);
      Write();
      Take(Commit);
    }

    /** Do what the model answered. */
    method Conclude(answer: ModelReply, granted: map<string, Grant>) returns (note: Note)
      requires Working() && state.turn.value.phase.Prompting? && state.turn.value.granted == granted
      requires state.turn.value.phase.attempt <= cfg.maxAttempts
      requires answer.Response? && Honest(answer.usage, answer.spent)
      modifies this
      ensures Concludes(Some(answer), note)
      ensures Valid() && state.turn.None? && Concluded(old(steps), steps)
      ensures note.ModelUnreachable? || note.ModelError? || note.CallPending? || note.Finished? || note.TurnTaken?
      ensures Leaves(cfg, note, old(conversation), stored, questions)
    {
      hide Run, Legal, Plus, BuildMessages, UnresolvedIntent, Continued, Concluded, Append, Leaves, LeftStuck, EndsIn,
        Apply;
      AnswerLeads(cfg, state, answer);
      SoFar(steps);
      OneMore(old(steps), steps, Attempt(answer));
      Take(Attempt(answer));
      conversation := conversation.(turnCount := conversation.turnCount + 1);
      ghost var before, c := steps, conversation;
      if answer.finish.Abnormal? {
        EscalateFrom(old(steps), old(conversation), ModelError);
        return ModelError;
      }
      if !answer.finish.WantsTools? {
        OneMore(old(steps), steps, Commit);
        End(answer.text, answer.usage);
        ReplyLeaves(cfg, old(conversation), c, stored, questions,
                    PlainRow(Kind.Reply, answer.text).(usage := if answer.usage.Some? then answer.usage.value
                                                       else NoUsage));
        return Finished;
      }
      note := MakeCalls(answer.calls, answer.text, answer.usage, granted);
      ConcludedGoesOn(before, steps);
      InTwoParts(old(steps), before, steps);
      TurnLeaves(cfg, note, old(conversation), stored, questions);
    }

    /** Ask the model, and do what it answers. */
    method TakeTurn(granted: map<string, Grant>, replies: nat -> ModelReply) returns (note: Note)
      requires HonestReplies(replies)
      requires Working() && state.turn.value.phase == Prompting(1, BuildMessages(conversation.entries))
      requires state.turn.value.granted == granted
      modifies this
      ensures Concludes(FirstReply(replies, 1, cfg.maxAttempts), note)
      ensures Valid() && state.turn.None? && Concluded(old(steps), steps)
      ensures note.ModelUnreachable? || note.ModelError? || note.CallPending? || note.Finished? || note.TurnTaken?
      ensures Leaves(cfg, note, old(conversation), stored, questions)
    {
      hide Run, Legal, Plus, Append, BuildMessages, UnresolvedIntent, Continued, Concluded, Leaves, LeftStuck, Retried;
      var reply := CallModelWithRetries(replies);
      RetriedAlike(old(conversation), state.turn.value.phase.attempt - 1);
      ghost var c := conversation;
      if !reply.Some? {
        OneMore(old(steps), steps, GiveUp);
        Take(GiveUp);
        EscalateFrom(old(steps), old(conversation), ModelUnreachable);
        return ModelUnreachable;
      }
      var answer := reply.value;
      if !answer.Response? {
        OneMore(old(steps), steps, Attempt(answer));
        Take(Attempt(answer));
        EscalateFrom(old(steps), old(conversation), ModelUnreachable);
        return ModelUnreachable;
      }
      ghost var before := steps;
      note := Conclude(answer, granted);
      ConcludedGoesOn(before, steps);
      InTwoParts(old(steps), before, steps);
      LeavesAlike(cfg, note, old(conversation), c, stored, questions);
    }

    /** With an enabled Assistant: its turn limit, recovery of an interrupted call, then the Turn. */
    method ProceedWith(info: AssistantInfo, around: Around) returns (note: Note)
      requires HonestReplies(around.replies)
      requires Working() && state.turn.value.phase.Guards? && !IsFull(conversation) && info.enabled
      modifies this
      ensures Proceeds(cfg, old(conversation), info, around, note)
      ensures Valid() && state.turn.None? && Concluded(old(steps), steps)
      ensures !note.AlreadyFinished? && !note.LeasedElsewhere? && !note.EntriesFull?
      ensures Leaves(cfg, note, old(conversation), stored, questions)
    {
      hide Run, Legal, Append, BuildMessages, UnresolvedIntent, Plus, IsFull, Continued, Concluded, Leaves, LeftStuck;
      SoFar(steps);
      var limit := TurnLimit(conversation, info);
      if conversation.turnCount >= limit {
        OneMore(old(steps), steps, Guard(Some(info), map[]));
        Take(Guard(Some(info), map[]));
        conversation := conversation.(maxTurns := Some(limit + TURN_GRANT_ON_ESCALATION));
        EscalateFrom(old(steps), old(conversation), MaxTurns);
        return MaxTurns;
      }
      var granted := around.granted;
      OneMore(old(steps), steps, Guard(Some(info), granted));
      Take(Guard(Some(info), granted));
      ghost var before := steps;
      conversation := conversation.(status := Running);
      conversation := conversation.(waitingFor := Nobody);
      ghost var c := conversation;
      var unresolved := UnresolvedIntent(conversation.entries);
      match unresolved {
        case None =>
          SoFar(steps);
        case Some(intent) =>
          var recovered := Recover(intent, granted, around.verdict);
          if recovered.Some? {
            ConcludedGoesOn(before, steps);
            InTwoParts(old(steps), before, steps);
            LeavesAlike(cfg, recovered.value, old(conversation), c, stored, questions);
            return recovered.value;
          }
      }
      InTwoParts(old(steps), before, steps);
      before, c := steps, conversation;
      note := TakeTurn(granted, around.replies);
      ConcludedGoesOn(before, steps);
      InTwoParts(old(steps), before, steps);
      LeavesAlike(cfg, note, old(conversation), c, stored, questions);
    }

    /** Past the lease and the room check: the Assistant, then the Turn. */
    method Proceed(around: Around) returns (note: Note)
      requires HonestReplies(around.replies)
      requires Working() && state.turn.value.phase.Guards? && !IsFull(conversation)
      modifies this
      ensures match around.assistant
              case None => note.UnknownAssistant?
              case Some(info) =>
                if info.enabled then Proceeds(cfg, old(conversation), info, around, note) else note.AssistantDisabled?
      ensures Valid() && state.turn.None? && Concluded(old(steps), steps)
      ensures !note.AlreadyFinished? && !note.LeasedElsewhere? && !note.EntriesFull?
      ensures Leaves(cfg, note, old(conversation), stored, questions)
    {
      hide Run, Legal, Append, BuildMessages, UnresolvedIntent, Plus, IsFull, Continued, Concluded, LeftStuck, Stuck;
      SoFar(steps);
      var assistant := around.assistant;
      OneMore(old(steps), steps, Guard(assistant, map[]));
      match assistant {
        case None =>
          Take(Guard(assistant, map[]));
          EscalateFrom(old(steps), old(conversation), UnknownAssistant);
          note := UnknownAssistant;
        case Some(info) =>
          if info.enabled {
            note := ProceedWith(info, around);
          } else {
            Take(Guard(assistant, map[]));
            OneMore(old(steps), steps, Commit);
            conversation := conversation.(leased := false);
            Write();
            Take(Commit);
            note := AssistantDisabled;
          }
      }
    }

    /** Take one Conversation one Turn further. Whatever happens, what is stored afterwards is where
        a legal run that extends the one so far has got to. */
    method Advance(around: Around) returns (note: Note)
      requires Valid() && state.turn.None? && HonestReplies(around.replies)
      modifies this
      ensures Valid() && state.turn.None?
      ensures Leads(cfg, old(stored), around, note)
      ensures !note.AlreadyFinished? && !note.LeasedElsewhere? <==> Enabled(cfg, old(state), Begin)
      ensures Leaves(cfg, note, old(stored), stored, questions)
      ensures note.AlreadyFinished? <==> old(stored).status == Done || old(stored).status == Failed
      ensures note.LeasedElsewhere? ==> old(stored).leased
      ensures note.AlreadyFinished? || note.LeasedElsewhere? ==>
                steps == old(steps) && stored == old(stored) && questions == old(questions)
      ensures !note.AlreadyFinished? && !note.LeasedElsewhere? ==>
                Concluded(old(steps) + [Begin], steps)
      ensures note.EntriesFull? ==> IsFull(old(stored))
      ensures IsFull(old(stored)) ==> note.EntriesFull? || note.AlreadyFinished? || note.LeasedElsewhere?
    {
      hide Run, Legal, Append, BuildMessages, UnresolvedIntent;
      conversation := stored;
      if conversation.status == Done || conversation.status == Failed {
        return AlreadyFinished;
      }
      if conversation.leased {
        return LeasedElsewhere;
      }
      conversation := conversation.(leased := true);
      Take(Begin);
      if IsFull(conversation) {
        Take(Guard(None, map[]));
        EndBecauseFull();
        return EntriesFull;
      }
      SameProceeds(cfg, stored, conversation, around);
      note := Proceed(around);
    }
  }

  // ------------------------------------------------------------------ what the driver inherits

  /** The process may die between any two effects: cutting the driver's run short anywhere inside an
      advance and crashing there is a legal run, and the store is left as the last write left it. */
  lemma {:induction false} CrashAnywhere(cfg: Config, birth: State, steps: seq<Step>, n: nat)
    requires Legal(cfg, birth, steps) && n <= |steps|
    ensures Legal(cfg, birth, steps[..n])
    ensures var s := Run(cfg, birth, steps[..n]);
            s.turn.Some? ==>
              && Legal(cfg, birth, steps[..n] + [Crash])
              && Run(cfg, birth, steps[..n] + [Crash]).turn.None?
              && Run(cfg, birth, steps[..n] + [Crash]).store.conversation == s.store.conversation
    decreases |steps|
  {
    hide Plus, InFlight;
    if n == |steps| {
      assert steps[..n] == steps && (steps + [Crash])[..n] == steps;
    } else {
      assert steps[..|steps| - 1][..n] == steps[..n];
      CrashAnywhere(cfg, birth, steps[..|steps| - 1], n);
    }
  }

  /** So what is proved of every run holds of every driver: one invocation per key, each announced by
      an intent that is in the store. */
  lemma DriverInvokesOnce(driver: Driver, prompt: string, maxTurns: nat)
    requires driver.Valid() && driver.birth == Born(prompt, maxTurns)
    ensures var xs := driver.state.store.executions;
            && (forall i, j | 0 <= i < j < |xs| :: xs[i].key != xs[j].key)
            && (forall x | x in xs :: HasIntent(driver.stored.entries, x.key, Call(x.operation, x.args)))
  {
    InvokedAtMostOncePerKey(driver.cfg, prompt, maxTurns, driver.steps);
  }
}
