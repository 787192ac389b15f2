/** Runs that show what the gate cannot promise: one for each thing a setting may allow. Each call is
    made with the same arguments. And, with them, exactly when each promise holds. */
module Scenarios {
  import opened Wrappers
  import opened CanonicalJson
  import opened Conversations
  import opened Loop
  import opened IntentLog
  import opened ExactlyOnce
  import opened Approvals
  import opened ApprovalAccounts
  import opened Tallies
  import opened ApprovalCounts
  import opened Settings
  import opened Turns
  import Keys

  // ------------------------------------------------------------------ one yes, two effects

  const ARGS := Null
  const BOOKS := "bookkeeping.postTransaction"
  const OPENS := "bookkeeping.createAccount"

  /** Two Operations called alike. */
  const ONE := Call(BOOKS, ARGS)
  const TWO := Call(OPENS, ARGS)

  const NOTHING := Setting(false, false, false, false, false, false, false, false)

  /** Both need an approval, and the arguments are the first one's. */
  function Usual(): Plan {
    Plan({BOOKS, OPENS}, map[ArgsHash(ARGS) := BOOKS])
  }

  const BOTH := map[BOOKS := Grant(true, true, true), OPENS := Grant(true, true, true)]

  lemma UsualIsPermitted(on: Scene)
    requires on.plan == Usual() && on.cfg.maxAttempts >= 1
    ensures Permitted(on, BOTH) && Guarded(BOTH, ONE) && Guarded(BOTH, TWO) && MayAsk(on, ONE)
  {
  }

  lemma BornResting()
    ensures Resting(Born("", 20), 0)
    ensures forall op: string :: LastRequest(Born("", 20).store.conversation.entries, op, ArgsHash(ARGS)).None?
  {
    var es := Born("", 20).store.conversation.entries;
    assert UnresolvedFrom(es, 1) == None;
    assert es[..0] == [];
  }

  /** The first call has been asked about and said yes to. */
  lemma FirstYes(on: Scene) returns (steps: seq<Step>, t: State)
    requires on.plan == Usual() && on.cfg.maxAttempts >= 1
    ensures Path(on, Born("", 20), steps, t) && Plain(steps) && Resting(t, 1) && t.store.executions == []
    ensures FindApproval(t.store.conversation.entries, BOOKS, ArgsHash(ARGS), t.store.questions) == Valid(0)
    ensures var es := Born("", 20).store.conversation.entries;
            var V := IntentLogged(es, ONE);
            && t.store.conversation.entries == Append(AskedLog(V, ONE, NextSeq(es), 0), AnswerRow(0))
            && t.store.questions == [Question(NextKey(V, ONE), true, Some(true), false)]
  {
    hide Path, Append, NextSeq, RequestCount, Resting, ArgsHash, Permitted;
    BornResting();
    UsualIsPermitted(on);
    steps, t := AskedAndConfirmed(on, Born("", 20), ONE, BOTH, 0);
  }

  // ------------------------------------------------------------------ counting along

  function PairOf(call: Call): Pair {
    Pair(call.operation, ArgsHash(call.args))
  }

  lemma CountsAfter(es: seq<Entry>, row: Entry, p: Pair)
    ensures Requests(Append(es, row), p) == Requests(es, p) + if Asks(row, p) then 1 else 0
    ensures StampCount(Append(es, row), p) == StampCount(es, p) + if Stamps(row, p) then 1 else 0
  {
    assert Append(es, row)[..|es|] == es;
  }

  /** What a call that is asked about, or one that is run, adds to the counts of a pair. */
  lemma CountsOfTurns(es: seq<Entry>, call: Call, id: nat, yes: Option<nat>, p: Pair)
    ensures var V := IntentLogged(es, call);
            var asked := Append(AskedLog(V, call, NextSeq(es), id), AnswerRow(id));
            && Requests(V, p) == Requests(es, p) && StampCount(V, p) == StampCount(es, p)
            && Requests(asked, p) == Requests(es, p) + (if PairOf(call) == p then 1 else 0)
            && StampCount(asked, p) == StampCount(es, p)
            && Requests(RunLog(es, call, yes, Value), p) == Requests(es, p)
            && StampCount(RunLog(es, call, yes, Value), p)
               == StampCount(es, p) + (if PairOf(call) == p && yes.Some? then 1 else 0)
  {
    hide Append, NextSeq, StampCount, RequestCount;
    var V := IntentLogged(es, call);
    var request := RequestRow(call.operation, ArgsHash(call.args), id);
    var refusal := ResultRow(call.operation, Some(NextSeq(es)), None);
    CountsAfter(es, IntentRow(call, "", NextSeq(es), NoUsage), p);
    CountsAfter(V, request, p);
    CountsAfter(Append(V, request), refusal, p);
    CountsAfter(Append(Append(V, request), refusal), AnswerRow(id), p);
    CountsAfter(V, ResultRow(call.operation, Some(NextSeq(es)), if yes.Some? then Some(ArgsHash(call.args)) else None),
                p);
  }

  /** First answers stay first, whatever Turn follows. */
  lemma AnswersOfTurns(es: seq<Entry>, call: Call, id: nat, yes: Option<nat>, q: nat)
    requires FirstAnswer(es, q).Some?
    ensures var V := IntentLogged(es, call);
            && FirstAnswer(V, q) == FirstAnswer(es, q)
            && FirstAnswer(Append(AskedLog(V, call, NextSeq(es), id), AnswerRow(id)), q) == FirstAnswer(es, q)
            && FirstAnswer(RunLog(es, call, yes, Value), q) == FirstAnswer(es, q)
  {
    hide Append, NextSeq, FirstAnswer;
    var V := IntentLogged(es, call);
    var request := RequestRow(call.operation, ArgsHash(call.args), id);
    var refusal := ResultRow(call.operation, Some(NextSeq(es)), None);
    FirstAnswerAfter(es, IntentRow(call, "", NextSeq(es), NoUsage), q);
    FirstAnswerAfter(V, request, q);
    FirstAnswerAfter(Append(V, request), refusal, q);
    FirstAnswerAfter(Append(Append(V, request), refusal), AnswerRow(id), q);
    FirstAnswerAfter(V, ResultRow(call.operation, Some(NextSeq(es)),
                                  if yes.Some? then Some(ArgsHash(call.args)) else None), q);
  }

  lemma {:induction false} NeverAsked(es: seq<Entry>, p: Pair)
    requires Requests(es, p) == 0
    ensures LastRequest(es, p.operation, p.hash).None?
  {
    if es != [] { NeverAsked(es[..|es| - 1], p); }
  }

  lemma {:induction false} NeverStamped(es: seq<Entry>, p: Pair, after: nat)
    requires StampCount(es, p) == 0
    ensures !Spent(es, p.operation, p.hash, after)
  {
    if es != [] {
      var before := es[..|es| - 1];
      NeverStamped(before, p, after);
      assert forall i | 0 <= i < |before| :: before[i] == es[i];
    }
  }

  /** A stamp spends every yes answered before it. */
  lemma StampSpends(es: seq<Entry>, row: Entry, q: nat, operation: string, hash: string)
    requires FirstAnswer(es, q).Some? && IsStamp(row, operation, hash)
    ensures Spent(Append(es, row), operation, hash, FirstAnswer(es, q).value.seqNo)
  {
    var late := Append(es, row);
    var i :| 0 <= i < |es| && es[i] == FirstAnswer(es, q).value;
    assert IsStamp(late[|es|], operation, hash) && late[|es|].seqNo == NextSeq(es) > es[i].seqNo;
  }

  lemma ValidIsAnswered(es: seq<Entry>, operation: string, hash: string, questions: seq<Question>, q: nat)
    requires FindApproval(es, operation, hash, questions) == Valid(q)
    ensures FirstAnswer(es, q).Some?
  {
  }

  lemma UnaskedMustAsk(es: seq<Entry>, call: Call, questions: seq<Question>)
    requires Requests(es, PairOf(call)) == 0
    ensures MustAsk(es, call, questions)
  {
    NeverAsked(es, PairOf(call));
  }

  // ------------------------------------------------------------------ the runs

  /** An effect lands behind an error; its yes stays valid, and lets the retry through. */
  lemma HiddenEffectRepeats(cfg: Config) returns (steps: seq<Step>, t: State)
    requires cfg.maxAttempts >= 1
    ensures Path(Scene(cfg, NOTHING.(effectsHidden := true), Usual()), Born("", 20), steps, t)
    ensures !YesPaysOnce(t.store)
  {
    hide Path, Append, NextSeq, RequestCount, Resting, ArgsHash, Permitted, FindApproval;
    var on := Scene(cfg, NOTHING.(effectsHidden := true), Usual());
    UsualIsPermitted(on);
    var a, yes := FirstYes(on);
    var b, failed := RunUnderAYes(on, yes, ONE, BOTH, 0, Error, true, 1);
    var c;
    c, t := RunUnderAYes(on, failed, ONE, BOTH, 0, Value, true, 2);
    Follow(on, Born("", 20), a, yes, b, failed);
    Follow(on, Born("", 20), a + b, failed, c, t);
    steps := a + b + c;
    assert t.store.executions[0].landed && t.store.executions[1].landed;
  }

  /** An effect lands, the process dies, and recovery cannot tell; its yes lets the retry through. */
  lemma MissedEffectRepeats(cfg: Config) returns (steps: seq<Step>, t: State)
    requires cfg.maxAttempts >= 1
    ensures Path(Scene(cfg, NOTHING.(recoveryMisses := true), Usual()), Born("", 20), steps, t)
    ensures !YesPaysOnce(t.store)
  {
    hide Path, Append, NextSeq, RequestCount, Resting, ArgsHash, Permitted, FindApproval;
    var on := Scene(cfg, NOTHING.(recoveryMisses := true), Usual());
    UsualIsPermitted(on);
    var a, yes := FirstYes(on);
    var b, lost := RunAndLose(on, yes, ONE, BOTH, 0, 1);
    var c;
    c, t := RunUnderAYes(on, lost, ONE, BOTH, 0, Value, true, 3);
    Follow(on, Born("", 20), a, yes, b, lost);
    Follow(on, Born("", 20), a + b, lost, c, t);
    steps := a + b + c;
    assert t.store.executions[0].landed && t.store.executions[1].landed;
  }

  /** The first call has run under its yes; the second, made with the same arguments, never. */
  lemma FirstHasRun(on: Scene) returns (steps: seq<Step>, t: State)
    requires on.plan == Usual() && on.cfg.maxAttempts >= 1
    ensures Path(on, Born("", 20), steps, t) && Resting(t, 2)
    ensures var es, hash := t.store.conversation.entries, ArgsHash(ARGS);
            && t.store.questions == [Question(Keys.ApprovalKey(hash, 1), true, Some(true), false)]
            && FirstAnswer(es, 0).Some?
            && FindApproval(es, BOOKS, hash, t.store.questions) == Consumed(0)
            && Requests(es, PairOf(ONE)) == 1
            && Requests(es, PairOf(TWO)) == 0 && StampCount(es, PairOf(TWO)) == 0
    ensures var es, xs := t.store.conversation.entries, t.store.executions;
            && |xs| == 1 && xs[0].landed && xs[0].yes == Some(0) && es != []
            && StampedRow(es[|es| - 1]) && es[|es| - 1].key == Some(xs[0].key)
  {
    hide Path, Append, NextSeq, Resting, ArgsHash, Permitted, FindApproval, FirstAnswer, RequestCount, StampCount;
    UsualIsPermitted(on);
    var a, yes := FirstYes(on);
    var b;
    b, t := RunUnderAYes(on, yes, ONE, BOTH, 0, Value, true, 1);
    Follow(on, Born("", 20), a, yes, b, t);
    steps := a + b;
    var es, es1 := Born("", 20).store.conversation.entries, yes.store.conversation.entries;
    NothingCountedAtBirth(PairOf(ONE));
    NothingCountedAtBirth(PairOf(TWO));
    CountsOfTurns(es, ONE, 0, Some(0), PairOf(ONE));
    CountsOfTurns(es, ONE, 0, Some(0), PairOf(TWO));
    CountsOfTurns(es1, ONE, 0, Some(0), PairOf(ONE));
    CountsOfTurns(es1, ONE, 0, Some(0), PairOf(TWO));
    ValidIsAnswered(es1, BOOKS, ArgsHash(ARGS), yes.store.questions, 0);
    AnswersOfTurns(es1, ONE, 0, Some(0), 0);
    RunEndsStamped(es1, ONE, 0);
  }

  lemma RunEndsStamped(es: seq<Entry>, call: Call, q: nat)
    ensures var late := RunLog(es, call, Some(q), Value);
            late != [] && StampedRow(late[|late| - 1]) && late[|late| - 1].key == Some(NextSeq(es)) && es < late
  {
  }

  lemma AskedIsLonger(es: seq<Entry>, call: Call, id: nat)
    ensures es < Append(AskedLog(IntentLogged(es, call), call, NextSeq(es), id), AnswerRow(id))
  {
  }

  lemma NothingCountedAtBirth(p: Pair)
    ensures Requests(Born("", 20).store.conversation.entries, p) == 0
    ensures StampCount(Born("", 20).store.conversation.entries, p) == 0
  {
    var es := Born("", 20).store.conversation.entries;
    assert es[..|es| - 1] == [] && !Asks(es[0], p) && !Stamps(es[0], p);
    assert RequestCount([], p.operation, p.hash) == 0;
  }

  /** A second Operation called alike is asked about, and adopts the first one's question. */
  lemma SecondAdopts(on: Scene, s: State, id: nat, turns: nat) returns (steps: seq<Step>, t: State)
    requires on.plan == Usual() && on.cfg.maxAttempts >= 1 && on.setting.argumentsShared && turns < 20
    requires Resting(s, turns) && id < |s.store.questions|
    requires var es := s.store.conversation.entries;
             && MustAsk(es, TWO, s.store.questions) && FirstAnswer(es, id).Some?
             && FindByKey(s.store.questions, Keys.ApprovalKey(ArgsHash(ARGS), Requests(es, PairOf(TWO)) + 1), 0)
                == Some(id)
    requires s.store.questions[id].confirmed == Some(true)
    ensures Path(on, s, steps, t) && Resting(t, turns + 1)
    ensures t.store.questions == s.store.questions && t.store.executions == s.store.executions
    ensures var es := s.store.conversation.entries;
            && t.store.conversation.entries
               == Append(AskedLog(IntentLogged(es, TWO), TWO, NextSeq(es), id), AnswerRow(id))
            && FindApproval(t.store.conversation.entries, OPENS, ArgsHash(ARGS), t.store.questions)
               == if Spent(IntentLogged(es, TWO), OPENS, ArgsHash(ARGS), FirstAnswer(es, id).value.seqNo)
                  then Consumed(id) else Valid(id)
  {
    hide Path, Append, NextSeq, Resting, ArgsHash, Permitted, FindApproval, FirstAnswer, RequestCount, StampCount,
      Spent;
    UsualIsPermitted(on);
    var es := s.store.conversation.entries;
    CountsOfTurns(es, TWO, 0, None, PairOf(TWO));
    steps, t := AskedUnderAnOldYes(on, s, TWO, BOTH, id, turns);
    AnswersOfTurns(es, TWO, id, None, id);
    ApprovalOnceAnswered(IntentLogged(es, TWO), TWO, NextSeq(es), id, s.store.questions);
  }

  /** A second Operation called alike adopts the question, and runs under the same yes: two effects, and
      two stamps, for one yes. */
  lemma SharedArgumentsRepeat(cfg: Config) returns (steps: seq<Step>, t: State)
    requires cfg.maxAttempts >= 1
    ensures Path(Scene(cfg, NOTHING.(argumentsShared := true), Usual()), Born("", 20), steps, t)
    ensures !YesPaysOnce(t.store) && !StampsHaveTheirYes(t.store)
  {
    hide Path, Append, NextSeq, Resting, ArgsHash, Permitted, FindApproval, FirstAnswer, RequestCount, StampCount,
      Spent;
    var on := Scene(cfg, NOTHING.(argumentsShared := true), Usual());
    UsualIsPermitted(on);
    var a, one := FirstHasRun(on);
    var es := one.store.conversation.entries;
    UnaskedMustAsk(es, TWO, one.store.questions);
    var b, adopted := SecondAdopts(on, one, 0, 2);
    CountsOfTurns(es, TWO, 0, None, PairOf(TWO));
    NeverStamped(IntentLogged(es, TWO), PairOf(TWO), FirstAnswer(es, 0).value.seqNo);
    var c;
    c, t := RunUnderAYes(on, adopted, TWO, BOTH, 0, Value, true, 3);
    Follow(on, Born("", 20), a, one, b, adopted);
    Follow(on, Born("", 20), a + b, adopted, c, t);
    steps := a + b + c;
    var xs := t.store.executions;
    assert xs[0].landed && xs[1].landed && xs[0].yes == xs[1].yes;
    AskedIsLonger(es, TWO, 0);
    RunEndsStamped(adopted.store.conversation.entries, TWO, 0);
    StampedTwice(t.store, |es| - 1);
  }

  /** Two stamped rows whose calls ran under one yes. */
  lemma StampedTwice(store: Store, i: nat)
    requires var es, xs := store.conversation.entries, store.executions;
             && i < |es| - 1 && StampedRow(es[i]) && StampedRow(es[|es| - 1])
             && |xs| == 2 && xs[0].yes.Some? && xs[0].yes == xs[1].yes
             && es[i].key == Some(xs[0].key) && es[|es| - 1].key == Some(xs[1].key)
    ensures !StampsHaveTheirYes(store)
  {
    var es, xs := store.conversation.entries, store.executions;
    assert xs[1..][0] == xs[1];
    assert YesOf(xs, es[i].key.value) == YesOf(xs, es[|es| - 1].key.value);
  }

  // ------------------------------------------------------------------ stamps nobody asked for

  lemma RecoveredCounts(es: seq<Entry>, granted: map<string, Grant>, verdict: Option<Outcome>)
    requires Vouched(granted, Written(es, ONE), verdict)
    requires Requests(es, PairOf(ONE)) == 0 && StampCount(es, PairOf(ONE)) == 0
    ensures var late := RecoveredLog(es, ONE, granted, verdict);
            && Requests(late, PairOf(ONE)) == 0 && StampCount(late, PairOf(ONE)) == 1
            && late != [] && StampedRow(late[|late| - 1]) && late[|late| - 1].key == Some(NextSeq(es))
  {
    hide Append, NextSeq, StampCount, RequestCount, Vouched, Settlement, SettledStamp, ArgsHash;
    var intent := Written(es, ONE);
    RecoveryStamps(granted, intent, verdict);
    var row := ResultRow(BOOKS, Some(NextSeq(es)), Some(ArgsHash(ARGS)));
    CountsAfter(es, IntentRow(ONE, "", NextSeq(es), NoUsage), PairOf(ONE));
    CountsAfter(IntentLogged(es, ONE), row, PairOf(ONE));
    EndsWith(IntentLogged(es, ONE), row);
  }

  lemma EndsWith(es: seq<Entry>, row: Entry)
    ensures var late := Append(es, row); late != [] && late[|late| - 1] == row.(seqNo := NextSeq(es))
  {
  }

  /** A result stamped where nothing ran under a yes. */
  ghost predicate StampedForNothing(store: Store) {
    !StampsHaveTheirYes(store) && !CountsMatch(store.conversation.entries)
  }

  lemma UnearnedStamp(store: Store)
    requires var es := store.conversation.entries;
             && es != [] && Requests(es, PairOf(ONE)) == 0 && StampCount(es, PairOf(ONE)) == 1
                && StampedRow(es[|es| - 1])
    requires forall x | x in store.executions :: x.yes.None?
    ensures StampedForNothing(store)
  {
    hide RequestCount, StampCount, Requested;
    var es := store.conversation.entries;
    assert YesOf(store.executions, es[|es| - 1].key.value).None?;
  }

  /** From a call a crash left at the gate or after it ran without a yes, to recovery's stamp. */
  lemma RecoveredForNothing(on: Scene, a: seq<Step>, s: State, granted: map<string, Grant>, verdict: Option<Outcome>)
    returns (steps: seq<Step>, t: State)
    requires var es := Born("", 20).store.conversation.entries;
             && Path(on, Born("", 20), a, s) && Stranded(s, es, ONE, 1) && Permitted(on, granted)
             && Vouched(granted, Written(es, ONE), verdict)
             && (on.setting.recoveryInvents || (verdict == Some(Value) ==> Ran(s.store.executions, NextSeq(es))))
    requires forall x | x in s.store.executions :: x.yes.None?
    ensures Path(on, Born("", 20), steps, t) && StampedForNothing(t.store)
    ensures t.store.executions == s.store.executions
    ensures var es := t.store.conversation.entries; StampCount(es, PairOf(ONE)) == 1 && Requests(es, PairOf(ONE)) == 0
  {
    hide Path, Append, NextSeq, ArgsHash, Permitted, RequestCount, StampCount, Stranded, LandedKeys, Ran;
    var es := Born("", 20).store.conversation.entries;
    NothingCountedAtBirth(PairOf(ONE));
    var b;
    b, t := Recover(on, s, es, ONE, granted, verdict, 1);
    Follow(on, Born("", 20), a, s, b, t);
    steps := a + b;
    RecoveredCounts(es, granted, verdict);
    UnearnedStamp(t.store);
  }

  /** An Operation that only reads, ticked to need an approval: a crash before the gate is recovered as a
      value and stamped, though the call never ran and nobody was asked. */
  lemma ReadOnlyStampsForNothing(cfg: Config) returns (steps: seq<Step>, t: State)
    requires cfg.maxAttempts >= 1
    ensures Path(Scene(cfg, NOTHING.(readOnlyAsks := true), Usual()), Born("", 20), steps, t)
    ensures StampedForNothing(t.store) && t.store.executions == []
    ensures var es := t.store.conversation.entries; StampCount(es, PairOf(ONE)) == 1 && Requests(es, PairOf(ONE)) == 0
  {
    hide Path, Append, NextSeq, ArgsHash, RequestCount, StampCount, Resting;
    var on := Scene(cfg, NOTHING.(readOnlyAsks := true), Usual());
    var es := Born("", 20).store.conversation.entries;
    BornResting();
    var a, gate := ToTheGate(on, Born("", 20), ONE, map[], 0);
    var b, dead := DieMidCall(on, gate, es, ONE, map[], None, Value, 1);
    Follow(on, Born("", 20), a, gate, b, dead);
    steps, t := RecoveredForNothing(on, a + b, dead, map[BOOKS := Grant(true, false, false)], None);
  }

  /** Recovery is told a value of a call that never ran. */
  lemma InventedValueStampsForNothing(cfg: Config) returns (steps: seq<Step>, t: State)
    requires cfg.maxAttempts >= 1
    ensures Path(Scene(cfg, NOTHING.(recoveryInvents := true), Usual()), Born("", 20), steps, t)
    ensures StampedForNothing(t.store)
  {
    hide Path, Append, NextSeq, ArgsHash, RequestCount, StampCount, Resting, Permitted;
    var on := Scene(cfg, NOTHING.(recoveryInvents := true), Usual());
    var es := Born("", 20).store.conversation.entries;
    BornResting();
    UsualIsPermitted(on);
    var a, gate := ToTheGate(on, Born("", 20), ONE, BOTH, 0);
    var b, dead := DieMidCall(on, gate, es, ONE, BOTH, None, Value, 1);
    Follow(on, Born("", 20), a, gate, b, dead);
    steps, t := RecoveredForNothing(on, a + b, dead, BOTH, Some(Value));
  }

  const FREE := map[BOOKS := Grant(false, true, true)]

  /** A call that needs no approval lands, and the process dies. */
  lemma LandedFreely(on: Scene) returns (steps: seq<Step>, t: State)
    requires on.setting.approvalsChange && on.cfg.maxAttempts >= 1
    ensures var es := Born("", 20).store.conversation.entries;
            && Path(on, Born("", 20), steps, t) && Stranded(t, es, ONE, 1) && Ran(t.store.executions, NextSeq(es))
            && forall x | x in t.store.executions :: x.yes.None?
  {
    hide Path, Append, NextSeq, ArgsHash, RequestCount, Resting, FindApproval, AtGate, HasRun, Stranded, Turns.Runs;
    var es := Born("", 20).store.conversation.entries;
    BornResting();
    var a, gate := ToTheGate(on, Born("", 20), ONE, FREE, 0);
    var b, running := StartRunning(on, gate, es, ONE, FREE, None, 1);
    var c, ran := RunIt(on, running, es, ONE, FREE, None, Value, true, 1);
    var d;
    d, t := DieMidCall(on, ran, es, ONE, FREE, None, Value, 1);
    Follow(on, Born("", 20), a, gate, b, running);
    Follow(on, Born("", 20), a + b, running, c, ran);
    Follow(on, Born("", 20), a + b + c, ran, d, t);
    steps := a + b + c + d;
    assert t.store.executions[0].key == NextSeq(es);
  }

  /** A call that needed no approval lands; by the time it is recovered its Operation needs one. */
  lemma ChangedApprovalStampsForNothing(cfg: Config) returns (steps: seq<Step>, t: State)
    requires cfg.maxAttempts >= 1
    ensures Path(Scene(cfg, NOTHING.(approvalsChange := true), Usual()), Born("", 20), steps, t)
    ensures StampedForNothing(t.store)
  {
    hide Path, Append, NextSeq, ArgsHash, RequestCount, StampCount, Stranded, Ran;
    var on := Scene(cfg, NOTHING.(approvalsChange := true), Usual());
    var a, dead := LandedFreely(on);
    steps, t := RecoveredForNothing(on, a, dead, BOTH, Some(Value));
  }

  // ------------------------------------------------------------------ requests nobody spends

  /** The question is deleted while the Conversation waits on it. */
  lemma QuestionVanishes(on: Scene, s: State, es: seq<Entry>, id: nat, turns: nat) returns (steps: seq<Step>, t: State)
    requires WaitsOn(s, es, id, turns) && id < |s.store.questions| && s.store.questions[id].live
    requires on.setting.questionsDeleted
    ensures Path(on, s, steps, t) && Resting(t, turns)
    ensures t.store.conversation.entries == Append(es, PlainRow(ErrorNote, "gone"))
    ensures t.store.questions == s.store.questions[id := s.store.questions[id].(live := false)]
  {
    hide Good, Path, Append, OpenKey, NextSeq, UnresolvedIntent;
    Stay(on, s);
    GoodIsLogged(s);
    UnkeyedKeeps(es, PlainRow(ErrorNote, "gone"));
    KnownStays(es, PlainRow(ErrorNote, "gone"), s.store.questions);
    steps, t := Go(on, s, [], s, Delete(id));
    steps, t := Go(on, s, steps, t, WatchGone(true));
  }

  /** A deleted question is asked again: two requests, and no stamp. */
  lemma DeletedQuestionIsAskedAgain(cfg: Config) returns (steps: seq<Step>, t: State)
    requires cfg.maxAttempts >= 1
    ensures Path(Scene(cfg, NOTHING.(questionsDeleted := true), Usual()), Born("", 20), steps, t)
    ensures !CountsMatch(t.store.conversation.entries)
  {
    hide Path, Append, NextSeq, ArgsHash, RequestCount, StampCount, Resting, Permitted;
    var on := Scene(cfg, NOTHING.(questionsDeleted := true), Usual());
    var es := Born("", 20).store.conversation.entries;
    var p := PairOf(ONE);
    BornResting();
    UsualIsPermitted(on);
    NothingCountedAtBirth(p);
    UnaskedMustAsk(IntentLogged(es, ONE), ONE, []) by { CountsOfTurns(es, ONE, 0, None, p); }
    var a, gate := ToTheGate(on, Born("", 20), ONE, BOTH, 0);
    var b, waiting, id := AskForIt(on, gate, es, ONE, BOTH, 1, true);
    var asked := AskedLog(IntentLogged(es, ONE), ONE, NextSeq(es), id);
    var c, gone := QuestionVanishes(on, waiting, asked, id, 1);
    var es1 := Append(asked, PlainRow(ErrorNote, "gone"));
    DeletedCounts(es, id, p);
    DeletedIsMissing(IntentLogged(es, ONE), ONE, NextSeq(es), id, gone.store.questions);
    CountsOfTurns(es1, ONE, 1, None, p);
    var d;
    d, t := AskedAndConfirmed(on, gone, ONE, BOTH, 1);
    Follow(on, Born("", 20), a, gate, b, waiting);
    Follow(on, Born("", 20), a + b, waiting, c, gone);
    Follow(on, Born("", 20), a + b + c, gone, d, t);
    steps := a + b + c + d;
    assert Requests(t.store.conversation.entries, p) == 2 && StampCount(t.store.conversation.entries, p) == 0;
  }

  /** The first call has been asked about, and the User has said no. */
  lemma FirstNo(on: Scene) returns (steps: seq<Step>, t: State)
    requires on.plan == Usual() && on.cfg.maxAttempts >= 1
    ensures Path(on, Born("", 20), steps, t) && Resting(t, 1) && t.store.confirmed == {}
    ensures Requests(t.store.conversation.entries, PairOf(ONE)) == 1
    ensures StampCount(t.store.conversation.entries, PairOf(ONE)) == 0
    ensures forall step | step in steps :: !step.Delete?
  {
    hide Path, Append, NextSeq, ArgsHash, RequestCount, StampCount, Resting, Permitted, FindApproval, AtGate;
    var es := Born("", 20).store.conversation.entries;
    var p := PairOf(ONE);
    BornResting();
    UsualIsPermitted(on);
    NothingCountedAtBirth(p);
    UnaskedMustAsk(IntentLogged(es, ONE), ONE, []) by { CountsOfTurns(es, ONE, 0, None, p); }
    var a, gate := ToTheGate(on, Born("", 20), ONE, BOTH, 0);
    var b, waiting, id := AskForIt(on, gate, es, ONE, BOTH, 1, true);
    var c;
    c, t := SayNo(on, waiting, AskedLog(IntentLogged(es, ONE), ONE, NextSeq(es), id), id, 1);
    CountsOfTurns(es, ONE, id, None, p);
    Follow(on, Born("", 20), a, gate, b, waiting);
    Follow(on, Born("", 20), a + b, waiting, c, t);
    steps := a + b + c;
  }

  /** The User says no, the call is made again, and the gate cannot read the question: it asks again.
      Nobody has said yes, nothing was deleted, and there are two requests and no stamp. */
  lemma UnreadQuestionIsAskedAgain(cfg: Config) returns (steps: seq<Step>, t: State)
    requires cfg.maxAttempts >= 1
    ensures Path(Scene(cfg, NOTHING.(questionsUnread := true), Usual()), Born("", 20), steps, t)
    ensures !CountsMatch(t.store.conversation.entries) && t.store.confirmed == {}
    ensures forall step | step in steps :: !step.Delete?
  {
    hide Path, Append, NextSeq, ArgsHash, RequestCount, StampCount, Resting, Permitted, FindApproval, AtGate;
    var on := Scene(cfg, NOTHING.(questionsUnread := true), Usual());
    var p := PairOf(ONE);
    UsualIsPermitted(on);
    var a, declined := FirstNo(on);
    var es := declined.store.conversation.entries;
    var b, gate := ToTheGate(on, declined, ONE, BOTH, 1);
    var c, id;
    c, t, id := AskForIt(on, gate, es, ONE, BOTH, 2, false);
    CountsOfTurns(es, ONE, id, None, p);
    CountsAfter(t.store.conversation.entries, AnswerRow(id), p);
    Follow(on, Born("", 20), a, declined, b, gate);
    Follow(on, Born("", 20), a + b, gate, c, t);
    steps := a + b + c;
    assert Requests(t.store.conversation.entries, p) == 2 && StampCount(t.store.conversation.entries, p) == 0;
  }

  lemma DeletedCounts(es: seq<Entry>, id: nat, p: Pair)
    requires p == PairOf(ONE)
    ensures var late := Append(AskedLog(IntentLogged(es, ONE), ONE, NextSeq(es), id), PlainRow(ErrorNote, "gone"));
            Requests(late, p) == Requests(es, p) + 1 && StampCount(late, p) == StampCount(es, p)
  {
    hide Append, NextSeq, StampCount, RequestCount;
    var asked := AskedLog(IntentLogged(es, ONE), ONE, NextSeq(es), id);
    CountsOfTurns(es, ONE, id, None, p);
    CountsAfter(asked, PlainRow(ErrorNote, "gone"), p);
    CountsAfter(asked, AnswerRow(id), p);
  }

  lemma DeletedIsMissing(es: seq<Entry>, call: Call, key: nat, id: nat, questions: seq<Question>)
    requires id < |questions| && !questions[id].live
    ensures MustAsk(Append(AskedLog(es, call, key, id), PlainRow(ErrorNote, "gone")), call, questions)
  {
    hide Append, LastRequest, FirstAnswer, Spent, NextSeq;
    var hash := ArgsHash(call.args);
    var request := RequestRow(call.operation, hash, id);
    var asked := Append(es, request);
    var result := ResultRow(call.operation, Some(key), None);
    LastRequestAfter(es, request, call.operation, hash);
    LastRequestAfter(asked, result, call.operation, hash);
    LastRequestAfter(Append(asked, result), PlainRow(ErrorNote, "gone"), call.operation, hash);
  }

  /** The second Operation uses up the first one's questions: its own attempt adopts a question answered
      before its stamp, finds it spent, and asks once more. Three requests, one stamp. */
  lemma SharedArgumentsMiscount(cfg: Config) returns (steps: seq<Step>, t: State)
    requires cfg.maxAttempts >= 1
    ensures Path(Scene(cfg, NOTHING.(argumentsShared := true), Usual()), Born("", 20), steps, t)
    ensures !CountsMatch(t.store.conversation.entries)
  {
    hide Path, Append, NextSeq, Resting, ArgsHash, Permitted, FindApproval, FirstAnswer, RequestCount, StampCount,
      Spent;
    var on := Scene(cfg, NOTHING.(argumentsShared := true), Usual());
    var p, hash := PairOf(TWO), ArgsHash(ARGS);
    UsualIsPermitted(on);
    var a, s1 := FirstHasRun(on);
    var es1 := s1.store.conversation.entries;
    CountsOfTurns(es1, ONE, 1, None, PairOf(ONE));
    CountsOfTurns(es1, ONE, 1, None, p);
    AnswersOfTurns(es1, ONE, 1, None, 0);
    var b, s2 := AskedAndConfirmed(on, s1, ONE, BOTH, 2);
    Follow(on, Born("", 20), a, s1, b, s2);
    var es2 := s2.store.conversation.entries;
    ValidIsAnswered(es2, BOOKS, hash, s2.store.questions, 1);
    var c, s3 := TwoRuns(on, s2);
    Follow(on, Born("", 20), a + b, s2, c, s3);
    var d;
    d, t := TwoAsksOn(on, s3);
    Follow(on, Born("", 20), a + b + c, s3, d, t);
    steps := a + b + c + d;
    assert Requests(t.store.conversation.entries, p) == 3 && StampCount(t.store.conversation.entries, p) == 1;
  }

  /** Both questions of the first Operation stand, said yes to and answered. */
  ghost predicate BothAnswered(s: State) {
    var es, hash := s.store.conversation.entries, ArgsHash(ARGS);
    && s.store.questions == [Question(Keys.ApprovalKey(hash, 1), true, Some(true), false),
                             Question(Keys.ApprovalKey(hash, 2), true, Some(true), false)]
    && FirstAnswer(es, 0).Some? && FirstAnswer(es, 1).Some?
  }

  lemma TwoRuns(on: Scene, s: State) returns (steps: seq<Step>, t: State)
    requires on.plan == Usual() && on.cfg.maxAttempts >= 1 && on.setting.argumentsShared && Resting(s, 3)
             && BothAnswered(s)
    requires var es := s.store.conversation.entries; Requests(es, PairOf(TWO)) == 0 && StampCount(es, PairOf(TWO)) == 0
    ensures Path(on, s, steps, t) && Resting(t, 5) && BothAnswered(t)
    ensures var es, hash := t.store.conversation.entries, ArgsHash(ARGS);
            && FindApproval(es, OPENS, hash, t.store.questions) == Consumed(0)
            && Requests(es, PairOf(TWO)) == 1 && StampCount(es, PairOf(TWO)) == 1
            && Spent(es, OPENS, hash, FirstAnswer(es, 1).value.seqNo)
  {
    hide Path, Append, NextSeq, Resting, ArgsHash, Permitted, FindApproval, FirstAnswer, RequestCount, StampCount,
      Spent;
    var p, hash := PairOf(TWO), ArgsHash(ARGS);
    var es := s.store.conversation.entries;
    UsualIsPermitted(on);
    UnaskedMustAsk(es, TWO, s.store.questions);
    var a, adopted := SecondAdopts(on, s, 0, 3);
    var late := adopted.store.conversation.entries;
    CountsOfTurns(es, TWO, 0, None, p);
    AnswersOfTurns(es, TWO, 0, None, 0);
    AnswersOfTurns(es, TWO, 0, None, 1);
    NeverStamped(IntentLogged(es, TWO), p, FirstAnswer(es, 0).value.seqNo);
    var b;
    b, t := RunUnderAYes(on, adopted, TWO, BOTH, 0, Value, true, 4);
    Follow(on, s, a, adopted, b, t);
    steps := a + b;
    CountsOfTurns(late, TWO, 0, Some(0), p);
    AnswersOfTurns(late, TWO, 0, Some(0), 0);
    AnswersOfTurns(late, TWO, 0, Some(0), 1);
    StampSpends(IntentLogged(late, TWO), ResultRow(OPENS, Some(NextSeq(late)), Some(hash)), 1, OPENS, hash);
  }

  lemma TwoAsksOn(on: Scene, s: State) returns (steps: seq<Step>, t: State)
    requires on.plan == Usual() && on.cfg.maxAttempts >= 1 && on.setting.argumentsShared && Resting(s, 5)
             && BothAnswered(s)
    requires var es, hash := s.store.conversation.entries, ArgsHash(ARGS);
             && FindApproval(es, OPENS, hash, s.store.questions) == Consumed(0)
             && Requests(es, PairOf(TWO)) == 1 && StampCount(es, PairOf(TWO)) == 1
             && Spent(es, OPENS, hash, FirstAnswer(es, 1).value.seqNo)
    ensures Path(on, s, steps, t)
    ensures var es := t.store.conversation.entries; Requests(es, PairOf(TWO)) == 3 && StampCount(es, PairOf(TWO)) == 1
  {
    hide Path, Append, NextSeq, Resting, ArgsHash, Permitted, FindApproval, FirstAnswer, RequestCount, StampCount,
      Spent;
    var p, hash := PairOf(TWO), ArgsHash(ARGS);
    var es := s.store.conversation.entries;
    UsualIsPermitted(on);
    var a, adopted := SecondAdopts(on, s, 1, 5);
    var late := adopted.store.conversation.entries;
    SpentAfter(es, IntentRow(TWO, "", NextSeq(es), NoUsage), OPENS, hash, FirstAnswer(es, 1).value.seqNo);
    CountsOfTurns(es, TWO, 1, None, p);
    CountsOfTurns(late, TWO, 2, None, p);
    var b;
    b, t := AskedAndConfirmed(on, adopted, TWO, BOTH, 6);
    Follow(on, s, a, adopted, b, t);
    steps := a + b;
  }

  // ------------------------------------------------------------------ exactly when the promises hold

  /** Every run of the setting keeps this promise. */
  ghost predicate Promises(cfg: Config, setting: Setting, promise: Store -> bool) {
    forall plan: Plan, prompt: string, maxTurns: nat, steps: seq<Step> |
      Legal(cfg, Born(prompt, maxTurns), steps) && AllowedRun(setting, plan, cfg, Born(prompt, maxTurns), steps) ::
      promise(Run(cfg, Born(prompt, maxTurns), steps).store)
  }

  /** A setting that allows more allows every run of one that allows less. */
  predicate Within(less: Setting, more: Setting) {
    && (less.effectsHidden ==> more.effectsHidden)
    && (less.recoveryMisses ==> more.recoveryMisses)
    && (less.recoveryInvents ==> more.recoveryInvents)
    && (less.readOnlyAsks ==> more.readOnlyAsks)
    && (less.approvalsChange ==> more.approvalsChange)
    && (less.argumentsShared ==> more.argumentsShared)
    && (less.questionsDeleted ==> more.questionsDeleted)
    && (less.questionsUnread ==> more.questionsUnread)
  }

  lemma {:induction false} MoreIsAllowed(less: Setting, more: Setting, plan: Plan, cfg: Config, s: State,
                                         steps: seq<Step>)
    requires Legal(cfg, s, steps) && AllowedRun(less, plan, cfg, s, steps) && Within(less, more)
    ensures AllowedRun(more, plan, cfg, s, steps)
  {
    hide Apply, Enabled, Truthful, TellsOfCallsRun, Agrees, OnlyMutatingAsk;
    if steps != [] {
      MoreIsAllowed(less, more, plan, cfg, s, steps[..|steps| - 1]);
    }
  }

  /** A run that breaks a promise breaks it in every setting that allows the run. */
  lemma Breaks(cfg: Config, less: Setting, setting: Setting, steps: seq<Step>, t: State, promise: Store -> bool)
    requires Path(Scene(cfg, less, Usual()), Born("", 20), steps, t) && !promise(t.store) && Within(less, setting)
    ensures !Promises(cfg, setting, promise)
  {
    hide Run, Legal, AllowedRun;
    MoreIsAllowed(less, setting, Usual(), cfg, Born("", 20), steps);
    assert !promise(Run(cfg, Born("", 20), steps).store);
  }

  ghost function PayOnce(): Store -> bool {
    (store: Store) => YesPaysOnce(store)
  }

  ghost function HaveTheirYes(): Store -> bool {
    (store: Store) => StampsHaveTheirYes(store)
  }

  ghost function CountsAddUp(): Store -> bool {
    (store: Store) => CountsMatch(store.conversation.entries)
  }

  /** No yes lets through two effects, in all the runs of a setting, exactly when effects never hide
      behind an answer that is no value, recovery never misses one, and no two Operations are put to the
      User with the same arguments. */
  lemma OneEffectPerYesExactlyWhen(cfg: Config, setting: Setting)
    requires cfg.maxAttempts >= 1
    ensures Promises(cfg, setting, PayOnce()) <==> EffectsSafe(setting)
  {
    hide Run, Legal, AllowedRun, YesPaysOnce, Path, Born;
    if EffectsSafe(setting) {
      forall plan: Plan, prompt: string, maxTurns: nat, steps: seq<Step> |
        Legal(cfg, Born(prompt, maxTurns), steps) && AllowedRun(setting, plan, cfg, Born(prompt, maxTurns), steps)
        ensures YesPaysOnce(Run(cfg, Born(prompt, maxTurns), steps).store)
      {
        SafeEffects(setting, plan, cfg, prompt, maxTurns, steps);
      }
    } else if setting.effectsHidden {
      var steps, t := HiddenEffectRepeats(cfg);
      Breaks(cfg, NOTHING.(effectsHidden := true), setting, steps, t, PayOnce());
    } else if setting.recoveryMisses {
      var steps, t := MissedEffectRepeats(cfg);
      Breaks(cfg, NOTHING.(recoveryMisses := true), setting, steps, t, PayOnce());
    } else {
      var steps, t := SharedArgumentsRepeat(cfg);
      Breaks(cfg, NOTHING.(argumentsShared := true), setting, steps, t, PayOnce());
    }
  }

  /** Stamped results map one to one to confirmed questions, in all the runs of a setting, exactly when
      Operations that only read ask for no approval, approvals do not change, recovery invents nothing,
      and no two Operations are put to the User with the same arguments. */
  lemma OneYesPerStampExactlyWhen(cfg: Config, setting: Setting)
    requires cfg.maxAttempts >= 1
    ensures Promises(cfg, setting, HaveTheirYes()) <==> StampsSafe(setting)
  {
    hide Run, Legal, AllowedRun, StampsHaveTheirYes, YesPaysOnce, CountsMatch, Path, Born, StampCount, RequestCount;
    if StampsSafe(setting) {
      forall plan: Plan, prompt: string, maxTurns: nat, steps: seq<Step> |
        Legal(cfg, Born(prompt, maxTurns), steps) && AllowedRun(setting, plan, cfg, Born(prompt, maxTurns), steps)
        ensures StampsHaveTheirYes(Run(cfg, Born(prompt, maxTurns), steps).store)
      {
        SafeStamps(setting, plan, cfg, prompt, maxTurns, steps);
      }
    } else if setting.argumentsShared {
      var steps, t := SharedArgumentsRepeat(cfg);
      Breaks(cfg, NOTHING.(argumentsShared := true), setting, steps, t, HaveTheirYes());
    } else {
      StampsForNothing(cfg, setting);
    }
  }

  /** What stamps for nothing breaks the one-to-one map and the counts alike. */
  lemma StampsForNothing(cfg: Config, setting: Setting)
    requires cfg.maxAttempts >= 1 && (setting.readOnlyAsks || setting.recoveryInvents || setting.approvalsChange)
    ensures !Promises(cfg, setting, HaveTheirYes()) && !Promises(cfg, setting, CountsAddUp())
  {
    hide Run, Legal, AllowedRun, StampsHaveTheirYes, CountsMatch, Path, Born, StampCount, RequestCount;
    var less, steps, t;
    if setting.readOnlyAsks {
      less := NOTHING.(readOnlyAsks := true);
      steps, t := ReadOnlyStampsForNothing(cfg);
    } else if setting.recoveryInvents {
      less := NOTHING.(recoveryInvents := true);
      steps, t := InventedValueStampsForNothing(cfg);
    } else {
      less := NOTHING.(approvalsChange := true);
      steps, t := ChangedApprovalStampsForNothing(cfg);
    }
    Breaks(cfg, less, setting, steps, t, HaveTheirYes());
    Breaks(cfg, less, setting, steps, t, CountsAddUp());
  }

  /** Stamped results <= requests <= stamped results + 1 for each Operation and arguments, in all the
      runs of a setting, exactly when besides that no approval question is deleted and the gate can read them. */
  lemma CountsMatchExactlyWhen(cfg: Config, setting: Setting)
    requires cfg.maxAttempts >= 1
    ensures Promises(cfg, setting, CountsAddUp()) <==> CountsSafe(setting)
  {
    hide Run, Legal, AllowedRun, CountsMatch, Path, Born, StampCount, RequestCount;
    if CountsSafe(setting) {
      forall plan: Plan, prompt: string, maxTurns: nat, steps: seq<Step> |
        Legal(cfg, Born(prompt, maxTurns), steps) && AllowedRun(setting, plan, cfg, Born(prompt, maxTurns), steps)
        ensures CountsMatch(Run(cfg, Born(prompt, maxTurns), steps).store.conversation.entries)
      {
        SafeCounts(setting, plan, cfg, prompt, maxTurns, steps);
      }
    } else if setting.argumentsShared {
      var steps, t := SharedArgumentsMiscount(cfg);
      Breaks(cfg, NOTHING.(argumentsShared := true), setting, steps, t, CountsAddUp());
    } else if setting.questionsDeleted {
      var steps, t := DeletedQuestionIsAskedAgain(cfg);
      Breaks(cfg, NOTHING.(questionsDeleted := true), setting, steps, t, CountsAddUp());
    } else if setting.questionsUnread {
      var steps, t := UnreadQuestionIsAskedAgain(cfg);
      Breaks(cfg, NOTHING.(questionsUnread := true), setting, steps, t, CountsAddUp());
    } else {
      StampsForNothing(cfg, setting);
    }
  }
}
