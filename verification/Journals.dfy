/** Exactly when a yes pays for one live journal, and the runs in which it pays for two. */
module Journals {
  import opened Wrappers
  import opened CanonicalJson
  import opened Conversations
  import opened Loop
  import opened IntentLog
  import opened ExactlyOnce
  import opened Approvals
  import opened ApprovalAccounts
  import opened Settings
  import opened Turns
  import opened Scenarios
  import opened Payment
  import Ledger
  import Firefly

  /** What may go wrong between the loop and the ledger. */
  datatype Faults = Faults(
    answersLost: bool,     // the ledger may book for this Conversation and its answer be lost
    postsOutlive: bool,    // a post may land after the process that sent it has died
    recoveryMisses: bool)  // recovery of a journal that stands may find the Operation changed, or no answer

  predicate Faultless(faults: Faults) {
    !faults.answersLost && !faults.postsOutlive && !faults.recoveryMisses
  }

  predicate FewerFaults(less: Faults, more: Faults) {
    && (less.answersLost ==> more.answersLost)
    && (less.postsOutlive ==> more.postsOutlive)
    && (less.recoveryMisses ==> more.recoveryMisses)
  }

  ghost predicate Relied(faults: Faults, desk: Desk, j: Joint, move: Move) {
    || Trusted(desk, j, move)
    || (faults.answersLost && move.Connector?)
    || (faults.postsOutlive && move.Late?)
    || (faults.recoveryMisses && move.Ordinary?)
  }

  ghost predicate ReliedRun(faults: Faults, cfg: Config, desk: Desk, j: Joint, moves: seq<Move>)
    requires JointLegal(cfg, desk, j, moves)
  {
    moves == [] ||
    (var before := moves[..|moves| - 1];
     && ReliedRun(faults, cfg, desk, j, before)
     && Relied(faults, desk, JointRun(cfg, desk, j, before), moves[|moves| - 1]))
  }

  lemma {:induction false} FaultlessIsTrusted(faults: Faults, cfg: Config, desk: Desk, j: Joint, moves: seq<Move>)
    requires JointLegal(cfg, desk, j, moves) && ReliedRun(faults, cfg, desk, j, moves)
    requires Faultless(faults)
    ensures TrustedRun(cfg, desk, j, moves)
  {
    hide Payment.Apply, Payment.Enabled, Trusted;
    if moves != [] {
      FaultlessIsTrusted(faults, cfg, desk, j, moves[..|moves| - 1]);
    }
  }

  // ------------------------------------------------------------------ runs of the joint machine

  const ORDER := Ledger.Order("", Ledger.Finite(0.0), "", "", "", None, None)
  const NAMES := Ledger.Names(map["" := Ledger.Account("", None)], map[])
  const ROWS := [Ledger.RowOf(ORDER, NAMES)]

  /** A Conversation whose bookings all order the same. */
  const THING := Desk("t", (args: Json) => [ORDER])

  ghost predicate Course(faults: Faults, cfg: Config, j: Joint, moves: seq<Move>, k: Joint) {
    JointLegal(cfg, THING, j, moves) && ReliedRun(faults, cfg, THING, j, moves) && JointRun(cfg, THING, j, moves) == k
  }

  lemma NoMoves(faults: Faults, cfg: Config, j: Joint)
    ensures Course(faults, cfg, j, [], j)
  {
  }

  lemma Move1(faults: Faults, cfg: Config, j: Joint, moves: seq<Move>, k: Joint, move: Move)
    returns (more: seq<Move>, l: Joint)
    requires Course(faults, cfg, j, moves, k) && Payment.Enabled(cfg, THING, k, move) && Relied(faults, THING, k, move)
    ensures Course(faults, cfg, j, more, l) && l == Payment.Apply(cfg, THING, k, move)
  {
    hide Payment.Apply, Payment.Enabled, Relied;
    l, more := Payment.Apply(cfg, THING, k, move), moves + [move];
    assert more[..|moves|] == moves;
  }

  /** A stretch of the loop in which nothing is run or lost, as a stretch of the joint machine. */
  lemma {:induction false} Stretch(faults: Faults, on: Scene, j: Joint, moves: seq<Move>, k: Joint,
                                   steps: seq<Step>, t: State)
    returns (more: seq<Move>)
    requires Course(faults, on.cfg, j, moves, k) && k.call.None? && Path(on, k.loop, steps, t)
    requires forall i | 0 <= i < |steps| ::
               !steps[i].Crash? && !steps[i].Execute?
               && (steps[i].Reconcile? ==> faults.recoveryMisses || k.ledger.groups == [])
    ensures Course(faults, on.cfg, j, more, k.(loop := t))
  {
    hide Loop.Apply, Loop.Enabled, Allowed, Course;
    if steps == [] {
      more := moves;
    } else {
      var before, last := steps[..|steps| - 1], steps[|steps| - 1];
      var s := Run(on.cfg, k.loop, before);
      more := Stretch(faults, on, j, moves, k, before, s);
      var l;
      more, l := Move1(faults, on.cfg, j, more, k.(loop := s), Ordinary(last));
    }
  }

  function Journal(key: nat): Ledger.Group {
    Ledger.Group(Ledger.Posting(CallText(THING, key), None, ROWS, ""), true)
  }

  /** The call in hand goes to the connector, as far as the post. */
  lemma PostIsReady(faults: Faults, cfg: Config, j: Joint, moves: seq<Move>, k: Joint, key: nat)
    returns (more: seq<Move>, l: Joint)
    requires Course(faults, cfg, j, moves, k) && BooksNow(k.loop) && k.call.None? && k.loop.turn.value.phase.key == key
    requires !Holds(k.ledger.groups, CallText(THING, key)) && CallText(THING, key) !in k.ledger.inFlight
    ensures Course(faults, cfg, j, more, l) && l.loop == k.loop && l.call == Some(|k.ledger.calls|)
    ensures l.ledger.groups == k.ledger.groups && l.adrift == k.adrift
    ensures l.ledger.inFlight == k.ledger.inFlight[CallText(THING, key) := |k.ledger.calls|]
    ensures |l.ledger.calls| == |k.ledger.calls| + 1
    ensures l.ledger.calls[|k.ledger.calls|]
            == Firefly.Call(CallText(THING, key), None, "", Firefly.Running(Firefly.Sending(ROWS)), false)
  {
    hide Course, CallText, Loop.Enabled, Loop.Apply;
    var n := |k.ledger.calls|;
    KeyIsFree(k.ledger.groups, CallText(THING, key), ROWS);
    RowsAreOrdered(k.loop.turn.value.phase.call.args);
    more, l := Move1(faults, cfg, j, moves, k, Post(None, ""));
    more, l := Move1(faults, cfg, j, more, l, Connector(Firefly.Probe(n)));
    more, l := Move1(faults, cfg, j, more, l, Connector(Firefly.Resolve(n, ROWS)));
    more, l := Move1(faults, cfg, j, more, l, Connector(Firefly.Match(n)));
  }

  /** The call in hand goes to the connector, whose post is booked. */
  lemma PostIsBooked(faults: Faults, cfg: Config, j: Joint, moves: seq<Move>, k: Joint, key: nat, answer: Ledger.Answer)
    returns (more: seq<Move>, l: Joint)
    requires Course(faults, cfg, j, moves, k) && BooksNow(k.loop) && k.call.None? && k.loop.turn.value.phase.key == key
    requires !Holds(k.ledger.groups, CallText(THING, key)) && CallText(THING, key) !in k.ledger.inFlight
    requires answer.Accepts? || (answer.LosesTheAnswer? && faults.answersLost)
    ensures Course(faults, cfg, j, more, l) && l.loop == k.loop && l.call == Some(|k.ledger.calls|)
    ensures l.ledger.groups == k.ledger.groups + [Journal(key)] && l.adrift == k.adrift
    ensures l.ledger.inFlight == k.ledger.inFlight[CallText(THING, key) := |k.ledger.calls|]
    ensures |l.ledger.calls| == |k.ledger.calls| + 1
    ensures l.ledger.calls[|k.ledger.calls|].progress
            == Firefly.Settled(if answer.Accepts? then Ledger.Booked(|k.ledger.groups|) else Ledger.Refused)
  {
    hide Course, CallText, Loop.Enabled, Loop.Apply;
    KeyIsFree(k.ledger.groups, CallText(THING, key), ROWS);
    more, l := PostIsReady(faults, cfg, j, moves, k, key);
    more, l := Move1(faults, cfg, j, more, l, Connector(Firefly.Send(|k.ledger.calls|, answer)));
  }

  lemma RowsAreOrdered(args: Json)
    ensures AsOrdered(THING, ROWS, args)
  {
    assert Ledger.RowsOf(ROWS, THING.orders(args), NAMES);
  }

  lemma KeyIsFree(groups: seq<Ledger.Group>, text: string, rows: seq<Ledger.Split>)
    requires !Holds(groups, text)
    ensures Ledger.FindByExternalId(groups, text, 0).None?
    ensures forall rest: string {:trigger Ledger.Posting(text, None, rows, rest)} ::
              Ledger.DuplicateOf(groups, Ledger.Posting(text, None, rows, rest)).None?
    ensures Firefly.SameForThing(groups, None, rows).None?
  {
    forall i | 0 <= i < |groups| ensures groups[i].posting.key != text {
      assert groups[i] in groups;
    }
  }

  // ------------------------------------------------------------------ one yes, two live journals

  /** No question let through two journals that are both live. */
  ghost predicate OneLivePerYes(desk: Desk, j: Joint) {
    forall i, k, q | 0 <= i < k < |j.ledger.groups| && j.ledger.groups[i].live && j.ledger.groups[k].live ::
      !(PaidBy(desk, j, j.ledger.groups[i], q) && PaidBy(desk, j, j.ledger.groups[k], q))
  }

  const BIRTH := JointBorn("", 20, [])

  /** A Conversation at rest, its first question said yes to and unspent. */
  ghost predicate YesInHand(j: Joint, turns: nat) {
    && Resting(j.loop, turns) && j.call.None?
    && FindApproval(j.loop.store.conversation.entries, BOOKS, ArgsHash(ARGS), j.loop.store.questions) == Valid(0)
  }

  lemma YesIsGiven(faults: Faults, cfg: Config, setting: Setting) returns (moves: seq<Move>, j: Joint)
    requires cfg.maxAttempts >= 1
    ensures Course(faults, cfg, BIRTH, moves, j) && YesInHand(j, 1)
    ensures j.loop.store.executions == [] && j.ledger == Firefly.Fresh([]) && j.adrift == []
  {
    hide Course, Path, Resting, FindApproval, ArgsHash;
    var steps, t := FirstYes(Scene(cfg, setting, Usual()));
    NoMoves(faults, cfg, BIRTH);
    moves := Stretch(faults, Scene(cfg, setting, Usual()), BIRTH, [], BIRTH, steps, t);
    j := BIRTH.(loop := t);
  }

  /** Under the yes in hand the call is let through, on its way to the ledger. */
  lemma LetThrough(faults: Faults, on: Scene, moves: seq<Move>, j: Joint, turns: nat)
    returns (more: seq<Move>, k: Joint)
    requires on.plan == Usual() && on.cfg.maxAttempts >= 1 && turns < 19
    requires Course(faults, on.cfg, BIRTH, moves, j) && YesInHand(j, turns)
    ensures Course(faults, on.cfg, BIRTH, more, k) && k == j.(loop := k.loop) && BooksNow(k.loop)
    ensures Runs(k.loop, j.loop.store.conversation.entries, ONE, BOTH, Some(0), turns + 1)
    ensures k.loop.store.executions == j.loop.store.executions && k.loop.store.questions == j.loop.store.questions
  {
    hide Course, Path, Good, FindApproval, ArgsHash, Append, NextSeq, OpenKey, AnswersKnown, Permitted;
    UsualIsPermitted(on);
    var es, questions := j.loop.store.conversation.entries, j.loop.store.questions;
    ApprovalAfter(es, IntentRow(ONE, "", NextSeq(es), NoUsage), BOOKS, ArgsHash(ARGS), questions);
    var a, gate := ToTheGate(on, j.loop, ONE, BOTH, turns);
    var b, running := StartRunning(on, gate, es, ONE, BOTH, Some(0), turns + 1);
    more := Stretch(faults, on, BIRTH, moves, j, a, gate);
    more := Stretch(faults, on, BIRTH, more, j.(loop := gate), b, running);
    k := j.(loop := running);
  }

  /** Two journals stand, and the second is paid for by the call in flight, under the yes of the first. */
  lemma TwoStand(j: Joint, x: Execution)
    requires j.loop.store.executions == [x] && x.yes == Some(0) && BooksNow(j.loop) && j.call.Some?
    requires j.loop.turn.value.phase.yes == Some(0)
    requires j.ledger.groups == [Journal(x.key), Journal(j.loop.turn.value.phase.key)]
    ensures !OneLivePerYes(THING, j)
  {
    hide CallText;
    assert x in j.loop.store.executions;
    assert PaidBy(THING, j, j.ledger.groups[0], 0) && PaidBy(THING, j, j.ledger.groups[1], 0);
  }

  /** The key in hand is not one that ran before. */
  lemma NewKey(s: State, x: Execution)
    requires Good(s) && s.turn.Some? && s.turn.value.phase.Executing? && x in s.store.executions
    ensures CallText(THING, s.turn.value.phase.key) != CallText(THING, x.key)
  {
    if CallText(THING, s.turn.value.phase.key) == CallText(THING, x.key) {
      CallTextTellsTheKey(THING, s.turn.value.phase.key, x.key);
    }
  }

  /** From a yes still in hand after one journal was booked under it, to a second journal. */
  lemma BookAgain(faults: Faults, on: Scene, moves: seq<Move>, j: Joint, x: Execution, turns: nat)
    returns (more: seq<Move>, l: Joint)
    requires on.plan == Usual() && on.cfg.maxAttempts >= 1 && turns < 19
    requires Course(faults, on.cfg, BIRTH, moves, j) && YesInHand(j, turns)
    requires j.loop.store.executions == [x] && x.yes == Some(0) && j.ledger.groups == [Journal(x.key)]
    requires forall text | text in j.ledger.inFlight :: text == CallText(THING, x.key)
    ensures Course(faults, on.cfg, BIRTH, more, l) && !OneLivePerYes(THING, l)
  {
    hide Course, Good, Resting, FindApproval, CallText, OneLivePerYes;
    var k;
    more, k := LetThrough(faults, on, moves, j, turns);
    NewKey(k.loop, x);
    more, l := PostIsBooked(faults, on.cfg, BIRTH, more, k, k.loop.turn.value.phase.key, Ledger.Accepts);
    TwoStand(l, x);
  }

  /** The ledger's answer is lost: the journal stands, the call reads as an error, its yes is unspent. */
  lemma LostAnswerBooksTwice(cfg: Config) returns (moves: seq<Move>, j: Joint)
    requires cfg.maxAttempts >= 1
    ensures Course(Faults(true, false, false), cfg, BIRTH, moves, j) && !OneLivePerYes(THING, j)
  {
    hide Course, Path, Good, FindApproval, ArgsHash, Append, NextSeq, OpenKey, AnswersKnown, CallText, OneLivePerYes,
      Plus;
    var faults, on := Faults(true, false, false), Scene(cfg, NOTHING.(effectsHidden := true), Usual());
    moves, j := YesIsGiven(faults, cfg, on.setting);
    var es := j.loop.store.conversation.entries;
    var questions := j.loop.store.questions;
    moves, j := LetThrough(faults, on, moves, j, 1);
    var running := j.loop;
    moves, j := PostIsBooked(faults, cfg, BIRTH, moves, j, NextSeq(es), Ledger.LosesTheAnswer);
    assert j.ledger.groups == [Journal(NextSeq(es))];
    assert Holds(j.ledger.groups, CallText(THING, NextSeq(es))) by { assert j.ledger.groups[0] in j.ledger.groups; }
    moves, j := Move1(faults, cfg, BIRTH, moves, j, Return);
    var _, ran := RunIt(on, running, es, ONE, BOTH, Some(0), Error, true, 2);
    assert j.loop == ran;
    var steps, t := WrapUp(on, ran, es, ONE, BOTH, Some(0), Error, 2);
    moves := Stretch(faults, on, BIRTH, moves, j, steps, t);
    j := j.(loop := t);
    ApprovalAfter(es, IntentRow(ONE, "", NextSeq(es), NoUsage), BOOKS, ArgsHash(ARGS), questions);
    SpentExactlyByStamp(IntentLogged(es, ONE), BOOKS, ArgsHash(ARGS), questions, 0,
                        ResultRow(BOOKS, Some(NextSeq(es)), None));
    moves, j := BookAgain(faults, on, moves, j, j.loop.store.executions[0], 2);
  }

  /** The call in hand when the process died is recovered as an error, and the yes is still in hand. */
  lemma RecoveredInError(faults: Faults, on: Scene, moves: seq<Move>, j: Joint, es: seq<Entry>,
                         granted: map<string, Grant>)
    returns (more: seq<Move>, k: Joint)
    requires on.cfg.maxAttempts >= 1 && Permitted(on, granted)
    requires Course(faults, on.cfg, BIRTH, moves, j) && j.call.None? && Stranded(j.loop, es, ONE, 2)
    requires Settlement(granted, Written(es, ONE), Some(Error)) == Some(Error)
    requires on.setting.recoveryMisses || NextSeq(es) !in LandedKeys(j.loop.store.executions)
    requires faults.recoveryMisses || j.ledger.groups == []
    requires FindApproval(es, BOOKS, ArgsHash(ARGS), j.loop.store.questions) == Valid(0)
    ensures Course(faults, on.cfg, BIRTH, more, k) && YesInHand(k, 3)
    ensures k == j.(loop := k.loop) && k.loop.store.executions == j.loop.store.executions
  {
    hide Course, Path, Good, FindApproval, ArgsHash, Append, NextSeq, OpenKey, AnswersKnown, CallText, Permitted,
      Stranded, LandedKeys, Ran, Vouched;
    var questions := j.loop.store.questions;
    var a, back := Recover(on, j.loop, es, ONE, granted, Some(Error), 2);
    var b, t := EndQuietly(on, back, es, ONE, granted, Some(Error), 2);
    more := Stretch(faults, on, BIRTH, moves, j, a, back);
    more := Stretch(faults, on, BIRTH, more, j.(loop := back), b, t);
    k := j.(loop := t);
    ApprovalAfter(es, IntentRow(ONE, "", NextSeq(es), NoUsage), BOOKS, ArgsHash(ARGS), questions);
    SpentExactlyByStamp(IntentLogged(es, ONE), BOOKS, ArgsHash(ARGS), questions, 0,
                        ResultRow(BOOKS, Some(NextSeq(es)), None));
  }

  /** The process dies over the call in hand, whatever of it the ledger holds. */
  lemma DiesInFlight(faults: Faults, on: Scene, moves: seq<Move>, j: Joint, es: seq<Entry>)
    returns (more: seq<Move>, k: Joint)
    requires Course(faults, on.cfg, BIRTH, moves, j) && j.call.Some? && Runs(j.loop, es, ONE, BOTH, Some(0), 2)
    ensures Course(faults, on.cfg, BIRTH, more, k) && k.call.None? && Stranded(k.loop, es, ONE, 2)
    ensures k.ledger == Firefly.Fresh(j.ledger.groups) && k.adrift == j.adrift + OnItsWay(j)
    ensures k.loop.store.questions == j.loop.store.questions
    ensures k.loop.store.executions
            == j.loop.store.executions
               + [Execution(NextSeq(es), BOOKS, ARGS, Some(0), Holds(j.ledger.groups, CallText(THING, NextSeq(es))))]
  {
    hide Course, Path, Good, ArgsHash, Append, NextSeq, OpenKey, AnswersKnown, CallText, Holds, Plus;
    var landed := Holds(j.ledger.groups, CallText(THING, NextSeq(es)));
    more, k := Move1(faults, on.cfg, BIRTH, moves, j, Die);
    var _, ran := RunIt(on, j.loop, es, ONE, BOTH, Some(0), Value, landed, 2);
    var _, dead := DieMidCall(on, ran, es, ONE, BOTH, Some(0), Value, 2);
    assert k.loop == dead;
  }

  /** The process dies over a journal just booked, and recovery finds the Operation gone. */
  lemma MissedJournalBooksTwice(cfg: Config) returns (moves: seq<Move>, j: Joint)
    requires cfg.maxAttempts >= 1
    ensures Course(Faults(false, false, true), cfg, BIRTH, moves, j) && !OneLivePerYes(THING, j)
  {
    hide Course, Path, Good, FindApproval, ArgsHash, Append, NextSeq, OpenKey, AnswersKnown, CallText, OneLivePerYes,
      Plus, Stranded, Turns.Runs;
    var faults, on := Faults(false, false, true), Scene(cfg, NOTHING.(recoveryMisses := true), Usual());
    moves, j := YesIsGiven(faults, cfg, on.setting);
    var es := j.loop.store.conversation.entries;
    moves, j := LetThrough(faults, on, moves, j, 1);
    KeyOf(j.loop, es);
    moves, j := PostIsBooked(faults, cfg, BIRTH, moves, j, NextSeq(es), Ledger.Accepts);
    moves, j := DiesInFlight(faults, on, moves, j, es);
    moves, j := RecoveredInError(faults, on, moves, j, es, map[]);
    moves, j := BookAgain(faults, on, moves, j, j.loop.store.executions[0], 3);
  }

  lemma KeyOf(s: State, es: seq<Entry>)
    requires Runs(s, es, ONE, BOTH, Some(0), 2)
    ensures s.turn.Some? && s.turn.value.phase.Executing? && s.turn.value.phase.key == NextSeq(es)
  {
  }

  /** The process dies over a post on its way; recovery finds nothing, and then the post lands. */
  lemma LatePostBooksTwice(cfg: Config) returns (moves: seq<Move>, j: Joint)
    requires cfg.maxAttempts >= 1
    ensures Course(Faults(false, true, false), cfg, BIRTH, moves, j) && !OneLivePerYes(THING, j)
  {
    hide Course, Path, Good, FindApproval, ArgsHash, Append, NextSeq, OpenKey, AnswersKnown, CallText, OneLivePerYes,
      Plus, Stranded, Turns.Runs;
    var faults, on := Faults(false, true, false), Scene(cfg, NOTHING, Usual());
    moves, j := YesIsGiven(faults, cfg, on.setting);
    var es := j.loop.store.conversation.entries;
    moves, j := LetThrough(faults, on, moves, j, 1);
    KeyOf(j.loop, es);
    moves, j := PostIsReady(faults, cfg, BIRTH, moves, j, NextSeq(es));
    moves, j := DiesInFlight(faults, on, moves, j, es);
    UsualIsPermitted(on);
    moves, j := RecoveredInError(faults, on, moves, j, es, BOTH);
    moves, j := Move1(faults, cfg, BIRTH, moves, j, Late(0));
    moves, j := BookAgain(faults, on, moves, j, j.loop.store.executions[0], 3);
  }

  /** In every run of loop and ledger together a question lets through at most one journal that is
      live, exactly when no answer of the ledger is lost, no post lands after its process has died, and
      no recovery misses a journal that stands. */
  lemma OneLiveJournalExactlyWhen(cfg: Config, faults: Faults)
    requires cfg.maxAttempts >= 1
    ensures (forall prompt: string, maxTurns: nat, desk: Desk, books: seq<Ledger.Group>, moves: seq<Move> |
               && Untouched(desk, books)
               && JointLegal(cfg, desk, JointBorn(prompt, maxTurns, books), moves)
               && ReliedRun(faults, cfg, desk, JointBorn(prompt, maxTurns, books), moves) ::
               OneLivePerYes(desk, JointRun(cfg, desk, JointBorn(prompt, maxTurns, books), moves)))
            <==> Faultless(faults)
  {
    hide JointRun, JointLegal, ReliedRun, TrustedRun, JointBorn, Untouched, OneLivePerYes, Course, PaidBy;
    if Faultless(faults) {
      forall prompt: string, maxTurns: nat, desk: Desk, books: seq<Ledger.Group>, moves: seq<Move> |
        && Untouched(desk, books)
        && JointLegal(cfg, desk, JointBorn(prompt, maxTurns, books), moves)
        && ReliedRun(faults, cfg, desk, JointBorn(prompt, maxTurns, books), moves)
        ensures OneLivePerYes(desk, JointRun(cfg, desk, JointBorn(prompt, maxTurns, books), moves))
      {
        FaultlessIsTrusted(faults, cfg, desk, JointBorn(prompt, maxTurns, books), moves);
        TrustedKeepsOne(cfg, prompt, maxTurns, desk, books, moves);
      }
    } else {
      var less, moves, j;
      if faults.answersLost {
        less := Faults(true, false, false);
        moves, j := LostAnswerBooksTwice(cfg);
      } else if faults.postsOutlive {
        less := Faults(false, true, false);
        moves, j := LatePostBooksTwice(cfg);
      } else {
        less := Faults(false, false, true);
        moves, j := MissedJournalBooksTwice(cfg);
      }
      MoreFaults(less, faults, cfg, moves, j);
    }
  }

  lemma TrustedKeepsOne(cfg: Config, prompt: string, maxTurns: nat, desk: Desk, books: seq<Ledger.Group>,
                        moves: seq<Move>)
    requires Untouched(desk, books)
    requires JointLegal(cfg, desk, JointBorn(prompt, maxTurns, books), moves)
    requires TrustedRun(cfg, desk, JointBorn(prompt, maxTurns, books), moves)
    ensures OneLivePerYes(desk, JointRun(cfg, desk, JointBorn(prompt, maxTurns, books), moves))
  {
    hide JointRun, JointLegal, TrustedRun, JointBorn, Untouched, PaidBy, OrderedUnder, AskedAndOrdered;
    EachYesPaysForOneJournal(cfg, prompt, maxTurns, desk, books, moves);
  }

  /** A run with some faults is a run with more, from empty books. */
  lemma MoreFaults(less: Faults, faults: Faults, cfg: Config, moves: seq<Move>, j: Joint)
    requires Course(less, cfg, BIRTH, moves, j)
    requires FewerFaults(less, faults)
    ensures Untouched(THING, []) && JointLegal(cfg, THING, JointBorn("", 20, []), moves)
    ensures ReliedRun(faults, cfg, THING, JointBorn("", 20, []), moves)
    ensures JointRun(cfg, THING, JointBorn("", 20, []), moves) == j
  {
    hide JointRun, JointLegal, JointBorn, ReliedRun;
    MoreIsRelied(less, faults, cfg, BIRTH, moves);
  }

  lemma {:induction false} MoreIsRelied(less: Faults, faults: Faults, cfg: Config, j: Joint, moves: seq<Move>)
    requires JointLegal(cfg, THING, j, moves) && ReliedRun(less, cfg, THING, j, moves)
    requires FewerFaults(less, faults)
    ensures ReliedRun(faults, cfg, THING, j, moves)
  {
    hide Payment.Apply, Payment.Enabled, Trusted;
    if moves != [] {
      MoreIsRelied(less, faults, cfg, j, moves[..|moves| - 1]);
    }
  }
}
