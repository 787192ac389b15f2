/** The loop and the ledger as one machine. The booking Operation runs by handing its call to the
    connector, recovery asks the ledger, the User deletes journals, and the process may die between
    any two effects. A confirmed question pays for at most one live journal. */
module Payment {
  import opened Wrappers
  import opened CanonicalJson
  import opened Conversations
  import opened Loop
  import opened IntentLog
  import opened ExactlyOnce
  import opened Approvals
  import opened ApprovalAccounts
  import Keys
  import Ledger
  import Firefly

  const BOOKING := "bookkeeping.postTransaction"

  /** `call` is the connector call this Conversation's advance awaits; `adrift` are the posts that were
      on their way when a process died. */
  datatype Joint = Joint(loop: State, ledger: Firefly.World, call: Option<nat>, adrift: seq<Ledger.Posting>)

  datatype Move =
    | Ordinary(step: Step)
    | Post(thing: Option<string>, rest: string)
    | Connector(work: Firefly.Step)
    | Return
    | Die
    | Late(post: nat)

  /** The Conversation whose calls these are, and the orders the arguments of a booking spell. */
  datatype Desk = Desk(thingId: string, orders: Json -> seq<Ledger.Order>)

  // ------------------------------------------------------------------ keys and groups

  function CallText(desk: Desk, key: nat): string {
    Keys.KeyText(desk.thingId, Keys.CallKey(key))
  }

  ghost predicate Ours(desk: Desk, text: string) {
    exists n: nat :: text == CallText(desk, n)
  }

  /** The ledger has, or had, a group under this key. */
  ghost predicate Holds(groups: seq<Ledger.Group>, text: string) {
    exists g :: g in groups && g.posting.key == text
  }

  ghost predicate HoldsLive(groups: seq<Ledger.Group>, text: string) {
    exists g :: g in groups && g.live && g.posting.key == text
  }

  lemma CallTextTellsTheKey(desk: Desk, m: nat, n: nat)
    requires CallText(desk, m) == CallText(desk, n)
    ensures m == n
  {
    var fs, gs := Keys.Fields(desk.thingId, Keys.CallKey(m)), Keys.Fields(desk.thingId, Keys.CallKey(n));
    var prefix := desk.thingId + ":";
    assert Keys.JoinColon(fs) == prefix + Keys.Decimal(m) && Keys.JoinColon(gs) == prefix + Keys.Decimal(n);
    assert (prefix + Keys.Decimal(m))[|prefix|..] == Keys.Decimal(m);
    assert (prefix + Keys.Decimal(n))[|prefix|..] == Keys.Decimal(n);
    Keys.DecimalInjective(m, n);
  }

  /** What another Conversation asks or calls goes by keys that are none of ours. */
  lemma OthersKeysAreNotOurs(desk: Desk, other: string, key: Keys.Key)
    requires Keys.Free(desk.thingId, ':') && Keys.Free(other, ':') && desk.thingId != other
    ensures !Ours(desk, Keys.KeyText(other, key))
  {
    forall n: nat ensures CallText(desk, n) != Keys.KeyText(other, key) {
      if CallText(desk, n) == Keys.KeyText(other, key) {
        Keys.KeyTextInjective(desk.thingId, other, Keys.CallKey(n), key);
      }
    }
  }

  // ------------------------------------------------------------------ the machine

  ghost predicate BooksNow(s: State) {
    s.turn.Some? && s.turn.value.phase.Executing? && s.turn.value.phase.call.operation == BOOKING
  }

  ghost predicate RecoversBooking(s: State, step: Step) {
    step.Reconcile? && s.turn.Some? && s.turn.value.phase.Reconciling?
    && s.turn.value.phase.intent.toolName == BOOKING
  }

  /** These rows are what these arguments order, under some reading of the names they use. */
  ghost predicate AsOrdered(desk: Desk, rows: seq<Ledger.Split>, args: Json) {
    exists names :: Ledger.RowsOf(rows, desk.orders(args), names)
  }

  /** A move of the booking Operation is the connector's, which makes its rows out of the arguments; other
      callers never post under our keys. */
  ghost predicate Enabled(cfg: Config, desk: Desk, j: Joint, move: Move) {
    match move
    case Ordinary(step) =>
      Loop.Enabled(cfg, j.loop, step) && !step.Crash? && !(step.Execute? && BooksNow(j.loop))
    case Post(_, _) => BooksNow(j.loop) && j.call.None?
    case Connector(step) =>
      && Firefly.Enabled(j.ledger, step) && (step.Submit? ==> !Ours(desk, step.key))
      && (step.Resolve? && j.call == Some(step.call) && BooksNow(j.loop) ==>
            AsOrdered(desk, step.rows, j.loop.turn.value.phase.call.args))
    case Return =>
      && BooksNow(j.loop) && j.call.Some? && j.call.value < |j.ledger.calls|
      && j.ledger.calls[j.call.value].progress.Settled?
    case Die => j.loop.turn.Some?
    case Late(n) => n < |j.adrift|
  }

  /** What the call in flight has sent and not yet heard of. */
  function OnItsWay(j: Joint): seq<Ledger.Posting> {
    if j.call.None? || j.call.value >= |j.ledger.calls| then []
    else
      var c := j.ledger.calls[j.call.value];
      if c.progress.Running? && (c.progress.stage.Sending? || c.progress.stage.Resending?)
      then [Ledger.Posting(c.key, c.thing, c.progress.stage.rows, c.rest)] else []
  }

  /** The booking Operation has answered; what took effect is what the ledger holds under its key. */
  function Answered(desk: Desk, j: Joint, outcome: Outcome, landed: bool): State
    requires BooksNow(j.loop)
  {
    ExecuteStep(j.loop, outcome, landed, NoReport, NoUsage)
  }

  function OutcomeOf(result: Ledger.Result): Outcome {
    if result.Refused? then Error else Value
  }

  /** With the process die the calls it had in flight; what they booked stays, nobody hears what they
      would have answered, and what they had sent may land late. */
  ghost function Apply(cfg: Config, desk: Desk, j: Joint, move: Move): Joint
    requires Enabled(cfg, desk, j, move)
  {
    match move
    case Ordinary(step) => j.(loop := Loop.Apply(cfg, j.loop, step))
    case Post(thing, rest) =>
      j.(ledger := Firefly.Submitted(j.ledger, CallText(desk, j.loop.turn.value.phase.key), thing, rest),
         call := Some(|j.ledger.calls|))
    case Connector(step) => j.(ledger := Firefly.Apply(j.ledger, step))
    case Return =>
      var landed := Holds(j.ledger.groups, CallText(desk, j.loop.turn.value.phase.key));
      j.(loop := Answered(desk, j, OutcomeOf(j.ledger.calls[j.call.value].progress.result), landed), call := None)
    case Die =>
      var ran := if BooksNow(j.loop) && j.call.Some?
                 then Answered(desk, j, Value, Holds(j.ledger.groups, CallText(desk, j.loop.turn.value.phase.key)))
                 else j.loop;
      Joint(Loop.Apply(cfg, ran, Crash), Firefly.Fresh(j.ledger.groups), None, j.adrift + OnItsWay(j))
    case Late(n) =>
      j.(ledger := j.ledger.(groups := j.ledger.groups + [Ledger.Group(j.adrift[n], true)]))
  }

  /** What is trusted. The ledger answers the posts it books for this Conversation; none lands after its
      process has died; and over a journal that stands, recovery finds the Operation granted as ever and
      its search for the key answered. */
  ghost predicate Trusted(desk: Desk, j: Joint, move: Move) {
    match move
    case Connector(Send(n, answer)) => j.call == Some(n) ==> !answer.LosesTheAnswer?
    case Connector(Resend(n, answer)) => j.call == Some(n) ==> !answer.LosesTheAnswer?
    case Ordinary(step) => RecoversBooking(j.loop, step) ==> Recovers(desk, j, step.verdict)
    case Late(_) => false
    case _ => true
  }

  ghost predicate Recovers(desk: Desk, j: Joint, verdict: Option<Outcome>)
    requires j.loop.turn.Some? && j.loop.turn.value.phase.Reconciling?
  {
    var t := j.loop.turn.value;
    t.phase.intent.key.Some? && HoldsLive(j.ledger.groups, CallText(desk, t.phase.intent.key.value)) ==>
      BOOKING in t.granted && t.granted[BOOKING] == Grant(true, true, true) && verdict == Some(Value)
  }

  // ------------------------------------------------------------------ what every move keeps

  ghost predicate Booked(xs: seq<Execution>, key: nat) {
    exists x :: x in xs && x.key == key && x.operation == BOOKING
  }

  ghost function KeyInFlight(j: Joint): Option<nat> {
    if j.call.Some? && BooksNow(j.loop) then Some(j.loop.turn.value.phase.key) else None
  }

  /** The call awaited is the one in hand, and has booked nothing unless it says so. */
  ghost predicate Awaited(desk: Desk, j: Joint) {
    j.call.Some? ==>
      && BooksNow(j.loop) && j.call.value < |j.ledger.calls|
      && var text := CallText(desk, j.loop.turn.value.phase.key);
         var c := j.ledger.calls[j.call.value];
         && c.key == text
         && ((c.progress.Settled? && c.progress.result.Booked?) || !Holds(j.ledger.groups, text))
  }

  ghost predicate OthersSettled(desk: Desk, w: Firefly.World, call: Option<nat>) {
    forall n: nat | n < |w.calls| && Ours(desk, w.calls[n].key) && call != Some(n) :: w.calls[n].progress.Settled?
  }

  /** Every group under a key of this Conversation was booked by the call made under that key. */
  ghost predicate Sourced(desk: Desk, j: Joint) {
    forall k: nat | Holds(j.ledger.groups, CallText(desk, k)) ::
      Booked(j.loop.store.executions, k) || KeyInFlight(j) == Some(k)
  }

  /** For the booking Operation, to have landed is to have a group in the ledger. */
  ghost predicate LandedIsHeld(desk: Desk, j: Joint) {
    forall x | x in j.loop.store.executions && x.operation == BOOKING ::
      x.landed <==> Holds(j.ledger.groups, CallText(desk, x.key))
  }

  /** The calls whose yes pays for a live group. */
  ghost function Paying(desk: Desk, groups: seq<Ledger.Group>, xs: seq<Execution>): set<nat> {
    set x | x in xs && x.yes.Some? && HoldsLive(groups, CallText(desk, x.key)) :: x.key
  }

  /** A call just run under a yes says a value if a live group stands under its key. */
  ghost predicate SaysSo(desk: Desk, j: Joint) {
    j.loop.turn.Some? && j.loop.turn.value.phase.Executed? ==>
      var p := j.loop.turn.value.phase;
      p.yes.Some? && HoldsLive(j.ledger.groups, CallText(desk, p.key)) ==> p.outcome.Value?
  }

  ghost predicate Kept(desk: Desk, j: Joint) {
    && Awaited(desk, j)
    && OthersSettled(desk, j.ledger, j.call)
    && Sourced(desk, j)
    && LandedIsHeld(desk, j)
    && SaysSo(desk, j)
    && AllPaid(Paying(desk, j.ledger.groups, j.loop.store.executions), j.loop)
  }

  ghost predicate LoopKept(s: State) {
    Good(s) && Approved(s) && Asked(s)
  }

  ghost predicate JointSafe(desk: Desk, j: Joint) {
    LoopKept(j.loop) && Firefly.Safe(j.ledger) && Kept(desk, j)
  }

  // ------------------------------------------------------------------ the loop's own steps

  lemma LoopStepKeeps(cfg: Config, s: State, step: Step)
    requires LoopKept(s) && Loop.Enabled(cfg, s, step)
    ensures LoopKept(Loop.Apply(cfg, s, step))
  {
    hide Good, Approved, Asked, Loop.Apply, Loop.Enabled;
    StepKeeps(cfg, s, step);
    StepIsApproved(cfg, s, step);
    StepAsks(cfg, s, step);
  }

  /** While an Operation runs, an advance does nothing else. */
  lemma OnlyTheUserMoves(cfg: Config, s: State, step: Step)
    requires Loop.Enabled(cfg, s, step) && s.turn.Some? && s.turn.value.phase.Executing?
    requires !step.Execute? && !step.Crash?
    ensures Loop.Apply(cfg, s, step).turn == s.turn
  {
  }

  lemma OneExecutionPerKey(store: Store, x: Execution, y: Execution)
    requires GoodStore(store) && x in store.executions && y in store.executions && x.key == y.key
    ensures x == y
  {
  }

  lemma LiveIsHeld(groups: seq<Ledger.Group>, text: string)
    ensures HoldsLive(groups, text) ==> Holds(groups, text)
  {
  }

  /** Recovery stamps whatever paid for a live group, and so does the record of a call just run. */
  lemma PayingIsStamped(cfg: Config, desk: Desk, j: Joint, step: Step)
    requires JointSafe(desk, j) && Enabled(cfg, desk, j, Ordinary(step)) && Trusted(desk, j, Ordinary(step))
    ensures Stamping(Paying(desk, j.ledger.groups, j.loop.store.executions), j.loop, step)
  {
    hide Approved, Asked, Firefly.Safe, AllPaid, WellLogged, Grown, OthersSettled, LandedIsHeld;
    var owed := Paying(desk, j.ledger.groups, j.loop.store.executions);
    var s := j.loop;
    if step.Record? && s.turn.value.phase.key in owed {
      RecordSaysSo(desk, j);
    }
    if step.Reconcile? && s.turn.value.phase.intent.key.Some? && s.turn.value.phase.intent.key.value in owed {
      var k := s.turn.value.phase.intent.key.value;
      LiveIsHeld(j.ledger.groups, CallText(desk, k));
      var x :| x in s.store.executions && x.key == k && x.operation == BOOKING;
      IntentNamesTheCall(s, x);
    }
  }

  lemma RecordSaysSo(desk: Desk, j: Joint)
    requires JointSafe(desk, j) && j.loop.turn.Some? && j.loop.turn.value.phase.Executed?
    requires j.loop.turn.value.phase.key in Paying(desk, j.ledger.groups, j.loop.store.executions)
    ensures j.loop.turn.value.phase.yes.Some? && j.loop.turn.value.phase.outcome.Value?
  {
    hide Asked, Firefly.Safe, AllPaid, WellLogged, Grown, OthersSettled, LandedIsHeld, Sourced, Awaited,
      ExecutionsAuthorised, RepeatsAreUnspent, ConfirmedOnRecord, HoldsLive;
    var p := j.loop.turn.value.phase;
    var store := j.loop.store;
    var x :| x in store.executions && x.yes.Some? && HoldsLive(j.ledger.groups, CallText(desk, x.key))
      && x.key == p.key;
    var y :| y in store.executions && y.key == p.key && y.yes == p.yes;
    OneExecutionPerKey(store, x, y);
  }

  lemma PayingHaveRun(desk: Desk, groups: seq<Ledger.Group>, xs: seq<Execution>)
    ensures forall k | k in Paying(desk, groups, xs) :: Ran(xs, k)
  {
  }

  /** A step of the loop that runs nothing. */
  lemma OrdinaryKeeps(cfg: Config, desk: Desk, j: Joint, step: Step)
    requires JointSafe(desk, j) && Enabled(cfg, desk, j, Ordinary(step)) && Trusted(desk, j, Ordinary(step))
    requires !step.Execute?
    ensures JointSafe(desk, Apply(cfg, desk, j, Ordinary(step)))
  {
    hide Good, Approved, Asked, Firefly.Safe, AllPaid, Paying, Loop.Apply, Holds, HoldsLive, Stamping;
    var next := Loop.Apply(cfg, j.loop, step);
    LoopStepKeeps(cfg, j.loop, step);
    OnlyExecuteExecutes(cfg, j.loop, step);
    PayingIsStamped(cfg, desk, j, step);
    PayingHaveRun(desk, j.ledger.groups, j.loop.store.executions);
    StepStaysPaid(cfg, j.loop, step, Paying(desk, j.ledger.groups, j.loop.store.executions));
    if j.loop.turn.Some? && j.loop.turn.value.phase.Executing? {
      OnlyTheUserMoves(cfg, j.loop, step);
    }
    if next.turn.Some? {
      OnlyTheGateLetsThrough(cfg, j.loop, step);
    }
  }

  // ------------------------------------------------------------------ running something

  /** Nothing stands under the key in hand but what the call in flight booked. */
  lemma KeyInHandIsFree(desk: Desk, j: Joint)
    requires JointSafe(desk, j) && j.loop.turn.Some? && j.loop.turn.value.phase.Executing? && j.call.None?
    ensures !Holds(j.ledger.groups, CallText(desk, j.loop.turn.value.phase.key))
  {
    hide Approved, Asked, Firefly.Safe, AllPaid, WellLogged, Grown, Holds;
  }

  /** One execution more, under the key in hand: booking, or holding nothing. */
  lemma RunningKeeps(cfg: Config, desk: Desk, j: Joint, step: Step, w: Firefly.World, adrift: seq<Ledger.Posting>)
    requires JointSafe(desk, j) && Loop.Enabled(cfg, j.loop, step) && step.Execute?
    requires var p := j.loop.turn.value.phase;
             var text := CallText(desk, p.key);
             && (p.call.operation == BOOKING ==> (step.landed <==> Holds(j.ledger.groups, text)))
             && (p.call.operation != BOOKING ==> j.call.None?)
    requires HoldsLive(j.ledger.groups, CallText(desk, j.loop.turn.value.phase.key)) ==> step.outcome.Value?
    requires Firefly.Safe(w) && w.groups == j.ledger.groups && OthersSettled(desk, w, None)
    ensures JointSafe(desk, Joint(Loop.Apply(cfg, j.loop, step), w, None, adrift))
  {
    hide Good, Approved, Asked, Firefly.Safe, AllPaid, Paying, Holds, HoldsLive, CallText, Plus, Raise;
    var next := Loop.Apply(cfg, j.loop, step);
    LoopStepKeeps(cfg, j.loop, step);
    PayingGrowsByOne(cfg, desk, j, step);
    ExecuteStaysPaid(cfg, j.loop, step, Paying(desk, j.ledger.groups, j.loop.store.executions),
                     Paying(desk, j.ledger.groups, next.store.executions));
    var key, op := j.loop.turn.value.phase.key, j.loop.turn.value.phase.call.operation;
    if op == BOOKING {
      RanIsBooked(cfg, j.loop, step);
    } else {
      KeyInHandIsFree(desk, j);
    }
    RanStaysBooked(cfg, j.loop, step);
  }

  lemma RanIsBooked(cfg: Config, s: State, step: Step)
    requires Loop.Enabled(cfg, s, step) && step.Execute? && s.turn.value.phase.call.operation == BOOKING
    ensures Booked(Loop.Apply(cfg, s, step).store.executions, s.turn.value.phase.key)
  {
    hide Raise, Plus;
    var p := s.turn.value.phase;
    assert Execution(p.key, p.call.operation, p.call.args, p.yes, step.landed)
      in Loop.Apply(cfg, s, step).store.executions;
  }

  lemma RanStaysBooked(cfg: Config, s: State, step: Step)
    requires Loop.Enabled(cfg, s, step) && step.Execute?
    ensures forall k: nat | Booked(s.store.executions, k) :: Booked(Loop.Apply(cfg, s, step).store.executions, k)
  {
    hide Raise, Plus;
    var next := Loop.Apply(cfg, s, step).store.executions;
    forall k: nat | Booked(s.store.executions, k) ensures Booked(next, k) {
      var x :| x in s.store.executions && x.key == k && x.operation == BOOKING;
      assert x in next;
    }
  }

  lemma PayingGrowsByOne(cfg: Config, desk: Desk, j: Joint, step: Step)
    requires Loop.Enabled(cfg, j.loop, step) && step.Execute?
    ensures Paying(desk, j.ledger.groups, Loop.Apply(cfg, j.loop, step).store.executions)
            <= Paying(desk, j.ledger.groups, j.loop.store.executions) + {j.loop.turn.value.phase.key}
  {
    hide Raise, Plus, HoldsLive, CallText;
  }

  lemma AllSettled(desk: Desk, j: Joint)
    requires OthersSettled(desk, j.ledger, j.call)
    requires j.call.Some? ==> j.call.value < |j.ledger.calls| && j.ledger.calls[j.call.value].progress.Settled?
    ensures OthersSettled(desk, j.ledger, None)
  {
  }

  lemma ReturnKeeps(cfg: Config, desk: Desk, j: Joint)
    requires JointSafe(desk, j) && Enabled(cfg, desk, j, Return)
    ensures JointSafe(desk, Apply(cfg, desk, j, Return))
  {
    hide LoopKept, Firefly.Safe, AllPaid, Paying, Sourced, OthersSettled, LandedIsHeld, SaysSo, Plus, Raise,
      ExecuteStep;
    var text := CallText(desk, j.loop.turn.value.phase.key);
    LiveIsHeld(j.ledger.groups, text);
    var outcome := OutcomeOf(j.ledger.calls[j.call.value].progress.result);
    AllSettled(desk, j);
    RunningKeeps(cfg, desk, j, Execute(outcome, Holds(j.ledger.groups, text), NoReport, NoUsage), j.ledger, j.adrift);
  }

  lemma OutsideKeeps(cfg: Config, desk: Desk, j: Joint, step: Step)
    requires JointSafe(desk, j) && Enabled(cfg, desk, j, Ordinary(step)) && step.Execute?
    ensures JointSafe(desk, Apply(cfg, desk, j, Ordinary(step)))
  {
    hide LoopKept, Firefly.Safe, AllPaid, Paying, Sourced, OthersSettled, LandedIsHeld, SaysSo, Plus, Raise,
      ExecuteStep;
    KeyInHandIsFree(desk, j);
    LiveIsHeld(j.ledger.groups, CallText(desk, j.loop.turn.value.phase.key));
    AllSettled(desk, j);
    RunningKeeps(cfg, desk, j, step, j.ledger, j.adrift);
  }

  // ------------------------------------------------------------------ dying

  lemma FreshIsSafe(desk: Desk, w: Firefly.World)
    requires Firefly.Safe(w)
    ensures Firefly.Safe(Firefly.Fresh(w.groups)) && OthersSettled(desk, Firefly.Fresh(w.groups), None)
  {
  }

  lemma ForgettingKeeps(desk: Desk, j: Joint)
    requires JointSafe(desk, j) && j.call.None?
    ensures JointSafe(desk, j.(ledger := Firefly.Fresh(j.ledger.groups)))
  {
    hide LoopKept, Firefly.Safe, AllPaid, Paying, Holds, HoldsLive;
    FreshIsSafe(desk, j.ledger);
  }

  lemma CrashKeeps(cfg: Config, desk: Desk, j: Joint)
    requires JointSafe(desk, j) && j.call.None? && j.loop.turn.Some?
    ensures JointSafe(desk, j.(loop := Loop.Apply(cfg, j.loop, Crash)))
  {
    hide Good, Approved, Asked, Firefly.Safe, AllPaid, Paying, Holds, HoldsLive, Plus, InFlight;
    LoopStepKeeps(cfg, j.loop, Crash);
    PayingHaveRun(desk, j.ledger.groups, j.loop.store.executions);
    StepStaysPaid(cfg, j.loop, Crash, Paying(desk, j.ledger.groups, j.loop.store.executions));
  }

  lemma DieKeeps(cfg: Config, desk: Desk, j: Joint)
    requires JointSafe(desk, j) && Enabled(cfg, desk, j, Die)
    ensures JointSafe(desk, Apply(cfg, desk, j, Die))
  {
    hide LoopKept, Firefly.Safe, AllPaid, Paying, Sourced, OthersSettled, LandedIsHeld, SaysSo, Plus, Raise,
      ExecuteStep, Loop.Apply;
    if j.call.Some? {
      FreshIsSafe(desk, j.ledger);
      var step := Execute(Value, Holds(j.ledger.groups, CallText(desk, j.loop.turn.value.phase.key)), NoReport,
                          NoUsage);
      RunningKeeps(cfg, desk, j, step, Firefly.Fresh(j.ledger.groups), j.adrift + OnItsWay(j));
      ExecuteApplies(cfg, j.loop, step);
      CrashKeeps(cfg, desk, Joint(Loop.Apply(cfg, j.loop, step), Firefly.Fresh(j.ledger.groups), None,
                                  j.adrift + OnItsWay(j)));
    } else {
      assert j.adrift + OnItsWay(j) == j.adrift;
      ForgettingKeeps(desk, j);
      CrashKeeps(cfg, desk, j.(ledger := Firefly.Fresh(j.ledger.groups)));
    }
  }

  lemma ExecuteApplies(cfg: Config, s: State, step: Step)
    requires Loop.Enabled(cfg, s, step) && step.Execute?
    ensures Loop.Apply(cfg, s, step) == ExecuteStep(s, step.outcome, step.landed, step.report, step.spent)
    ensures Loop.Apply(cfg, s, step).turn.Some?
  {
  }

  // ------------------------------------------------------------------ the connector's moves

  /** Calls keep their keys, and what has settled stays; only a submission adds one. */
  lemma ConnectorCalls(w: Firefly.World, work: Firefly.Step)
    requires Firefly.Enabled(w, work)
    ensures var v := Firefly.Apply(w, work);
            && |w.calls| <= |v.calls|
            && (forall n | 0 <= n < |w.calls| ::
                  && v.calls[n].key == w.calls[n].key
                  && (w.calls[n].progress.Settled? ==> v.calls[n].progress == w.calls[n].progress))
            && (forall n | |w.calls| <= n < |v.calls| :: work.Submit? && v.calls[n].key == work.key)
  {
    hide Ledger.FindByExternalId, Firefly.SameForThing, Ledger.DuplicateOf;
  }

  /** A move that books: which call it is, and what that call says afterwards. */
  ghost predicate Books(w: Firefly.World, work: Firefly.Step, v: Firefly.World) {
    && (work.Send? || work.Resend?) && work.call < |w.calls| && w.calls[work.call].progress.Running?
    && |v.groups| == |w.groups| + 1 && v.groups[..|w.groups|] == w.groups
    && v.groups[|w.groups|].posting.key == w.calls[work.call].key
    && Firefly.PastMatch(w.calls[work.call].progress.stage)
    && v.groups[|w.groups|].posting.splits == w.calls[work.call].progress.stage.rows
    && work.call < |v.calls|
    && (!work.answer.LosesTheAnswer? ==>
        v.calls[work.call].progress.Settled? && v.calls[work.call].progress.result.Booked?)
  }

  /** A move that books nothing: each group as it was, or deleted. */
  ghost predicate OnlyDeletes(w: Firefly.World, v: Firefly.World) {
    && |v.groups| == |w.groups|
    && forall i | 0 <= i < |w.groups| ::
         v.groups[i].posting == w.groups[i].posting && (v.groups[i].live ==> w.groups[i].live)
  }

  lemma ConnectorGroups(w: Firefly.World, work: Firefly.Step)
    requires Firefly.Enabled(w, work)
    ensures Books(w, work, Firefly.Apply(w, work)) || OnlyDeletes(w, Firefly.Apply(w, work))
  {
    hide Ledger.FindByExternalId, Firefly.SameForThing, Ledger.DuplicateOf;
  }

  /** Under every key but one, the ledger holds what it held; live groups get no more. */
  ghost predicate HoldsAlike(before: seq<Ledger.Group>, after: seq<Ledger.Group>, but: string) {
    forall text | text != but ::
      && (Holds(after, text) <==> Holds(before, text))
      && (HoldsLive(after, text) ==> HoldsLive(before, text))
  }

  lemma DeletingHoldsAlike(w: Firefly.World, v: Firefly.World)
    requires OnlyDeletes(w, v)
    ensures forall text :: Holds(v.groups, text) <==> Holds(w.groups, text)
    ensures forall text :: HoldsLive(v.groups, text) ==> HoldsLive(w.groups, text)
  {
    forall text ensures Holds(v.groups, text) <==> Holds(w.groups, text)
                ensures HoldsLive(v.groups, text) ==> HoldsLive(w.groups, text) {
      if Holds(w.groups, text) {
        var i :| 0 <= i < |w.groups| && w.groups[i].posting.key == text;
        assert v.groups[i] in v.groups;
      }
      if Holds(v.groups, text) {
        var i :| 0 <= i < |v.groups| && v.groups[i].posting.key == text;
        assert w.groups[i] in w.groups;
      }
      if HoldsLive(v.groups, text) {
        var i :| 0 <= i < |v.groups| && v.groups[i].live && v.groups[i].posting.key == text;
        assert w.groups[i] in w.groups;
      }
    }
  }

  lemma BookingHoldsAlike(w: Firefly.World, work: Firefly.Step, v: Firefly.World)
    requires Books(w, work, v)
    ensures HoldsAlike(w.groups, v.groups, w.calls[work.call].key)
  {
    forall g ensures g in v.groups <==> g in w.groups || g == v.groups[|w.groups|] {
      assert v.groups == w.groups + [v.groups[|w.groups|]];
    }
  }

  /** Nothing new stands under a key that has already run. */
  lemma PayingShrinks(desk: Desk, before: seq<Ledger.Group>, after: seq<Ledger.Group>, xs: seq<Execution>)
    requires forall x | x in xs && HoldsLive(after, CallText(desk, x.key)) :: HoldsLive(before, CallText(desk, x.key))
    ensures Paying(desk, after, xs) <= Paying(desk, before, xs)
  {
    hide HoldsLive, CallText;
  }

  lemma DeletionKeeps(cfg: Config, desk: Desk, j: Joint, work: Firefly.Step)
    requires JointSafe(desk, j) && Enabled(cfg, desk, j, Connector(work))
    requires OnlyDeletes(j.ledger, Firefly.Apply(j.ledger, work))
    ensures JointSafe(desk, Apply(cfg, desk, j, Connector(work)))
  {
    hide LoopKept, Firefly.Safe, AllPaid, Paying, Holds, HoldsLive, Firefly.Apply, Firefly.Enabled, OnlyDeletes,
      CallText;
    var v := Firefly.Apply(j.ledger, work);
    Firefly.StepKeeps(j.ledger, work);
    ConnectorCalls(j.ledger, work);
    DeletingHoldsAlike(j.ledger, v);
    PayingShrinks(desk, j.ledger.groups, v.groups, j.loop.store.executions);
    PaidFewer(Paying(desk, v.groups, j.loop.store.executions),
              Paying(desk, j.ledger.groups, j.loop.store.executions), j.loop);
  }

  /** Whoever books under one of our keys is the call in flight, under the key in hand, which nothing
      has run under. */
  lemma WhoBooks(cfg: Config, desk: Desk, j: Joint, work: Firefly.Step)
    requires JointSafe(desk, j) && Enabled(cfg, desk, j, Connector(work))
    requires Books(j.ledger, work, Firefly.Apply(j.ledger, work))
    ensures forall k: nat | CallText(desk, k) == j.ledger.calls[work.call].key ::
              j.call == Some(work.call) && KeyInFlight(j) == Some(k)
    ensures forall x | x in j.loop.store.executions :: CallText(desk, x.key) != j.ledger.calls[work.call].key
  {
    hide Approved, Asked, Firefly.Safe, AllPaid, WellLogged, Grown, Holds, HoldsLive, CallText, Sourced, LandedIsHeld,
      SaysSo, Firefly.Apply, Firefly.Enabled;
    forall k: nat | CallText(desk, k) == j.ledger.calls[work.call].key
      ensures j.call == Some(work.call) && KeyInFlight(j) == Some(k)
    {
      assert Ours(desk, j.ledger.calls[work.call].key);
      CallTextTellsTheKey(desk, k, j.loop.turn.value.phase.key);
    }
  }

  lemma BookingKeeps(cfg: Config, desk: Desk, j: Joint, work: Firefly.Step)
    requires JointSafe(desk, j) && Enabled(cfg, desk, j, Connector(work)) && Trusted(desk, j, Connector(work))
    requires Books(j.ledger, work, Firefly.Apply(j.ledger, work))
    ensures JointSafe(desk, Apply(cfg, desk, j, Connector(work)))
  {
    hide LoopKept, Firefly.Safe, AllPaid, Paying, Holds, HoldsLive, Firefly.Apply, Firefly.Enabled, CallText;
    var v := Firefly.Apply(j.ledger, work);
    Firefly.StepKeeps(j.ledger, work);
    ConnectorCalls(j.ledger, work);
    WhoBooks(cfg, desk, j, work);
    BookingHoldsAlike(j.ledger, work, v);
    PayingShrinks(desk, j.ledger.groups, v.groups, j.loop.store.executions);
    PaidFewer(Paying(desk, v.groups, j.loop.store.executions),
              Paying(desk, j.ledger.groups, j.loop.store.executions), j.loop);
  }

  lemma PostKeeps(cfg: Config, desk: Desk, j: Joint, thing: Option<string>, rest: string)
    requires JointSafe(desk, j) && Enabled(cfg, desk, j, Post(thing, rest))
    ensures JointSafe(desk, Apply(cfg, desk, j, Post(thing, rest)))
  {
    hide LoopKept, Firefly.Safe, AllPaid, Paying, Holds, HoldsLive, CallText;
    KeyInHandIsFree(desk, j);
    Firefly.SubmitKeeps(j.ledger, CallText(desk, j.loop.turn.value.phase.key), thing, rest);
  }

  lemma MoveKeeps(cfg: Config, desk: Desk, j: Joint, move: Move)
    requires JointSafe(desk, j) && Enabled(cfg, desk, j, move) && Trusted(desk, j, move)
    ensures JointSafe(desk, Apply(cfg, desk, j, move))
  {
    hide JointSafe, Apply, Loop.Enabled, Firefly.Enabled;
    match move
    case Ordinary(step) =>
      if step.Execute? { OutsideKeeps(cfg, desk, j, step); } else { OrdinaryKeeps(cfg, desk, j, step); }
    case Post(thing, rest) => PostKeeps(cfg, desk, j, thing, rest);
    case Connector(work) =>
      ConnectorGroups(j.ledger, work);
      if OnlyDeletes(j.ledger, Firefly.Apply(j.ledger, work)) {
        DeletionKeeps(cfg, desk, j, work);
      } else {
        BookingKeeps(cfg, desk, j, work);
      }
    case Return => ReturnKeeps(cfg, desk, j);
    case Die => DieKeeps(cfg, desk, j);
  }

  // ------------------------------------------------------------------ what is booked is what was ordered

  /** This group is what the call made under this key ordered, whether it has run or is in flight. */
  ghost predicate OrderedUnder(desk: Desk, j: Joint, group: Ledger.Group, key: nat) {
    || (exists x :: x in j.loop.store.executions && x.key == key && x.operation == BOOKING
                    && AsOrdered(desk, group.posting.splits, x.args))
    || (KeyInFlight(j) == Some(key) && AsOrdered(desk, group.posting.splits, j.loop.turn.value.phase.call.args))
  }

  ghost predicate GroupsAsOrdered(desk: Desk, j: Joint) {
    forall g, k: nat | g in j.ledger.groups && g.posting.key == CallText(desk, k) :: OrderedUnder(desk, j, g, k)
  }

  predicate HasRows(progress: Firefly.Progress) {
    progress.Running? && (progress.stage.Matching? || Firefly.PastMatch(progress.stage))
  }

  /** The rows the call in flight has made are what its arguments order. */
  ghost predicate RowsAsOrdered(desk: Desk, j: Joint) {
    j.call.Some? && BooksNow(j.loop) && j.call.value < |j.ledger.calls|
      && HasRows(j.ledger.calls[j.call.value].progress) ==>
      AsOrdered(desk, j.ledger.calls[j.call.value].progress.stage.rows, j.loop.turn.value.phase.call.args)
  }

  ghost predicate Honoured(desk: Desk, j: Joint) {
    GroupsAsOrdered(desk, j) && RowsAsOrdered(desk, j)
  }

  /** Rows are made once, by resolving, and carried along. */
  lemma ConnectorRows(w: Firefly.World, work: Firefly.Step, n: nat)
    requires Firefly.Enabled(w, work) && n < |w.calls|
    ensures var v := Firefly.Apply(w, work);
            n < |v.calls| && (HasRows(v.calls[n].progress) ==>
              var rows := v.calls[n].progress.stage.rows;
              || (work.Resolve? && work.call == n && work.rows == rows)
              || (HasRows(w.calls[n].progress) && w.calls[n].progress.stage.rows == rows))
  {
    hide Ledger.FindByExternalId, Firefly.SameForThing, Ledger.DuplicateOf;
  }

  lemma ConnectorHonours(cfg: Config, desk: Desk, j: Joint, work: Firefly.Step)
    requires JointSafe(desk, j) && Honoured(desk, j) && Enabled(cfg, desk, j, Connector(work))
    ensures Honoured(desk, Apply(cfg, desk, j, Connector(work)))
  {
    hide LoopKept, Firefly.Safe, AllPaid, Paying, Holds, HoldsLive, Firefly.Apply, Firefly.Enabled, CallText,
      AsOrdered, Sourced, LandedIsHeld, SaysSo, OthersSettled;
    var w, v := j.ledger, Firefly.Apply(j.ledger, work);
    ConnectorGroups(w, work);
    ConnectorCalls(w, work);
    if j.call.Some? { ConnectorRows(w, work, j.call.value); }
    if Books(w, work, v) { WhoBooks(cfg, desk, j, work); }
    var next := Apply(cfg, desk, j, Connector(work));
    forall g, k: nat | g in v.groups && g.posting.key == CallText(desk, k) ensures OrderedUnder(desk, next, g, k) {
      var i :| 0 <= i < |v.groups| && v.groups[i] == g;
      if i < |w.groups| {
        assert w.groups[i] in w.groups;
        SameGroup(w, work, v, i);
        assert OrderedUnder(desk, j, w.groups[i], k);
      }
    }
  }

  lemma SameGroup(w: Firefly.World, work: Firefly.Step, v: Firefly.World, i: nat)
    requires (Books(w, work, v) || OnlyDeletes(w, v)) && i < |w.groups|
    ensures i < |v.groups| && v.groups[i].posting == w.groups[i].posting
  {
    if Books(w, work, v) { assert v.groups[..|w.groups|][i] == w.groups[i]; }
  }

  /** What was ordered by the call in flight is ordered by its execution. */
  lemma RunningHonours(cfg: Config, desk: Desk, j: Joint, step: Step, w: Firefly.World, adrift: seq<Ledger.Posting>)
    requires Honoured(desk, j) && Loop.Enabled(cfg, j.loop, step) && step.Execute? && w.groups == j.ledger.groups
    ensures Honoured(desk, Joint(Loop.Apply(cfg, j.loop, step), w, None, adrift))
  {
    hide CallText, AsOrdered, Plus, Raise;
    var p, next := j.loop.turn.value.phase, Joint(Loop.Apply(cfg, j.loop, step), w, None, adrift);
    var x := Execution(p.key, p.call.operation, p.call.args, p.yes, step.landed);
    assert next.loop.store.executions == j.loop.store.executions + [x];
    forall g, k: nat | g in w.groups && g.posting.key == CallText(desk, k) ensures OrderedUnder(desk, next, g, k) {
      assert OrderedUnder(desk, j, g, k);
      if KeyInFlight(j) == Some(k) && AsOrdered(desk, g.posting.splits, p.call.args) {
        assert x in next.loop.store.executions;
      } else {
        var y :| y in j.loop.store.executions && y.key == k && y.operation == BOOKING
                 && AsOrdered(desk, g.posting.splits, y.args);
        assert y in next.loop.store.executions;
      }
    }
  }

  lemma OrdinaryHonours(cfg: Config, desk: Desk, j: Joint, step: Step)
    requires JointSafe(desk, j) && Honoured(desk, j) && Enabled(cfg, desk, j, Ordinary(step)) && !step.Execute?
    ensures Honoured(desk, Apply(cfg, desk, j, Ordinary(step)))
  {
    hide LoopKept, Firefly.Safe, AllPaid, Paying, Holds, HoldsLive, CallText, AsOrdered, Sourced, LandedIsHeld, SaysSo,
      OthersSettled, Loop.Apply;
    OnlyExecuteExecutes(cfg, j.loop, step);
    if j.loop.turn.Some? && j.loop.turn.value.phase.Executing? {
      OnlyTheUserMoves(cfg, j.loop, step);
    }
    OrderedAlike(desk, j, j.(loop := Loop.Apply(cfg, j.loop, step)));
  }

  /** What changes neither executions, groups nor the call in flight changes nothing here. */
  lemma OrderedAlike(desk: Desk, j: Joint, next: Joint)
    requires GroupsAsOrdered(desk, j) && next.loop.store.executions == j.loop.store.executions
    requires next.ledger.groups == j.ledger.groups
    requires KeyInFlight(j).Some? ==> KeyInFlight(next) == KeyInFlight(j) && next.loop.turn == j.loop.turn
    ensures GroupsAsOrdered(desk, next)
  {
    hide CallText, AsOrdered;
    forall g, k: nat | g in next.ledger.groups && g.posting.key == CallText(desk, k)
      ensures OrderedUnder(desk, next, g, k)
    {
      assert OrderedUnder(desk, j, g, k);
    }
  }

  lemma CrashHonours(cfg: Config, desk: Desk, j: Joint)
    requires Honoured(desk, j) && j.call.None? && j.loop.turn.Some?
    ensures Honoured(desk, Joint(Loop.Apply(cfg, j.loop, Crash), Firefly.Fresh(j.ledger.groups), None, j.adrift))
  {
    hide CallText, AsOrdered, Plus, InFlight;
    OrderedAlike(desk, j, Joint(Loop.Apply(cfg, j.loop, Crash), Firefly.Fresh(j.ledger.groups), None, j.adrift));
  }

  lemma DieHonours(cfg: Config, desk: Desk, j: Joint)
    requires JointSafe(desk, j) && Honoured(desk, j) && Enabled(cfg, desk, j, Die)
    ensures Honoured(desk, Apply(cfg, desk, j, Die))
  {
    hide LoopKept, Firefly.Safe, AllPaid, Paying, Sourced, OthersSettled, LandedIsHeld, SaysSo, Plus, Raise,
      ExecuteStep, Loop.Apply, Honoured, CallText;
    if j.call.Some? {
      var step := Execute(Value, Holds(j.ledger.groups, CallText(desk, j.loop.turn.value.phase.key)), NoReport,
                          NoUsage);
      RunningHonours(cfg, desk, j, step, Firefly.Fresh(j.ledger.groups), j.adrift + OnItsWay(j));
      ExecuteApplies(cfg, j.loop, step);
      CrashHonours(cfg, desk, Joint(Loop.Apply(cfg, j.loop, step), Firefly.Fresh(j.ledger.groups), None,
                                    j.adrift + OnItsWay(j)));
    } else {
      assert j.adrift + OnItsWay(j) == j.adrift;
      CrashHonours(cfg, desk, j);
    }
  }

  lemma PostHonours(cfg: Config, desk: Desk, j: Joint, thing: Option<string>, rest: string)
    requires JointSafe(desk, j) && Honoured(desk, j) && Enabled(cfg, desk, j, Post(thing, rest))
    ensures Honoured(desk, Apply(cfg, desk, j, Post(thing, rest)))
  {
    hide LoopKept, Firefly.Safe, AllPaid, Paying, Holds, HoldsLive, CallText, AsOrdered;
    OrderedAlike(desk, j, Apply(cfg, desk, j, Post(thing, rest)));
  }

  lemma MoveHonours(cfg: Config, desk: Desk, j: Joint, move: Move)
    requires JointSafe(desk, j) && Honoured(desk, j) && Enabled(cfg, desk, j, move) && Trusted(desk, j, move)
    ensures Honoured(desk, Apply(cfg, desk, j, move))
  {
    hide JointSafe, Honoured, Loop.Enabled, Firefly.Enabled, Loop.Apply, Firefly.Apply, ExecuteStep, CallText;
    match move
    case Ordinary(step) =>
      if step.Execute? { NothingInFlight(cfg, desk, j, step); } else { OrdinaryHonours(cfg, desk, j, step); }
    case Post(thing, rest) => PostHonours(cfg, desk, j, thing, rest);
    case Connector(work) => ConnectorHonours(cfg, desk, j, work);
    case Return => ReturnHonours(cfg, desk, j);
    case Die => DieHonours(cfg, desk, j);
  }

  lemma ReturnHonours(cfg: Config, desk: Desk, j: Joint)
    requires Honoured(desk, j) && Enabled(cfg, desk, j, Return)
    ensures Honoured(desk, Apply(cfg, desk, j, Return))
  {
    hide Honoured, ExecuteStep, CallText, Loop.Apply;
    var landed := Holds(j.ledger.groups, CallText(desk, j.loop.turn.value.phase.key));
    var step := Execute(OutcomeOf(j.ledger.calls[j.call.value].progress.result), landed, NoReport, NoUsage);
    RunningHonours(cfg, desk, j, step, j.ledger, j.adrift);
    ExecuteApplies(cfg, j.loop, step);
  }

  lemma NothingInFlight(cfg: Config, desk: Desk, j: Joint, step: Step)
    requires JointSafe(desk, j) && Honoured(desk, j) && Enabled(cfg, desk, j, Ordinary(step)) && step.Execute?
    ensures Honoured(desk, Apply(cfg, desk, j, Ordinary(step)))
  {
    hide LoopKept, Firefly.Safe, Sourced, OthersSettled, LandedIsHeld, SaysSo, AllPaid, Loop.Apply, Honoured;
    RunningHonours(cfg, desk, j, step, j.ledger, j.adrift);
  }

  // ------------------------------------------------------------------ runs

  function JointBorn(prompt: string, maxTurns: nat, books: seq<Ledger.Group>): Joint {
    Joint(Born(prompt, maxTurns), Firefly.Fresh(books), None, [])
  }

  ghost predicate JointLegal(cfg: Config, desk: Desk, j: Joint, moves: seq<Move>)
    decreases |moves|, 0
  {
    moves == [] ||
    (var before := moves[..|moves| - 1];
     JointLegal(cfg, desk, j, before) && Enabled(cfg, desk, JointRun(cfg, desk, j, before), moves[|moves| - 1]))
  }

  ghost function JointRun(cfg: Config, desk: Desk, j: Joint, moves: seq<Move>): Joint
    requires JointLegal(cfg, desk, j, moves)
    decreases |moves|, 1
  {
    if moves == [] then j
    else Apply(cfg, desk, JointRun(cfg, desk, j, moves[..|moves| - 1]), moves[|moves| - 1])
  }

  ghost predicate TrustedRun(cfg: Config, desk: Desk, j: Joint, moves: seq<Move>)
    requires JointLegal(cfg, desk, j, moves)
  {
    moves == [] ||
    (var before := moves[..|moves| - 1];
     && TrustedRun(cfg, desk, j, before)
     && Trusted(desk, JointRun(cfg, desk, j, before), moves[|moves| - 1]))
  }

  /** The books before this Conversation is born: no two live groups under a key, none of its own. */
  ghost predicate Untouched(desk: Desk, books: seq<Ledger.Group>) {
    Ledger.UniqueKeys(books) && forall g | g in books :: !Ours(desk, g.posting.key)
  }

  lemma BornSafe(prompt: string, maxTurns: nat, desk: Desk, books: seq<Ledger.Group>)
    requires Untouched(desk, books)
    ensures JointSafe(desk, JointBorn(prompt, maxTurns, books)) && Honoured(desk, JointBorn(prompt, maxTurns, books))
  {
    hide CallText;
    forall k: nat ensures !Holds(books, CallText(desk, k)) {
      assert Ours(desk, CallText(desk, k));
    }
    forall g, k: nat | g in books ensures g.posting.key != CallText(desk, k) {
      assert !Ours(desk, g.posting.key);
    }
  }

  lemma {:induction false} JointRunKeeps(cfg: Config, prompt: string, maxTurns: nat, desk: Desk,
                                         books: seq<Ledger.Group>, moves: seq<Move>)
    requires Untouched(desk, books)
    requires JointLegal(cfg, desk, JointBorn(prompt, maxTurns, books), moves)
    requires TrustedRun(cfg, desk, JointBorn(prompt, maxTurns, books), moves)
    ensures JointSafe(desk, JointRun(cfg, desk, JointBorn(prompt, maxTurns, books), moves))
    ensures Honoured(desk, JointRun(cfg, desk, JointBorn(prompt, maxTurns, books), moves))
  {
    hide JointSafe, Honoured, Apply, Enabled, Trusted, JointBorn, Untouched;
    if moves == [] {
      BornSafe(prompt, maxTurns, desk, books);
    } else {
      var before := moves[..|moves| - 1];
      JointRunKeeps(cfg, prompt, maxTurns, desk, books, before);
      MoveKeeps(cfg, desk, JointRun(cfg, desk, JointBorn(prompt, maxTurns, books), before), moves[|moves| - 1]);
      MoveHonours(cfg, desk, JointRun(cfg, desk, JointBorn(prompt, maxTurns, books), before), moves[|moves| - 1]);
    }
  }

  // ------------------------------------------------------------------ one yes, one live journal

  /** The call that booked this group, run or in flight, was let through by this question. */
  ghost predicate PaidBy(desk: Desk, j: Joint, group: Ledger.Group, q: nat) {
    || (exists x :: x in j.loop.store.executions && x.yes == Some(q) && group.posting.key == CallText(desk, x.key))
    || (j.call.Some? && BooksNow(j.loop) && j.loop.turn.value.phase.yes == Some(q)
        && group.posting.key == CallText(desk, j.loop.turn.value.phase.key))
  }

  lemma BookerUnderKey(desk: Desk, j: Joint, g: Ledger.Group, x: Execution)
    requires JointSafe(desk, j) && g in j.ledger.groups && x in j.loop.store.executions
    requires g.posting.key == CallText(desk, x.key)
    ensures x.operation == BOOKING
  {
    hide Approved, Asked, Firefly.Safe, AllPaid, WellLogged, Grown, OthersSettled, LandedIsHeld, SaysSo, CallText;
    assert Holds(j.ledger.groups, CallText(desk, x.key));
  }

  /** Two bookings let through by one question: the first has a result that spent nothing, so nothing
      live stands under its key. */
  lemma EarlierStandsNoMore(desk: Desk, j: Joint, m: nat, n: nat)
    requires JointSafe(desk, j) && m < n < |j.loop.store.executions|
    requires var x, y := j.loop.store.executions[m], j.loop.store.executions[n];
             x.yes.Some? && x.yes == y.yes && x.operation == BOOKING && y.operation == BOOKING
    ensures !HoldsLive(j.ledger.groups, CallText(desk, j.loop.store.executions[m].key))
  {
    hide Firefly.Safe, WellLogged, Grown, OthersSettled, LandedIsHeld, SaysSo, CallText, HoldsLive, Sourced, Awaited,
      Good, TurnApproved, ConfirmedOnRecord, ExecutionsAuthorised, AskedFor;
    var x, y := j.loop.store.executions[m], j.loop.store.executions[n];
    SameYesSameArguments(j.loop.store, x, y);
  }

  /** The same of a booking in flight under a question that let an earlier one through. */
  lemma EarlierThanInFlight(desk: Desk, j: Joint, x: Execution)
    requires JointSafe(desk, j) && j.call.Some? && BooksNow(j.loop) && x in j.loop.store.executions
    requires x.operation == BOOKING && x.yes.Some? && x.yes == j.loop.turn.value.phase.yes
    ensures !HoldsLive(j.ledger.groups, CallText(desk, x.key))
  {
    hide Firefly.Safe, WellLogged, Grown, OthersSettled, LandedIsHeld, SaysSo, CallText, HoldsLive, Sourced, Awaited,
      RepeatsAreUnspent, ConfirmedOnRecord;
    var store, t := j.loop.store, j.loop.turn.value;
    var (call, key, q) := (t.phase.call, t.phase.key, x.yes.value);
    assert Authorised(store.conversation.entries, store.confirmed, x.operation, x.args, x.key, q);
    EarlierIsUnspent(j.loop, call, key, q, x);
  }

  /** Of two bookings let through by one question, at most one stands. */
  lemma AtMostOneStands(desk: Desk, j: Joint, x: Execution, y: Execution)
    requires JointSafe(desk, j) && x in j.loop.store.executions && y in j.loop.store.executions && x.key != y.key
    requires x.yes.Some? && x.yes == y.yes && x.operation == BOOKING && y.operation == BOOKING
    ensures !(HoldsLive(j.ledger.groups, CallText(desk, x.key)) && HoldsLive(j.ledger.groups, CallText(desk, y.key)))
  {
    hide JointSafe, CallText, HoldsLive;
    var xs := j.loop.store.executions;
    var m :| 0 <= m < |xs| && xs[m] == x;
    var n :| 0 <= n < |xs| && xs[n] == y;
    if m < n { EarlierStandsNoMore(desk, j, m, n); } else { EarlierStandsNoMore(desk, j, n, m); }
  }

  lemma OneLivePerQuestion(desk: Desk, j: Joint, i: nat, k: nat, q: nat)
    requires JointSafe(desk, j) && i < |j.ledger.groups| && k < |j.ledger.groups| && i != k
    requires j.ledger.groups[i].live && j.ledger.groups[k].live && PaidBy(desk, j, j.ledger.groups[i], q)
    ensures !PaidBy(desk, j, j.ledger.groups[k], q)
  {
    hide LoopKept, Kept, CallText;
    var groups := j.ledger.groups;
    var g, h := groups[i], groups[k];
    var xs := j.loop.store.executions;
    assert g.posting.key != h.posting.key;
    assert HoldsLive(groups, g.posting.key) && HoldsLive(groups, h.posting.key);
    forall y | y in xs && y.yes == Some(q) ensures h.posting.key != CallText(desk, y.key) {
      if h.posting.key == CallText(desk, y.key) {
        BookerUnderKey(desk, j, h, y);
        if x :| x in xs && x.yes == Some(q) && g.posting.key == CallText(desk, x.key) {
          BookerUnderKey(desk, j, g, x);
          AtMostOneStands(desk, j, x, y);
        } else {
          EarlierThanInFlight(desk, j, y);
        }
      }
    }
    if x :| x in xs && x.yes == Some(q) && g.posting.key == CallText(desk, x.key) {
      BookerUnderKey(desk, j, g, x);
      if j.call.Some? && BooksNow(j.loop) && j.loop.turn.value.phase.yes == Some(q) {
        EarlierThanInFlight(desk, j, x);
      }
    }
  }

  /** A question that was confirmed, asked for the very arguments whose orders this group books. */
  ghost predicate AskedAndOrdered(desk: Desk, store: Store, group: Ledger.Group, q: nat) {
    exists args ::
      && q in store.confirmed
      && Requested(store.conversation.entries, BOOKING, ArgsHash(args), q)
      && AsOrdered(desk, group.posting.splits, args)
  }

  lemma OrderedByItsCall(desk: Desk, j: Joint, g: Ledger.Group, x: Execution)
    requires JointSafe(desk, j) && Honoured(desk, j) && g in j.ledger.groups && x in j.loop.store.executions
    requires g.posting.key == CallText(desk, x.key)
    ensures AsOrdered(desk, g.posting.splits, x.args)
  {
    hide Approved, Asked, Firefly.Safe, AllPaid, WellLogged, Grown, OthersSettled, LandedIsHeld, SaysSo, CallText,
      AsOrdered, Sourced;
    assert OrderedUnder(desk, j, g, x.key);
  }

  lemma OrderedInFlight(desk: Desk, j: Joint, g: Ledger.Group)
    requires JointSafe(desk, j) && Honoured(desk, j) && g in j.ledger.groups && j.call.Some? && BooksNow(j.loop)
    requires g.posting.key == CallText(desk, j.loop.turn.value.phase.key)
    ensures AsOrdered(desk, g.posting.splits, j.loop.turn.value.phase.call.args)
  {
    hide Approved, Asked, Firefly.Safe, AllPaid, WellLogged, Grown, OthersSettled, LandedIsHeld, SaysSo, CallText,
      AsOrdered, Sourced;
    assert OrderedUnder(desk, j, g, j.loop.turn.value.phase.key);
  }

  lemma PayersWereAsked(desk: Desk, j: Joint, g: Ledger.Group, q: nat)
    requires JointSafe(desk, j) && Honoured(desk, j) && g in j.ledger.groups && PaidBy(desk, j, g, q)
    ensures AskedAndOrdered(desk, j.loop.store, g, q)
  {
    hide Firefly.Safe, Kept, Good, Asked, CallText, RepeatsAreUnspent, ConfirmedOnRecord, AsOrdered, Requested,
      AnswerBefore, Honoured;
    var store := j.loop.store;
    if x :| x in store.executions && x.yes == Some(q) && g.posting.key == CallText(desk, x.key) {
      assert Authorised(store.conversation.entries, store.confirmed, x.operation, x.args, x.key, x.yes.value);
      BookerUnderKey(desk, j, g, x);
      OrderedByItsCall(desk, j, g, x);
      assert Requested(store.conversation.entries, BOOKING, ArgsHash(x.args), q);
    } else {
      OrderedInFlight(desk, j, g);
      assert Requested(store.conversation.entries, BOOKING, ArgsHash(j.loop.turn.value.phase.call.args), q);
    }
  }

  /** Over every run of loop and ledger together, wherever the process dies and whatever journal the
      User deletes: a group under a key of this Conversation books what the call made under that key
      ordered; what let it through, if it needed a yes, is a question that was confirmed, asked for
      arguments that order just that; and no question let through two journals that are both live. */
  lemma EachYesPaysForOneJournal(cfg: Config, prompt: string, maxTurns: nat, desk: Desk,
                                 books: seq<Ledger.Group>, moves: seq<Move>)
    requires Untouched(desk, books)
    requires JointLegal(cfg, desk, JointBorn(prompt, maxTurns, books), moves)
    requires TrustedRun(cfg, desk, JointBorn(prompt, maxTurns, books), moves)
    ensures var j := JointRun(cfg, desk, JointBorn(prompt, maxTurns, books), moves);
            var groups := j.ledger.groups;
            && (forall g, k: nat | g in groups && g.posting.key == CallText(desk, k) :: OrderedUnder(desk, j, g, k))
            && (forall g, q | g in groups && PaidBy(desk, j, g, q) :: AskedAndOrdered(desk, j.loop.store, g, q))
            && (forall i, k, q | 0 <= i < k < |groups| && groups[i].live && groups[k].live ::
                  !(PaidBy(desk, j, groups[i], q) && PaidBy(desk, j, groups[k], q)))
  {
    hide JointRun, JointLegal, TrustedRun, JointBorn, CallText, JointSafe, PaidBy, RowsAsOrdered, OrderedUnder,
      AskedAndOrdered;
    JointRunKeeps(cfg, prompt, maxTurns, desk, books, moves);
    var j := JointRun(cfg, desk, JointBorn(prompt, maxTurns, books), moves);
    forall g, q | g in j.ledger.groups && PaidBy(desk, j, g, q) ensures AskedAndOrdered(desk, j.loop.store, g, q) {
      PayersWereAsked(desk, j, g, q);
    }
    forall i, k, q | 0 <= i < k < |j.ledger.groups| && j.ledger.groups[i].live && j.ledger.groups[k].live
      ensures !(PaidBy(desk, j, j.ledger.groups[i], q) && PaidBy(desk, j, j.ledger.groups[k], q))
    {
      if PaidBy(desk, j, j.ledger.groups[i], q) {
        OneLivePerQuestion(desk, j, i, k, q);
      }
    }
  }
}
