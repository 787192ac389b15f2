/** Posting under concurrency: one chain of calls per key, every call a probe followed by a post, and
    every interleaving of callers, answers, failures, clean-ups and deletes. */
module Firefly {
  import opened Wrappers
  import opened Ledger

  /** How far one call of `postOnce` has come. `rows` are its splits with account ids. */
  datatype Stage =
    | Probing
    | Resolving
    | Matching(rows: seq<Split>)
    | Sending(rows: seq<Split>)
    | Colliding(rows: seq<Split>, victim: nat)
    | Resending(rows: seq<Split>)

  datatype Progress = Waiting(previous: nat) | Running(stage: Stage) | Settled(result: Result)

  /** One call of `postTransaction`. `cleaned` says its clean-up has run. */
  datatype Call = Call(key: string, thing: Option<string>, rest: string, progress: Progress, cleaned: bool)

  datatype World = World(groups: seq<Group>, calls: seq<Call>, inFlight: map<string, nat>)

  datatype Step =
    | Submit(key: string, thing: Option<string>, rest: string)
    | Start(call: nat)
    | Probe(call: nat)
    | Resolve(call: nat, rows: seq<Split>)
    | Match(call: nat)
    | Send(call: nat, answer: Answer)
    | Check(call: nat, stillThere: bool)
    | Resend(call: nat, answer: Answer)
    | Throw(call: nat)
    | CleanUp(call: nat)
    | DeleteGroup(group: nat)

  // ------------------------------------------------------------------ the steps

  /** Chain behind the call in flight under this key, or run at once; either way, be in flight. */
  function Submitted(w: World, key: string, thing: Option<string>, rest: string): World {
    var progress := if key in w.inFlight then Waiting(w.inFlight[key]) else Running(Probing);
    w.(calls := w.calls + [Call(key, thing, rest, progress, false)], inFlight := w.inFlight[key := |w.calls|])
  }

  function To(w: World, n: nat, progress: Progress): World
    requires n < |w.calls|
  {
    w.(calls := w.calls[n := w.calls[n].(progress := progress)])
  }

  predicate RunsAt(w: World, n: nat, stage: Stage -> bool) {
    n < |w.calls| && w.calls[n].progress.Running? && stage(w.calls[n].progress.stage)
  }

  /** The first live group of this Thing that books the same, if there is one. */
  function SameForThing(groups: seq<Group>, thing: Option<string>, rows: seq<Split>): (r: Option<nat>)
    ensures r.Some? ==> r.value < |groups| && thing.Some? && BooksSame(groups[r.value], thing.value, rows)
    ensures r.None? && thing.Some? ==> forall g | g in groups :: !BooksSame(g, thing.value, rows)
  {
    if groups == [] || thing.None? then None
    else
      var earlier := SameForThing(groups[..|groups| - 1], thing, rows);
      if earlier.Some? then earlier
      else if BooksSame(groups[|groups| - 1], thing.value, rows) then Some(|groups| - 1)
      else None
  }

  /** The ledger's answer to a post it does not call a duplicate: booked, refused, or booked unheard. */
  function Answered(w: World, n: nat, rows: seq<Split>, answer: Answer): World
    requires n < |w.calls|
  {
    var c := w.calls[n];
    var booked := w.(groups := w.groups + [Group(Posting(c.key, c.thing, rows, c.rest), true)]);
    match answer
    case Accepts => To(booked, n, Settled(Booked(|w.groups|)))
    case Rejects => To(w, n, Settled(Refused))
    case LosesTheAnswer => To(booked, n, Settled(Refused))
  }

  predicate Enabled(w: World, step: Step) {
    match step
    case Submit(_, _, _) => true
    case Start(n) =>
      && n < |w.calls| && w.calls[n].progress.Waiting?
      && w.calls[n].progress.previous < |w.calls| && w.calls[w.calls[n].progress.previous].progress.Settled?
    case Probe(n) => RunsAt(w, n, (s: Stage) => s.Probing?)
    case Resolve(n, _) => RunsAt(w, n, (s: Stage) => s.Resolving?)
    case Match(n) => RunsAt(w, n, (s: Stage) => s.Matching?)
    case Send(n, _) => RunsAt(w, n, (s: Stage) => s.Sending?)
    case Check(n, _) => RunsAt(w, n, (s: Stage) => s.Colliding?)
    case Resend(n, _) => RunsAt(w, n, (s: Stage) => s.Resending?)
    case Throw(n) => RunsAt(w, n, (s: Stage) => true)
    case CleanUp(n) => n < |w.calls| && w.calls[n].progress.Settled? && !w.calls[n].cleaned
    case DeleteGroup(g) => g < |w.groups| && w.groups[g].live
  }

  function Apply(w: World, step: Step): World
    requires Enabled(w, step)
  {
    match step
    case Submit(key, thing, rest) => Submitted(w, key, thing, rest)
    case Start(n) => To(w, n, Running(Probing))
    case Probe(n) =>
      var found := FindByExternalId(w.groups, w.calls[n].key, 0);
      To(w, n, if found.Some? then Settled(Existing(found.value)) else Running(Resolving))
    case Resolve(n, rows) => To(w, n, Running(Matching(rows)))
    case Match(n) =>
      var rows := w.calls[n].progress.stage.rows;
      var same := SameForThing(w.groups, w.calls[n].thing, rows);
      To(w, n, if same.Some? then Settled(Existing(same.value)) else Running(Sending(rows)))
    case Send(n, answer) =>
      var c := w.calls[n];
      var rows := c.progress.stage.rows;
      var victim := DuplicateOf(w.groups, Posting(c.key, c.thing, rows, c.rest));
      if victim.Some? then To(w, n, Running(Colliding(rows, victim.value))) else Answered(w, n, rows, answer)
    case Check(n, stillThere) =>
      To(w, n, if stillThere then Settled(Refused) else Running(Resending(w.calls[n].progress.stage.rows)))
    case Resend(n, answer) => Answered(w, n, w.calls[n].progress.stage.rows, answer)
    case Throw(n) => To(w, n, Settled(Refused))
    case CleanUp(n) => CleanedUp(w, n)
    case DeleteGroup(g) => w.(groups := w.groups[g := w.groups[g].(live := false)])
  }

  /** The entry goes only if it is still this call's own. */
  function CleanedUp(w: World, n: nat): World
    requires n < |w.calls|
  {
    var key := w.calls[n].key;
    var mine := key in w.inFlight && w.inFlight[key] == n;
    w.(calls := w.calls[n := w.calls[n].(cleaned := true)],
       inFlight := if mine then w.inFlight - {key} else w.inFlight)
  }

  // ------------------------------------------------------------------ what every interleaving keeps

  /** Calls under one key run in the order they were made: whoever has begun has every earlier one
      behind it, and whoever waits, waits for the one just before it. */
  ghost predicate InTurn(w: World) {
    forall m, n | 0 <= m < n < |w.calls| && w.calls[m].key == w.calls[n].key ::
      if w.calls[n].progress.Waiting? then m <= w.calls[n].progress.previous < n else w.calls[m].progress.Settled?
  }

  ghost predicate WaitsForOwn(w: World) {
    forall n | 0 <= n < |w.calls| && w.calls[n].progress.Waiting? ::
      w.calls[n].progress.previous < n && w.calls[w.calls[n].progress.previous].key == w.calls[n].key
  }

  /** The entry is the newest call of its key, and not yet cleaned up. */
  ghost predicate EntriesAreNewest(w: World) {
    forall key | key in w.inFlight ::
      && w.inFlight[key] < |w.calls| && w.calls[w.inFlight[key]].key == key && !w.calls[w.inFlight[key]].cleaned
      && forall n | 0 <= n < |w.calls| && w.calls[n].key == key :: n <= w.inFlight[key]
  }

  /** A key without an entry has nothing left to wait for. */
  ghost predicate AbsentAreSettled(w: World) {
    forall n | 0 <= n < |w.calls| && w.calls[n].key !in w.inFlight :: w.calls[n].progress.Settled?
  }

  /** Past the probe, a running call knows its key is nowhere in the live ledger. */
  ghost predicate ProbeHolds(w: World) {
    forall n | 0 <= n < |w.calls| && w.calls[n].progress.Running? && !w.calls[n].progress.stage.Probing? ::
      NotLive(w.groups, w.calls[n].key)
  }

  ghost predicate NotLive(groups: seq<Group>, key: string) {
    forall g | g in groups && g.live :: g.posting.key != key
  }

  ghost predicate Orderly(w: World) {
    InTurn(w) && WaitsForOwn(w) && EntriesAreNewest(w) && AbsentAreSettled(w)
  }

  ghost predicate Safe(w: World) {
    Orderly(w) && ProbeHolds(w) && UniqueKeys(w.groups)
  }

  lemma SubmitTakesTurn(w: World, key: string, thing: Option<string>, rest: string)
    requires Orderly(w)
    ensures InTurn(Submitted(w, key, thing, rest)) && WaitsForOwn(Submitted(w, key, thing, rest))
  {
    var late := Submitted(w, key, thing, rest);
    forall m, n | 0 <= m < n < |late.calls| && late.calls[m].key == late.calls[n].key
      ensures if late.calls[n].progress.Waiting? then m <= late.calls[n].progress.previous < n
              else late.calls[m].progress.Settled?
    {
      assert late.calls[m] == w.calls[m];
    }
  }

  lemma SubmitTakesEntry(w: World, key: string, thing: Option<string>, rest: string)
    requires Orderly(w)
    ensures EntriesAreNewest(Submitted(w, key, thing, rest)) && AbsentAreSettled(Submitted(w, key, thing, rest))
  {
    hide InTurn, WaitsForOwn;
  }

  lemma SubmitKeeps(w: World, key: string, thing: Option<string>, rest: string)
    requires Safe(w)
    ensures Safe(Submitted(w, key, thing, rest))
  {
    hide InTurn, WaitsForOwn, EntriesAreNewest, AbsentAreSettled, NotLive, UniqueKeys;
    SubmitTakesTurn(w, key, thing, rest);
    SubmitTakesEntry(w, key, thing, rest);
  }

  lemma StartsInTurn(w: World, n: nat)
    requires Orderly(w) && Enabled(w, Start(n))
    ensures InTurn(To(w, n, Running(Probing)))
  {
    hide EntriesAreNewest, AbsentAreSettled;
  }

  lemma StartKeeps(w: World, n: nat)
    requires Safe(w) && Enabled(w, Start(n))
    ensures Safe(To(w, n, Running(Probing)))
  {
    hide InTurn, NotLive, UniqueKeys;
    StartsInTurn(w, n);
  }

  /** A running call that settles, or moves on without booking. */
  lemma MoveKeeps(w: World, n: nat, progress: Progress)
    requires Safe(w) && n < |w.calls| && w.calls[n].progress.Running?
    requires progress.Settled? || (progress.Running? && (progress.stage.Probing? || NotLive(w.groups, w.calls[n].key)))
    ensures Safe(To(w, n, progress))
  {
  }

  /** Booking under a key the live ledger does not hold, by the one call that runs under it. */
  lemma BookingKeeps(w: World, n: nat, posting: Posting, result: Result)
    requires Safe(w) && n < |w.calls| && w.calls[n].progress.Running? && posting.key == w.calls[n].key
    requires NotLive(w.groups, posting.key)
    ensures Safe(To(w.(groups := w.groups + [Group(posting, true)]), n, Settled(result)))
  {
    BookingIsUnique(w.groups, posting);
    MoveKeeps(w, n, Settled(result));
    hide UniqueKeys, InTurn, WaitsForOwn, EntriesAreNewest, AbsentAreSettled;
    var late := To(w.(groups := w.groups + [Group(posting, true)]), n, Settled(result));
    forall m | 0 <= m < |late.calls| && late.calls[m].progress.Running? && !late.calls[m].progress.stage.Probing?
      ensures NotLive(late.groups, late.calls[m].key)
    {
      assert m != n && NotLive(w.groups, w.calls[m].key);
      if w.calls[m].key == w.calls[n].key { RunningAlone(w, m, n); }
    }
  }

  lemma BookingIsUnique(groups: seq<Group>, posting: Posting)
    requires UniqueKeys(groups) && NotLive(groups, posting.key)
    ensures UniqueKeys(groups + [Group(posting, true)])
  {
  }

  lemma RunningAlone(w: World, m: nat, n: nat)
    requires InTurn(w) && m < |w.calls| && n < |w.calls|
    requires w.calls[m].progress.Running? && w.calls[n].progress.Running? && w.calls[m].key == w.calls[n].key
    ensures m == n
  {
  }

  lemma CleanUpKeeps(w: World, n: nat)
    requires Safe(w) && Enabled(w, CleanUp(n))
    ensures Safe(Apply(w, CleanUp(n)))
  {
    hide UniqueKeys;
  }

  lemma DeleteKeeps(w: World, g: nat)
    requires Safe(w) && Enabled(w, DeleteGroup(g))
    ensures Safe(Apply(w, DeleteGroup(g)))
  {
    var late := Apply(w, DeleteGroup(g));
    forall n | 0 <= n < |late.calls| && late.calls[n].progress.Running? && !late.calls[n].progress.stage.Probing?
      ensures NotLive(late.groups, late.calls[n].key)
    {
      assert NotLive(w.groups, w.calls[n].key);
    }
  }

  lemma AnswerKeeps(w: World, n: nat, rows: seq<Split>, answer: Answer)
    requires Safe(w) && n < |w.calls| && w.calls[n].progress.Running? && !w.calls[n].progress.stage.Probing?
    ensures Safe(Answered(w, n, rows, answer))
  {
    hide Safe;
    var c := w.calls[n];
    assert NotLive(w.groups, c.key) by { ProbeStillHolds(w, n); }
    var posting := Posting(c.key, c.thing, rows, c.rest);
    match answer
    case Accepts => BookingKeeps(w, n, posting, Booked(|w.groups|));
    case Rejects => MoveKeeps(w, n, Settled(Refused));
    case LosesTheAnswer => BookingKeeps(w, n, posting, Refused);
  }

  lemma ProbeStillHolds(w: World, n: nat)
    requires Safe(w) && n < |w.calls| && w.calls[n].progress.Running? && !w.calls[n].progress.stage.Probing?
    ensures NotLive(w.groups, w.calls[n].key)
  {
  }

  lemma StepKeeps(w: World, step: Step)
    requires Safe(w) && Enabled(w, step)
    ensures Safe(Apply(w, step))
  {
    hide Safe, NotLive, Submitted, CleanedUp, Answered, To, SameForThing, DuplicateOf;
    match step
    case Submit(key, thing, rest) => SubmitKeeps(w, key, thing, rest);
    case Start(n) => StartKeeps(w, n);
    case Probe(n) =>
      var found := FindByExternalId(w.groups, w.calls[n].key, 0);
      ProbeFinds(w.groups, w.calls[n].key);
      MoveKeeps(w, n, if found.Some? then Settled(Existing(found.value)) else Running(Resolving));
    case Resolve(n, rows) =>
      ProbeStillHolds(w, n);
      MoveKeeps(w, n, Running(Matching(rows)));
    case Match(n) =>
      ProbeStillHolds(w, n);
      var rows := w.calls[n].progress.stage.rows;
      var same := SameForThing(w.groups, w.calls[n].thing, rows);
      MoveKeeps(w, n, if same.Some? then Settled(Existing(same.value)) else Running(Sending(rows)));
    case Send(n, answer) =>
      ProbeStillHolds(w, n);
      var c := w.calls[n];
      var rows := c.progress.stage.rows;
      var victim := DuplicateOf(w.groups, Posting(c.key, c.thing, rows, c.rest));
      if victim.Some? { MoveKeeps(w, n, Running(Colliding(rows, victim.value))); }
      AnswerKeeps(w, n, rows, answer);
    case Check(n, stillThere) =>
      ProbeStillHolds(w, n);
      MoveKeeps(w, n, if stillThere then Settled(Refused) else Running(Resending(w.calls[n].progress.stage.rows)));
    case Resend(n, answer) => AnswerKeeps(w, n, w.calls[n].progress.stage.rows, answer);
    case Throw(n) => MoveKeeps(w, n, Settled(Refused));
    case CleanUp(n) => CleanUpKeeps(w, n);
    case DeleteGroup(g) => DeleteKeeps(w, g);
  }

  lemma ProbeFinds(groups: seq<Group>, key: string)
    ensures FindByExternalId(groups, key, 0).None? <==> NotLive(groups, key)
  {
  }

  // ------------------------------------------------------------------ runs

  predicate Legal(w: World, steps: seq<Step>)
    decreases |steps|, 0
  {
    steps == [] ||
    (var before := steps[..|steps| - 1];
     Legal(w, before) && Enabled(Run(w, before), steps[|steps| - 1]))
  }

  function Run(w: World, steps: seq<Step>): World
    requires Legal(w, steps)
    decreases |steps|, 1
  {
    if steps == [] then w
    else Apply(Run(w, steps[..|steps| - 1]), steps[|steps| - 1])
  }

  /** A process that has just started, over the books as they stand. */
  function Fresh(groups: seq<Group>): World {
    World(groups, [], map[])
  }

  lemma {:induction false} RunKeeps(groups: seq<Group>, steps: seq<Step>)
    requires UniqueKeys(groups) && Legal(Fresh(groups), steps)
    ensures Safe(Run(Fresh(groups), steps))
  {
    if steps != [] {
      var before := steps[..|steps| - 1];
      RunKeeps(groups, before);
      StepKeeps(Run(Fresh(groups), before), steps[|steps| - 1]);
    }
  }

  /** Under any interleaving: at most one call runs per key; an entry is its key's newest call; a key
      whose calls have all settled and cleaned up has no entry; and no two live groups share a key,
      whatever was said of a deleted group when its hash was booked over. */
  lemma OneBookingPerKey(groups: seq<Group>, steps: seq<Step>)
    requires UniqueKeys(groups) && Legal(Fresh(groups), steps)
    ensures var w := Run(Fresh(groups), steps);
            && (forall m, n | 0 <= m < n < |w.calls| && w.calls[m].key == w.calls[n].key ::
                  !(w.calls[m].progress.Running? && w.calls[n].progress.Running?))
            && (forall key | key in w.inFlight ::
                  && w.inFlight[key] < |w.calls| && w.calls[w.inFlight[key]].key == key
                  && forall n | 0 <= n < |w.calls| && w.calls[n].key == key :: n <= w.inFlight[key])
            && (forall key | key in w.inFlight ::
                  exists n :: 0 <= n < |w.calls| && w.calls[n].key == key && !w.calls[n].cleaned)
            && UniqueKeys(w.groups)
  {
    RunKeeps(groups, steps);
    var w := Run(Fresh(groups), steps);
    forall key | key in w.inFlight
      ensures exists n :: 0 <= n < |w.calls| && w.calls[n].key == key && !w.calls[n].cleaned
    {
      assert w.calls[w.inFlight[key]].key == key;
    }
  }

  // ------------------------------------------------------------------ the same posting under other keys

  /** One call at work at a time, over all keys. */
  ghost predicate Serial(w: World) {
    forall m, n | 0 <= m < n < |w.calls| :: !(w.calls[m].progress.Running? && w.calls[n].progress.Running?)
  }

  ghost predicate SerialRun(w: World, steps: seq<Step>)
    requires Legal(w, steps)
  {
    Serial(Run(w, steps)) && (steps != [] ==> SerialRun(w, steps[..|steps| - 1]))
  }

  predicate PastMatch(stage: Stage) {
    stage.Sending? || stage.Colliding? || stage.Resending?
  }

  /** Past the match by content, nothing live books the same for the Thing. */
  ghost predicate MatchHolds(w: World) {
    forall n, g | 0 <= n < |w.calls| && g in w.groups && w.calls[n].progress.Running?
                  && PastMatch(w.calls[n].progress.stage) && w.calls[n].thing.Some? ::
      !BooksSame(g, w.calls[n].thing.value, w.calls[n].progress.stage.rows)
  }

  lemma OthersRest(w: World, n: nat)
    requires Serial(w) && n < |w.calls| && w.calls[n].progress.Running?
    ensures forall m | 0 <= m < |w.calls| && m != n :: !w.calls[m].progress.Running?
  {
  }

  lemma DeleteMatches(w: World, n: nat)
    requires MatchHolds(w) && NoTwins(w.groups) && n < |w.groups| && w.groups[n].live
    ensures MatchHolds(Apply(w, DeleteGroup(n))) && NoTwins(Apply(w, DeleteGroup(n)).groups)
  {
    hide SamePosting;
    var late := Apply(w, DeleteGroup(n)).groups;
    forall g | g in late && g.live ensures g in w.groups {
      var i :| 0 <= i < |late| && late[i] == g;
      assert w.groups[i] == g;
    }
  }

  lemma AnswerMatches(w: World, n: nat, rows: seq<Split>, answer: Answer)
    requires MatchHolds(w) && NoTwins(w.groups) && Serial(w) && n < |w.calls| && w.calls[n].progress.Running?
    requires PastMatch(w.calls[n].progress.stage) && rows == w.calls[n].progress.stage.rows
    ensures MatchHolds(Answered(w, n, rows, answer)) && NoTwins(Answered(w, n, rows, answer).groups)
  {
    hide SamePosting;
    OthersRest(w, n);
    if w.calls[n].thing.Some? {
      forall i | 0 <= i < |w.groups| ensures !BooksSame(w.groups[i], w.calls[n].thing.value, rows) {
        assert w.groups[i] in w.groups;
      }
    }
  }

  lemma StepMatches(w: World, step: Step)
    requires MatchHolds(w) && NoTwins(w.groups) && Serial(w) && Enabled(w, step)
    ensures MatchHolds(Apply(w, step)) && NoTwins(Apply(w, step).groups)
  {
    hide SamePosting;
    match step
    case Send(n, answer) => AnswerMatches(w, n, w.calls[n].progress.stage.rows, answer);
    case Resend(n, answer) => AnswerMatches(w, n, w.calls[n].progress.stage.rows, answer);
    case DeleteGroup(g) => DeleteMatches(w, g);
    case _ =>
  }

  /** When calls are serialised, no posting is booked that matches a group then live for its Thing,
      under whatever key: no live group books what an earlier live one of its Thing books. */
  lemma {:induction false} SerialCallsBookNoTwins(groups: seq<Group>, steps: seq<Step>)
    requires NoTwins(groups) && Legal(Fresh(groups), steps) && SerialRun(Fresh(groups), steps)
    ensures MatchHolds(Run(Fresh(groups), steps)) && NoTwins(Run(Fresh(groups), steps).groups)
  {
    if steps != [] {
      var before := steps[..|steps| - 1];
      SerialCallsBookNoTwins(groups, before);
      StepMatches(Run(Fresh(groups), before), steps[|steps| - 1]);
    }
  }

  /** How many groups there were when this call last compared what it books with what is booked. */
  function MatchedOver(w: World, steps: seq<Step>, n: nat): nat
    requires Legal(w, steps)
  {
    if steps == [] then 0
    else
      var before := steps[..|steps| - 1];
      if steps[|steps| - 1] == Match(n) then |Run(w, before).groups| else MatchedOver(w, before, n)
  }

  predicate Books(w: World, step: Step)
    requires Enabled(w, step)
  {
    match step
    case Send(n, answer) =>
      var c := w.calls[n];
      !answer.Rejects? && DuplicateOf(w.groups, Posting(c.key, c.thing, c.progress.stage.rows, c.rest)).None?
    case Resend(_, answer) => !answer.Rejects?
    case _ => false
  }

  /** A live group at or after `from` books what this call is about to. */
  predicate BookedSince(w: World, n: nat, from: nat)
    requires n < |w.calls| && w.calls[n].progress.Running? && PastMatch(w.calls[n].progress.stage)
  {
    w.calls[n].thing.Some? &&
    exists i :: from <= i < |w.groups| && BooksSame(w.groups[i], w.calls[n].thing.value, w.calls[n].progress.stage.rows)
  }

  /** Nobody books the same for that Thing between a call's match and its post. */
  ghost predicate Uncrossed(w: World, steps: seq<Step>)
    requires Legal(w, steps)
  {
    steps == [] ||
    (var before, step := steps[..|steps| - 1], steps[|steps| - 1];
     && Uncrossed(w, before)
     && (Books(Run(w, before), step) ==> !BookedSince(Run(w, before), step.call, MatchedOver(w, before, step.call))))
  }

  ghost predicate NeverTwins(w: World, steps: seq<Step>)
    requires Legal(w, steps)
  {
    NoTwins(Run(w, steps).groups) && (steps != [] ==> NeverTwins(w, steps[..|steps| - 1]))
  }

  /** Of the groups a call was compared with, none is live and books the same. */
  ghost predicate ComparedWith(w: World, n: nat, upTo: nat) {
    n < |w.calls| && w.calls[n].progress.Running? && PastMatch(w.calls[n].progress.stage) ==>
      && upTo <= |w.groups|
      && (w.calls[n].thing.Some? ==>
            forall i | 0 <= i < upTo ::
              !BooksSame(w.groups[i], w.calls[n].thing.value, w.calls[n].progress.stage.rows))
  }

  lemma StepCompares(w: World, step: Step, n: nat, upTo: nat)
    requires Enabled(w, step) && ComparedWith(w, n, upTo)
    ensures ComparedWith(Apply(w, step), n, if step == Match(n) then |w.groups| else upTo)
  {
    hide SamePosting, DuplicateOf;
    if step == Match(n) {
      var rows := w.calls[n].progress.stage.rows;
      if SameForThing(w.groups, w.calls[n].thing, rows).None? && w.calls[n].thing.Some? {
        forall i | 0 <= i < |w.groups| ensures !BooksSame(w.groups[i], w.calls[n].thing.value, rows) {
          assert w.groups[i] in w.groups;
        }
      }
    }
  }

  lemma {:induction false} RunCompares(groups: seq<Group>, steps: seq<Step>, n: nat)
    requires Legal(Fresh(groups), steps)
    ensures ComparedWith(Run(Fresh(groups), steps), n, MatchedOver(Fresh(groups), steps, n))
  {
    hide ComparedWith, Apply, Enabled;
    if steps == [] {
      NothingCompared(groups, n);
    } else {
      var before := steps[..|steps| - 1];
      RunCompares(groups, before, n);
      StepCompares(Run(Fresh(groups), before), steps[|steps| - 1], n, MatchedOver(Fresh(groups), before, n));
    }
  }

  lemma NothingCompared(groups: seq<Group>, n: nat)
    ensures ComparedWith(Fresh(groups), n, 0)
  {
  }

  /** A step leaves twins behind exactly when it books what some live group of its Thing books. */
  lemma StepTwins(w: World, step: Step, from: nat)
    requires Enabled(w, step) && NoTwins(w.groups) && (Books(w, step) ==> ComparedWith(w, step.call, from))
    requires Books(w, step) ==> w.calls[step.call].progress.Running? && PastMatch(w.calls[step.call].progress.stage)
    ensures NoTwins(Apply(w, step).groups) <==> !(Books(w, step) && BookedSince(w, step.call, from))
  {
    hide SamePosting, DuplicateOf;
    if step.DeleteGroup? { DeletedTwins(w, step.group); }
    if Books(w, step) {
      var c := w.calls[step.call];
      BookedTwins(w.groups, Posting(c.key, c.thing, c.progress.stage.rows, c.rest));
    }
  }

  lemma DeletedTwins(w: World, g: nat)
    requires NoTwins(w.groups) && Enabled(w, DeleteGroup(g))
    ensures NoTwins(Apply(w, DeleteGroup(g)).groups)
  {
    hide SamePosting;
  }

  lemma BookedTwins(groups: seq<Group>, posting: Posting)
    requires NoTwins(groups)
    ensures NoTwins(groups + [Group(posting, true)])
            <==> !(posting.thing.Some?
                   && exists i :: 0 <= i < |groups| && BooksSame(groups[i], posting.thing.value, posting.splits))
  {
    hide SamePosting;
    var late := groups + [Group(posting, true)];
    if posting.thing.Some? {
      if i :| 0 <= i < |groups| && BooksSame(groups[i], posting.thing.value, posting.splits) {
        assert late[i] == groups[i] && late[|groups|] == Group(posting, true);
      }
    }
  }

  /** In every run: no posting is ever booked twice for a Thing, under whatever keys, exactly when nobody
      books the same for that Thing between a call's match and its post. */
  lemma {:induction false} NoTwinsExactlyWhen(groups: seq<Group>, steps: seq<Step>)
    requires NoTwins(groups) && Legal(Fresh(groups), steps)
    ensures NeverTwins(Fresh(groups), steps) <==> Uncrossed(Fresh(groups), steps)
  {
    hide NoTwins, Apply, Enabled, ComparedWith, BookedSince;
    if steps != [] {
      var before, step := steps[..|steps| - 1], steps[|steps| - 1];
      NoTwinsExactlyWhen(groups, before);
      var w := Run(Fresh(groups), before);
      if NeverTwins(Fresh(groups), before) {
        BookingIsPastMatch(w, step);
        if Books(w, step) { RunCompares(groups, before, step.call); }
        StepTwins(w, step, if Books(w, step) then MatchedOver(Fresh(groups), before, step.call) else 0);
      }
    }
  }

  lemma BookingIsPastMatch(w: World, step: Step)
    requires Enabled(w, step)
    ensures Books(w, step) ==>
              && step.call < |w.calls| && w.calls[step.call].progress.Running?
              && PastMatch(w.calls[step.call].progress.stage)
  {
    hide DuplicateOf;
  }

  lemma Next(w: World, steps: seq<Step>, step: Step) returns (longer: seq<Step>)
    requires Legal(w, steps) && Enabled(Run(w, steps), step)
    ensures Legal(w, longer) && Run(w, longer) == Apply(Run(w, steps), step)
  {
    longer := steps + [step];
    assert longer[..|longer| - 1] == steps;
  }

  /** Two calls under two keys, each having looked before the other posts, book one posting twice. */
  lemma RacingCallsBookTwins(split: Split) returns (steps: seq<Step>)
    requires split.amount.Finite?
    ensures Legal(Fresh([]), steps) && !NoTwins(Run(Fresh([]), steps).groups)
  {
    hide Run, Legal;
    var w := Fresh([]);
    var rows := [split];
    steps := [];
    Nothing(w);
    steps := Next(w, steps, Submit("a", Some("t"), ""));
    steps := Next(w, steps, Submit("b", Some("t"), ""));
    steps := Next(w, steps, Probe(0));
    steps := Next(w, steps, Probe(1));
    steps := Next(w, steps, Resolve(0, rows));
    steps := Next(w, steps, Resolve(1, rows));
    steps := Next(w, steps, Match(0));
    steps := Next(w, steps, Match(1));
    steps := Next(w, steps, Send(0, Accepts));
    steps := Next(w, steps, Send(1, Accepts));
    var groups := Run(w, steps).groups;
    assert HasSame(split, rows) by { assert SameSplit(split, rows[0]); }
    assert BooksSame(groups[0], "t", groups[1].posting.splits);
  }

  lemma Nothing(w: World)
    ensures Legal(w, []) && Run(w, []) == w
  {
  }

  // ------------------------------------------------------------------ the connector

  /** The connector's own fields, and the ledger it talks to. */
  class Connector {
    var postsInFlight: map<string, nat>
    var calls: seq<Call>
    var groups: seq<Group>

    constructor (groups: seq<Group>)
      ensures Now() == Fresh(groups)
    {
      postsInFlight := map[];
      calls := [];
      this.groups := groups;
    }

    function Now(): World
      reads this
    {
      World(groups, calls, postsInFlight)
    }

    /** The synchronous part of a call: find the chain, join it, become its newest link. */
    method PostTransaction(key: string, thing: Option<string>, rest: string) returns (work: nat)
      modifies this
      ensures Now() == Submitted(old(Now()), key, thing, rest) && work == |old(calls)|
      ensures Safe(old(Now())) ==> Safe(Now())
    {
      ghost var was := Now();
      work := |calls|;
      var progress := Running(Probing);
      if key in postsInFlight {
        progress := Waiting(postsInFlight[key]);
      }
      calls := calls + [Call(key, thing, rest, progress, false)];
      postsInFlight := postsInFlight[key := work];
      if Safe(was) { SubmitKeeps(was, key, thing, rest); }
    }

    /** What follows a settled call: its entry goes, unless a newer call has taken it. */
    method CleanUp(work: nat)
      requires Safe(Now()) && Enabled(Now(), Step.CleanUp(work))
      modifies this
      ensures Safe(Now()) && Now() == Apply(old(Now()), Step.CleanUp(work))
    {
      CleanUpKeeps(Now(), work);
      var key := calls[work].key;
      if key in postsInFlight && postsInFlight[key] == work {
        postsInFlight := postsInFlight - {key};
      }
      calls := calls[work := calls[work].(cleaned := true)];
    }

    method Take(step: Step)
      requires Safe(Now()) && Enabled(Now(), step)
      modifies this
      ensures Safe(Now()) && Now() == Apply(old(Now()), step)
    {
      StepKeeps(Now(), step);
      var next := Apply(Now(), step);
      groups, calls, postsInFlight := next.groups, next.calls, next.inFlight;
    }

    /** Whatever everybody else does while call n awaits an answer. */
    method Others(n: nat)
      requires Safe(Now()) && n < |calls|
      modifies this
      ensures Safe(Now()) && n < |calls| && calls[n] == old(calls[n])
    {
      hide Safe;
      var more: nat := *;
      while more > 0
        invariant Safe(Now()) && n < |calls| && calls[n] == old(calls[n])
      {
        var step: Step := *;
        if Enabled(Now(), step) && !Touches(step, n) {
          OthersLeaveAlone(Now(), step, n);
          Take(step);
        }
        more := more - 1;
      }
    }

    /** What a settled call may tell its caller: the group it has just booked, or a live one that
        carries its key or books the same for its Thing. */
    ghost predicate Tells(n: nat)
      requires n < |calls| && calls[n].progress.Settled?
      reads this
    {
      var c := calls[n];
      match c.progress.result
      case Booked(id) =>
        id + 1 == |groups| && groups[id].live && groups[id].posting.key == c.key && groups[id].posting.thing == c.thing
      case Existing(id) =>
        id < |groups| && groups[id].live
        && (groups[id].posting.key == c.key || (c.thing.Some? && groups[id].posting.thing == c.thing))
      case Refused => true
    }

    /** One call, from its probe to its result, with everybody else at work at every await. `rows` are its
        splits once their names are resolved, if they resolve; `first` and `again` what the ledger answers to
        either post; `stands` what is said of a group the first one collides with. */
    method PostOnce(n: nat, rows: Option<seq<Split>>, first: Answer, stands: bool, again: Answer)
      requires Safe(Now()) && n < |calls| && calls[n].progress == Running(Probing)
      modifies this
      ensures Safe(Now()) && n < |calls| && calls[n].progress.Settled? && Tells(n)
      ensures calls[n].key == old(calls[n].key) && calls[n].thing == old(calls[n].thing)
      ensures calls[n].progress.result.Refused? ==> rows.None? || !first.Accepts? || stands || !again.Accepts?
      ensures calls[n].progress.result.Booked? ==> rows.Some? && groups[|groups| - 1].posting.splits == rows.value
    {
      hide Safe, Answered, SameForThing, DuplicateOf;
      Others(n);
      Take(Probe(n));
      if calls[n].progress.Settled? { return; }
      Others(n);
      if !rows.Some? {
        Take(Throw(n));
        return;
      }
      Take(Resolve(n, rows.value));
      Others(n);
      Take(Match(n));
      if calls[n].progress.Settled? { return; }
      Send(n, rows.value, first, stands, again);
    }

    /** The checked post; and over the hash of a group said to be gone, the unchecked one. */
    method Send(n: nat, rows: seq<Split>, first: Answer, stands: bool, again: Answer)
      requires Safe(Now()) && n < |calls| && calls[n].progress == Running(Sending(rows))
      modifies this
      ensures Safe(Now()) && n < |calls| && calls[n].progress.Settled? && Tells(n)
      ensures calls[n].key == old(calls[n].key) && calls[n].thing == old(calls[n].thing)
      ensures !calls[n].progress.result.Existing?
      ensures calls[n].progress.result.Refused? ==> !first.Accepts? || stands || !again.Accepts?
      ensures calls[n].progress.result.Booked? ==> groups[|groups| - 1].posting.splits == rows
    {
      hide Safe, DuplicateOf;
      Others(n);
      Take(Step.Send(n, first));
      if calls[n].progress.Settled? { return; }
      Others(n);
      Take(Check(n, stands));
      if stands { return; }
      Others(n);
      Take(Resend(n, again));
    }
  }

  /** The steps only call n itself, or its clean-up, takes. */
  predicate Touches(step: Step, n: nat) {
    match step
    case Submit(_, _, _) => false
    case DeleteGroup(_) => false
    case _ => step.call == n
  }

  lemma OthersLeaveAlone(w: World, step: Step, n: nat)
    requires Enabled(w, step) && !Touches(step, n) && n < |w.calls|
    ensures n < |Apply(w, step).calls| && Apply(w, step).calls[n] == w.calls[n]
  {
  }
}
