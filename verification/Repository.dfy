/** Creating a Thing safely to retry: search by key, create, look again. */
module Repository {
  import opened Texts
  import opened Wrappers
  import opened Things

  const EXACT_MATCH_MAX_LENGTH := 100
  const PAGE := 5
  const IDEMPOTENCY_KEY := "idempotencyKey"
  const CREATED_AT := "createdAt"

  // ------------------------------------------------------------------ interleaved creators

  /** A stored Thing: the reference the store gave it, and the key it carries. */
  datatype Row = Row(ref: nat, key: string)

  /** One `create` under a key. `seen` counts the Things under the key when it last looked. */
  datatype Stage = Searching | Adding | Checking(own: nat) | Done(ref: nat, seen: Option<nat>)

  datatype Creator = Creator(key: string, stage: Stage)

  datatype World = World(rows: seq<Row>, creators: seq<Creator>)

  datatype Step =
    | Begin(key: string)
    | Search(n: nat, first: nat)
    | Add(n: nat, ref: nat)
    | Check(n: nat, page: seq<Row>)
    | CheckFails(n: nat)

  predicate Carries(row: Row, key: string) {
    row.key == key
  }

  function Count(rows: seq<Row>, key: string): nat {
    if rows == [] then 0
    else Count(rows[..|rows| - 1], key) + if Carries(rows[|rows| - 1], key) then 1 else 0
  }

  /** The least reference under this key. */
  function Least(rows: seq<Row>, key: string): (r: Option<nat>)
    ensures r.Some? ==> exists i :: 0 <= i < |rows| && Carries(rows[i], key) && rows[i].ref == r.value
    ensures r.Some? ==> forall i | 0 <= i < |rows| && Carries(rows[i], key) :: r.value <= rows[i].ref
    ensures r.None? <==> forall i | 0 <= i < |rows| :: !Carries(rows[i], key)
  {
    if rows == [] then None
    else
      var rest, last := Least(rows[..|rows| - 1], key), rows[|rows| - 1];
      if !Carries(last, key) then rest
      else if rest.Some? && rest.value <= last.ref then rest
      else Some(last.ref)
  }

  /** One page of the Things under a key: all of them when they fit, any five otherwise. */
  predicate IsPage(page: seq<Row>, rows: seq<Row>, key: string) {
    && |page| == (if Count(rows, key) < PAGE then Count(rows, key) else PAGE)
    && (forall row | row in page :: row in rows && Carries(row, key))
    && (Count(rows, key) <= PAGE ==> forall row | row in rows && Carries(row, key) :: row in page)
  }

  predicate At(w: World, n: nat, stage: Stage -> bool) {
    n < |w.creators| && stage(w.creators[n].stage)
  }

  /** The store hands back any one Thing under the key first; which, it does not say. */
  predicate Enabled(w: World, step: Step) {
    match step
    case Begin(_) => true
    case Search(n, first) =>
      && At(w, n, (s: Stage) => s.Searching?)
      && (Count(w.rows, w.creators[n].key) > 0 ==> Row(first, w.creators[n].key) in w.rows)
    case Add(n, ref) =>
      At(w, n, (s: Stage) => s.Adding?) && forall row | row in w.rows :: row.ref != ref
    case Check(n, page) => At(w, n, (s: Stage) => s.Checking?) && IsPage(page, w.rows, w.creators[n].key)
    case CheckFails(n) => At(w, n, (s: Stage) => s.Checking?)
  }

  function To(w: World, n: nat, stage: Stage): World
    requires n < |w.creators|
  {
    w.(creators := w.creators[n := w.creators[n].(stage := stage)])
  }

  function Apply(w: World, step: Step): World
    requires Enabled(w, step)
  {
    match step
    case Begin(key) => w.(creators := w.creators + [Creator(key, Searching)])
    case Search(n, first) =>
      var found := Count(w.rows, w.creators[n].key);
      To(w, n, if found > 0 then Done(first, None) else Adding)
    case Add(n, ref) =>
      To(w.(rows := w.rows + [Row(ref, w.creators[n].key)]), n, Checking(ref))
    case Check(n, page) =>
      var key := w.creators[n].key;
      var winner := Least(page, key);
      To(w, n, Done(if |page| > 1 && winner.Some? then winner.value else w.creators[n].stage.own,
                    Some(Count(w.rows, key))))
    case CheckFails(n) => To(w, n, Done(w.creators[n].stage.own, None))
  }

  // ------------------------------------------------------------------ runs

  ghost predicate Legal(w: World, steps: seq<Step>)
    decreases |steps|, 0
  {
    steps == [] ||
    (var before := steps[..|steps| - 1];
     Legal(w, before) && Enabled(Run(w, before), steps[|steps| - 1]))
  }

  ghost function Run(w: World, steps: seq<Step>): World
    requires Legal(w, steps)
    decreases |steps|, 1
  {
    if steps == [] then w
    else Apply(Run(w, steps[..|steps| - 1]), steps[|steps| - 1])
  }

  const Empty := World([], [])

  lemma {:induction false} CountIsZero(rows: seq<Row>, key: string)
    ensures Count(rows, key) == 0 <==> forall row | row in rows :: !Carries(row, key)
  {
    if rows != [] {
      CountIsZero(rows[..|rows| - 1], key);
      assert rows == rows[..|rows| - 1] + [rows[|rows| - 1]];
    }
  }

  lemma {:induction false} CountIsOne(rows: seq<Row>, key: string, row: Row)
    requires Count(rows, key) <= 1 && row in rows && Carries(row, key)
    ensures Least(rows, key) == Some(row.ref)
  {
    var rest, last := rows[..|rows| - 1], rows[|rows| - 1];
    assert rows == rest + [last];
    CountIsZero(rest, key);
    if row in rest {
      CountIsOne(rest, key, row);
    } else {
      assert Least(rest, key).None? by { LeastIsNone(rest, key); }
    }
  }

  lemma LeastIsNone(rows: seq<Row>, key: string)
    ensures Least(rows, key).None? <==> Count(rows, key) == 0
  {
  }

  /** The least reference belongs to a row under the key, and no such row has a smaller one. */
  lemma LeastIs(rows: seq<Row>, key: string)
    ensures Least(rows, key).Some? ==>
              && Row(Least(rows, key).value, key) in rows
              && forall row | row in rows && Carries(row, key) :: Least(rows, key).value <= row.ref
    ensures Least(rows, key).None? <==> Count(rows, key) == 0
  {
  }

  lemma LeastOfPage(page: seq<Row>, rows: seq<Row>, key: string)
    requires IsPage(page, rows, key) && 0 < Count(rows, key) <= PAGE
    ensures Least(page, key) == Least(rows, key) && Least(rows, key).Some?
  {
    hide Least, Count;
    LeastIs(rows, key);
    LeastIs(page, key);
    CountIsZero(page, key);
    var least := Row(Least(rows, key).value, key);
    assert least in page && Carries(least, key);
    var winner := Row(Least(page, key).value, key);
    assert winner in rows && Carries(winner, key);
  }

  // ------------------------------------------------------------------ convergence

  /** A creator that checks has its own Thing in the store; one that has looked since the last add
      returns the least reference. */
  ghost predicate Converges(w: World) {
    forall n | 0 <= n < |w.creators| ::
      var c := w.creators[n];
      match c.stage
      case Checking(own) => Row(own, c.key) in w.rows
      case Done(ref, Some(seen)) =>
        seen <= Count(w.rows, c.key)
        && (seen == Count(w.rows, c.key) && seen <= PAGE ==> Least(w.rows, c.key) == Some(ref))
      case _ => true
  }

  lemma AddCounts(rows: seq<Row>, row: Row, key: string)
    ensures Count(rows + [row], key) == Count(rows, key) + if row.key == key then 1 else 0
    ensures row.key != key ==> Least(rows + [row], key) == Least(rows, key)
  {
  }

  lemma AddConverges(w: World, n: nat, ref: nat)
    requires Converges(w) && Enabled(w, Add(n, ref))
    ensures Converges(Apply(w, Add(n, ref)))
  {
    hide Least, Count;
    var row := Row(ref, w.creators[n].key);
    forall key ensures Count(w.rows + [row], key) == Count(w.rows, key) + (if row.key == key then 1 else 0)
                       && (row.key != key ==> Least(w.rows + [row], key) == Least(w.rows, key))
    {
      AddCounts(w.rows, row, key);
    }
    assert row in w.rows + [row];
  }

  lemma CheckConverges(w: World, n: nat, page: seq<Row>)
    requires Converges(w) && Enabled(w, Check(n, page))
    ensures Converges(Apply(w, Check(n, page)))
  {
    hide Least, Count;
    var key, own := w.creators[n].key, w.creators[n].stage.own;
    CountIsZero(w.rows, key);
    assert Row(own, key) in w.rows;
    if Count(w.rows, key) <= PAGE { LeastOfPage(page, w.rows, key); }
    if Count(w.rows, key) <= 1 { CountIsOne(w.rows, key, Row(own, key)); }
  }

  lemma StepConverges(w: World, step: Step)
    requires Converges(w) && Enabled(w, step)
    ensures Converges(Apply(w, step))
  {
    hide Least, Count;
    match step
    case Add(n, ref) => AddConverges(w, n, ref);
    case Check(n, page) => CheckConverges(w, n, page);
    case _ =>
  }

  lemma {:induction false} RunConverges(steps: seq<Step>)
    requires Legal(Empty, steps)
    ensures Converges(Run(Empty, steps))
  {
    if steps != [] {
      RunConverges(steps[..|steps| - 1]);
      StepConverges(Run(Empty, steps[..|steps| - 1]), steps[|steps| - 1]);
    }
  }

  /** Among interleaved creators of a key, at most five duplicates: all whose second look came after
      the last add return the same Thing, the least. */
  lemma LateLookersAgree(steps: seq<Step>, m: nat, n: nat)
    requires Legal(Empty, steps)
    requires var w := Run(Empty, steps);
             && m < |w.creators| && n < |w.creators| && w.creators[m].key == w.creators[n].key
             && w.creators[m].stage.Done? && w.creators[n].stage.Done?
             && w.creators[m].stage.seen == w.creators[n].stage.seen == Some(Count(w.rows, w.creators[m].key))
             && Count(w.rows, w.creators[m].key) <= PAGE
    ensures var w := Run(Empty, steps);
            w.creators[m].stage.ref == w.creators[n].stage.ref
            && Least(w.rows, w.creators[m].key) == Some(w.creators[m].stage.ref)
  {
    RunConverges(steps);
  }

  // ------------------------------------------------------------------ one creator at a time

  predicate Busy(c: Creator) {
    !c.stage.Done?
  }

  ghost predicate OneAtATime(w: World, key: string) {
    forall m, n | 0 <= m < n < |w.creators| && w.creators[m].key == key && w.creators[n].key == key ::
      !(Busy(w.creators[m]) && Busy(w.creators[n]))
  }

  ghost predicate SerialRun(w: World, steps: seq<Step>, key: string)
    requires Legal(w, steps)
  {
    OneAtATime(Run(w, steps), key) && (steps != [] ==> SerialRun(w, steps[..|steps| - 1], key))
  }

  /** At most one Thing under the key; whoever is about to add finds none; whoever returned, returned it. */
  ghost predicate Single(w: World, key: string) {
    && Count(w.rows, key) <= 1
    && forall n | 0 <= n < |w.creators| && w.creators[n].key == key ::
         match w.creators[n].stage
         case Adding => Count(w.rows, key) == 0
         case Checking(own) => Row(own, key) in w.rows
         case Done(ref, _) => Row(ref, key) in w.rows
         case _ => true
  }

  lemma SerialAdd(w: World, n: nat, ref: nat, key: string)
    requires Single(w, key) && OneAtATime(w, key) && Enabled(w, Add(n, ref))
    ensures Single(Apply(w, Add(n, ref)), key)
  {
    hide Count, Least;
    var row := Row(ref, w.creators[n].key);
    AddCounts(w.rows, row, key);
    assert row in w.rows + [row];
    if row.key == key { OthersAreDone(w, n, key); }
  }

  lemma OthersAreDone(w: World, n: nat, key: string)
    requires OneAtATime(w, key) && n < |w.creators| && w.creators[n].key == key && Busy(w.creators[n])
    ensures forall m | 0 <= m < |w.creators| && m != n && w.creators[m].key == key :: w.creators[m].stage.Done?
  {
  }

  lemma SerialCheck(w: World, n: nat, page: seq<Row>, key: string)
    requires Single(w, key) && Enabled(w, Check(n, page))
    ensures Single(Apply(w, Check(n, page)), key)
  {
    hide Count, Least;
  }

  lemma SerialStep(w: World, step: Step, key: string)
    requires Single(w, key) && OneAtATime(w, key) && Enabled(w, step)
    ensures Single(Apply(w, step), key)
  {
    hide Count, Least;
    match step
    case Add(n, ref) => SerialAdd(w, n, ref, key);
    case Check(n, page) => SerialCheck(w, n, page, key);
    case _ =>
  }

  lemma {:induction false} SerialRunIsSingle(steps: seq<Step>, key: string)
    requires Legal(Empty, steps) && SerialRun(Empty, steps, key)
    ensures Single(Run(Empty, steps), key)
  {
    if steps != [] {
      SerialRunIsSingle(steps[..|steps| - 1], key);
      SerialStep(Run(Empty, steps[..|steps| - 1]), steps[|steps| - 1], key);
    }
  }

  /** Serialised creators of a key leave one Thing under it, and all return that one. */
  lemma SerialCreatorsShare(steps: seq<Step>, key: string)
    requires Legal(Empty, steps) && SerialRun(Empty, steps, key)
    ensures var w := Run(Empty, steps);
            && Count(w.rows, key) <= 1
            && forall n | 0 <= n < |w.creators| && w.creators[n].key == key && w.creators[n].stage.Done? ::
                 Count(w.rows, key) == 1 && Least(w.rows, key) == Some(w.creators[n].stage.ref)
  {
    SerialRunIsSingle(steps, key);
    var w := Run(Empty, steps);
    forall n | 0 <= n < |w.creators| && w.creators[n].key == key && w.creators[n].stage.Done?
      ensures Count(w.rows, key) == 1 && Least(w.rows, key) == Some(w.creators[n].stage.ref)
    {
      CountIsOne(w.rows, key, Row(w.creators[n].stage.ref, key));
      CountIsZero(w.rows, key);
    }
  }

  // ------------------------------------------------------------------ exactly when one Thing is left

  /** Nobody adds a Thing under the key while one stands under it. */
  ghost predicate AddsAlone(w: World, steps: seq<Step>, key: string)
    requires Legal(w, steps)
  {
    steps == [] ||
    (var before, step := steps[..|steps| - 1], steps[|steps| - 1];
     && AddsAlone(w, before, key)
     && (step.Add? && Run(w, before).creators[step.n].key == key ==> Count(Run(w, before).rows, key) == 0))
  }

  /** At most one Thing under the key, and whoever returned, returned it. */
  ghost predicate OneThing(w: World, key: string) {
    && Count(w.rows, key) <= 1
    && forall n | 0 <= n < |w.creators| && w.creators[n].key == key && w.creators[n].stage.Done? ::
         Row(w.creators[n].stage.ref, key) in w.rows
  }

  /** And whoever is about to look again has added it. */
  ghost predicate OneThingKept(w: World, key: string) {
    && OneThing(w, key)
    && forall n | 0 <= n < |w.creators| && w.creators[n].key == key && w.creators[n].stage.Checking? ::
         Row(w.creators[n].stage.own, key) in w.rows
  }

  lemma AloneStep(w: World, step: Step, key: string)
    requires OneThingKept(w, key) && Enabled(w, step)
    requires step.Add? && w.creators[step.n].key == key ==> Count(w.rows, key) == 0
    ensures OneThingKept(Apply(w, step), key)
  {
    hide Count, Least;
    match step
    case Add(n, ref) =>
      var row := Row(ref, w.creators[n].key);
      AddCounts(w.rows, row, key);
      assert row in w.rows + [row];
    case _ =>
  }

  lemma {:induction false} AloneKeepsOne(steps: seq<Step>, key: string)
    requires Legal(Empty, steps) && AddsAlone(Empty, steps, key)
    ensures OneThingKept(Run(Empty, steps), key)
  {
    if steps != [] {
      AloneKeepsOne(steps[..|steps| - 1], key);
      AloneStep(Run(Empty, steps[..|steps| - 1]), steps[|steps| - 1], key);
    }
  }

  lemma ThingsStay(w: World, step: Step, key: string)
    requires Enabled(w, step)
    ensures Count(Apply(w, step).rows, key)
            == Count(w.rows, key) + if step.Add? && w.creators[step.n].key == key then 1 else 0
  {
    hide Count, Least;
    if step.Add? { AddCounts(w.rows, Row(step.ref, w.creators[step.n].key), key); }
  }

  lemma {:induction false} OverlapLeavesTwo(steps: seq<Step>, key: string)
    requires Legal(Empty, steps) && !AddsAlone(Empty, steps, key)
    ensures Count(Run(Empty, steps).rows, key) > 1
  {
    hide Count, Apply, Enabled;
    var before := steps[..|steps| - 1];
    ThingsStay(Run(Empty, before), steps[|steps| - 1], key);
    if !AddsAlone(Empty, before, key) { OverlapLeavesTwo(before, key); }
  }

  /** In every run, crashes and failing second looks included: one Thing is left under the key and every
      creator that has returned, returned it, exactly when nobody added over a Thing that stood there. */
  lemma OneThingExactlyWhen(steps: seq<Step>, key: string)
    requires Legal(Empty, steps)
    ensures OneThing(Run(Empty, steps), key) <==> AddsAlone(Empty, steps, key)
  {
    hide AddsAlone, Run, Legal, Count;
    if AddsAlone(Empty, steps, key) {
      AloneKeepsOne(steps, key);
    } else {
      OverlapLeavesTwo(steps, key);
    }
  }

  // ------------------------------------------------------------------ what the looks do not do

  lemma Next(w: World, steps: seq<Step>, step: Step) returns (longer: seq<Step>)
    requires Legal(w, steps) && Enabled(Run(w, steps), step)
    ensures Legal(w, longer) && Run(w, longer) == Apply(Run(w, steps), step)
  {
    longer := steps + [step];
    assert longer[..|longer| - 1] == steps;
  }

  /** No two Things go by one reference. */
  ghost predicate RefsDiffer(rows: seq<Row>) {
    forall i, j | 0 <= i < j < |rows| :: rows[i].ref != rows[j].ref
  }

  lemma {:induction false} TwoOfAKey(rows: seq<Row>, key: string)
    requires Count(rows, key) > 1
    ensures exists i, j :: 0 <= i < j < |rows| && Carries(rows[i], key) && Carries(rows[j], key)
  {
    var before, last := rows[..|rows| - 1], rows[|rows| - 1];
    if Carries(last, key) {
      CountIsZero(before, key);
      var row :| row in before && Carries(row, key);
      var i :| 0 <= i < |before| && before[i] == row;
      assert Carries(rows[i], key) && Carries(rows[|rows| - 1], key);
    } else {
      TwoOfAKey(before, key);
      var i, j :| 0 <= i < j < |before| && Carries(before[i], key) && Carries(before[j], key);
      assert Carries(rows[i], key) && Carries(rows[j], key);
    }
  }

  lemma {:induction false} RefsStayApart(steps: seq<Step>)
    requires Legal(Empty, steps)
    ensures RefsDiffer(Run(Empty, steps).rows)
  {
    hide Count, Least;
    if steps != [] { RefsStayApart(steps[..|steps| - 1]); }
  }

  /** In every reachable state a first look gives the least Thing of the key, whichever the store lists
      first, exactly when no more than one Thing carries the key. */
  lemma FirstLookAgreesExactlyWhen(steps: seq<Step>, n: nat)
    requires Legal(Empty, steps)
    requires n < |Run(Empty, steps).creators| && Run(Empty, steps).creators[n].stage.Searching?
    ensures var w := Run(Empty, steps);
            var key := w.creators[n].key;
            (forall first: nat | Enabled(w, Search(n, first)) && Count(w.rows, key) > 0 ::
               Apply(w, Search(n, first)).creators[n].stage == Done(first, None) && Least(w.rows, key) == Some(first))
            <==> Count(w.rows, key) <= 1
  {
    hide Count, Least, Run, Legal;
    RefsStayApart(steps);
    var w := Run(Empty, steps);
    var key := w.creators[n].key;
    if Count(w.rows, key) <= 1 {
      forall first: nat | Enabled(w, Search(n, first)) && Count(w.rows, key) > 0
        ensures Least(w.rows, key) == Some(first)
      {
        CountIsOne(w.rows, key, Row(first, key));
      }
    } else {
      TwoOfAKey(w.rows, key);
      var i, j :| 0 <= i < j < |w.rows| && Carries(w.rows[i], key) && Carries(w.rows[j], key);
      assert w.rows[i] == Row(w.rows[i].ref, key) && w.rows[j] == Row(w.rows[j].ref, key);
      assert Enabled(w, Search(n, w.rows[i].ref)) && Enabled(w, Search(n, w.rows[j].ref));
    }
  }

  /** Two creators that both look before either adds. */
  lemma TwoCreatorsRace(key: string) returns (steps: seq<Step>)
    ensures Legal(Empty, steps)
    ensures Run(Empty, steps) == World([Row(1, key), Row(2, key)],
                                       [Creator(key, Checking(1)), Creator(key, Checking(2))])
  {
    hide Run, Legal, Least;
    steps := [];
    Nothing(Empty);
    steps := Next(Empty, steps, Begin(key));
    steps := Next(Empty, steps, Begin(key));
    steps := Next(Empty, steps, Search(0, 0));
    steps := Next(Empty, steps, Search(1, 0));
    steps := Next(Empty, steps, Add(0, 1));
    steps := Next(Empty, steps, Add(1, 2));
  }

  /** They agree at the second look. */
  lemma TwoCreatorsAgree(key: string) returns (steps: seq<Step>)
    ensures Legal(Empty, steps)
    ensures Run(Empty, steps) == World([Row(1, key), Row(2, key)],
                                       [Creator(key, Done(1, Some(2))), Creator(key, Done(1, Some(2)))])
  {
    hide Run, Legal, Least, Count;
    var page := [Row(1, key), Row(2, key)];
    steps := TwoCreatorsRace(key);
    TwoRows(key);
    steps := Next(Empty, steps, Check(0, page));
    steps := Next(Empty, steps, Check(1, page));
  }

  /** Converging happens at the second look only: once two creators have left two Things, a later
      creator is handed whichever the store lists first, and that need not be the one they agreed on. */
  lemma FirstLookMayDiverge(key: string) returns (steps: seq<Step>)
    ensures Legal(Empty, steps)
    ensures Run(Empty, steps).creators
            == [Creator(key, Done(1, Some(2))), Creator(key, Done(1, Some(2))), Creator(key, Done(2, None))]
  {
    hide Run, Legal, Least, Count;
    steps := TwoCreatorsAgree(key);
    TwoRows(key);
    steps := Next(Empty, steps, Begin(key));
    var w := Run(Empty, steps);
    assert w.rows[1] == Row(2, key) && w.creators[2] == Creator(key, Searching);
    steps := Next(Empty, steps, Search(2, 2));
  }

  /** A second look is not enough either: the first creator looks again before the second one has added. */
  lemma SecondLookMayDiverge(key: string) returns (steps: seq<Step>)
    ensures Legal(Empty, steps)
    ensures Run(Empty, steps).creators == [Creator(key, Done(2, Some(1))), Creator(key, Done(1, Some(2)))]
  {
    hide Run, Legal, Least, Count;
    steps := [];
    Nothing(Empty);
    OneRow(2, key);
    OutOfOrder(key);
    steps := Next(Empty, steps, Begin(key));
    steps := Next(Empty, steps, Begin(key));
    assert Count([], key) == 0 by { CountIsZero([], key); }
    steps := Next(Empty, steps, Search(0, 0));
    steps := Next(Empty, steps, Search(1, 0));
    steps := Next(Empty, steps, Add(0, 2));
    assert Run(Empty, steps) == World([Row(2, key)], [Creator(key, Checking(2)), Creator(key, Adding)]);
    steps := Next(Empty, steps, Check(0, [Row(2, key)]));
    steps := Next(Empty, steps, Add(1, 1));
    assert Run(Empty, steps)
           == World([Row(2, key), Row(1, key)], [Creator(key, Done(2, Some(1))), Creator(key, Checking(1))]);
    steps := Next(Empty, steps, Check(1, [Row(2, key), Row(1, key)]));
  }

  lemma OneRow(ref: nat, key: string)
    ensures Count([Row(ref, key)], key) == 1 && Least([Row(ref, key)], key) == Some(ref)
  {
    assert [Row(ref, key)][..0] == [];
    assert Count([], key) == 0 && Least([], key) == None;
  }

  lemma OutOfOrder(key: string)
    ensures Count([Row(2, key), Row(1, key)], key) == 2 && Least([Row(2, key), Row(1, key)], key) == Some(1)
  {
    OneRow(2, key);
    assert [Row(2, key), Row(1, key)][..1] == [Row(2, key)];
  }

  /** Everyone that has returned under the key returned one Thing. */
  ghost predicate AllAgree(w: World, key: string) {
    forall m, n | 0 <= m < n < |w.creators| && w.creators[m].key == key && w.creators[n].key == key
                  && w.creators[m].stage.Done? && w.creators[n].stage.Done? ::
      w.creators[m].stage.ref == w.creators[n].stage.ref
  }

  /** Whatever the store lists first and however the looks fall, all creators of a key agree in all runs
      exactly when none may add while a Thing stands under the key. */
  lemma CreatorsAgreeExactlyWhen(key: string, overlaps: bool)
    ensures (forall steps | Legal(Empty, steps) && (overlaps || AddsAlone(Empty, steps, key)) ::
               AllAgree(Run(Empty, steps), key))
            <==> !overlaps
  {
    hide AddsAlone, Run, Legal, Count;
    if overlaps {
      var steps := SecondLookMayDiverge(key);
      var w := Run(Empty, steps);
      assert w.creators[0].stage.ref == 2 && w.creators[1].stage.ref == 1;
      assert !AllAgree(w, key);
    } else {
      forall steps | Legal(Empty, steps) && AddsAlone(Empty, steps, key) ensures AllAgree(Run(Empty, steps), key) {
        AloneKeepsOne(steps, key);
        OneIsShared(Run(Empty, steps), key);
      }
    }
  }

  lemma OneIsShared(w: World, key: string)
    requires OneThing(w, key)
    ensures AllAgree(w, key)
  {
    hide Count, Least;
    forall n | 0 <= n < |w.creators| && w.creators[n].key == key && w.creators[n].stage.Done?
      ensures Least(w.rows, key) == Some(w.creators[n].stage.ref)
    {
      CountIsOne(w.rows, key, Row(w.creators[n].stage.ref, key));
    }
  }

  lemma TwoRows(key: string)
    ensures Count([Row(1, key), Row(2, key)], key) == 2 && Least([Row(1, key), Row(2, key)], key) == Some(1)
  {
    var rows, first, none := [Row(1, key), Row(2, key)], [Row(1, key)], [];
    assert rows[..1] == first && first[..0] == none;
    assert Count(none, key) == 0 && Least(none, key) == None;
    assert Count(first, key) == 1 && Least(first, key) == Some(1);
  }

  lemma Nothing(w: World)
    ensures Legal(w, []) && Run(w, []) == w
  {
  }

  // ------------------------------------------------------------------ the repository

  datatype Creation = Created(ref: nat) | Found(ref: nat) | BlankKey | KeyTooLong

  /** Every document there was is there, as it was. */
  predicate Kept(before: map<nat, Data>, after: map<nat, Data>) {
    forall ref | ref in before :: ref in after && after[ref] == before[ref]
  }

  function Holders(documents: map<nat, Data>, name: string, key: string): set<nat> {
    set ref | ref in documents && Get(documents[ref], name) == Some(Scalar(key))
  }

  /** What is stored of new data: stamped, unless it says itself when it was created. */
  function Stamped(data: Data, now: string): Data {
    var created := if Get(data, CREATED_AT).Some? && data[CREATED_AT] != Null then data[CREATED_AT] else Scalar(now);
    data[CREATED_AT := created][UPDATED_AT := Scalar(now)]
  }

  lemma BodyCarries(spec: Spec, data: Data, field: Field)
    requires WellNamed(spec) && field in spec.fields
    ensures Get(Body(spec, data), field.name) == Get(data, field.property)
  {
    var keys := Names(spec.fields) + GroupNames(spec.groups);
    var values := Lookup(data, Properties(spec.fields)) + WrittenGroups(data, spec.groups);
    Collected(keys, values);
    var i :| 0 <= i < |spec.fields| && spec.fields[i] == field;
    assert keys[i] == field.name && values[i] == Get(data, field.property);
  }

  /** New data is stamped with the moment it is stored, twice over unless it says when it was created, and
      is otherwise as it was. */
  lemma StampedMeans(data: Data, now: string)
    ensures var stamped := Stamped(data, now);
            && Get(stamped, "updatedAt") == Some(Scalar(now))
            && Get(stamped, "createdAt")
               == (if Get(data, "createdAt") in {None, Some(Null)} then Some(Scalar(now)) else Get(data, "createdAt"))
            && forall k | k !in {"updatedAt", "createdAt"} :: Get(stamped, k) == Get(data, k)
  {
  }

  lemma StampsKeepTheKey(data: Data, now: string)
    ensures Get(Stamped(data, now), IDEMPOTENCY_KEY) == Get(data, IDEMPOTENCY_KEY)
  {
  }

  /** Whether a step is this creator's. */
  predicate Takes(step: Step, n: nat) {
    match step
    case Begin(_) => false
    case Search(m, _) => m == n
    case Add(m, _) => m == n
    case Check(m, _) => m == n
    case CheckFails(m) => m == n
  }

  predicate Searchable(key: Option<string>) {
    key.Some? && !Blank(key.value) && |key.value| <= EXACT_MATCH_MAX_LENGTH
  }

  /** The root bodies of one Model's documents, by reference; what searches by key see of them; and the
      creators at work on them. */
  class ThingRepository {
    const keyName: string
    var documents: map<nat, Data>
    var rows: seq<Row>
    var creators: seq<Creator>
    ghost var steps: seq<Step>

    constructor (keyName: string)
      ensures documents == map[] && creators == [] && steps == [] && this.keyName == keyName && Valid()
    {
      this.keyName := keyName;
      documents, rows, creators, steps := map[], [], [], [];
    }

    function Now(): World
      reads this
    {
      World(rows, creators)
    }

    predicate Holds(ref: nat, key: string)
      reads this
    {
      ref in documents && Get(documents[ref], keyName) == Some(Scalar(key))
    }

    /** A search by key sees exactly the documents that carry it. */
    ghost predicate Indexed()
      reads this
    {
      forall ref, key :: Row(ref, key) in rows <==> Holds(ref, key)
    }

    /** The creators have come this far in one run of the interleaved ones. */
    ghost predicate Valid()
      reads this
    {
      Legal(Empty, steps) && Run(Empty, steps) == Now() && Indexed()
    }

    /** What a document shows, if there is one. */
    method Read(spec: Spec, ref: nat) returns (data: Option<Data>)
      ensures data == if ref in documents then Some(Projection(spec, documents[ref])) else None
    {
      if ref !in documents {
        return None;
      }
      var shown := FromDocument(spec, documents[ref]);
      return Some(shown);
    }

    /** Merge onto the raw document; what the spec does not name stays, and so does every other one. */
    method Update(spec: Spec, ref: nat, data: Data, now: string) returns (found: bool)
      modifies this`documents
      ensures found <==> ref in old(documents)
      ensures documents == if found then old(documents)[ref := UpdatedBody(spec, old(documents)[ref], data, now)]
                           else old(documents)
      ensures found && WellNamed(spec) && Resumable(spec, old(documents)[ref], data) ==>
                Projection(spec, documents[ref]) == data[UPDATED_AT := Scalar(now)]
      ensures old(Valid()) && (found ==> Get(documents[ref], keyName) == Get(old(documents)[ref], keyName)) ==> Valid()
    {
      if ref !in documents {
        return false;
      }
      if WellNamed(spec) && Resumable(spec, documents[ref], data) {
        RestartResumes(spec, documents[ref], data, now);
      }
      var mapped := ToDocument(spec, data[UPDATED_AT := Scalar(now)]);
      documents := documents[ref := documents[ref] + mapped];
      return true;
    }

    /** One step of some creator; what an add stores is this body. */
    method Take(step: Step, body: Data)
      requires Valid() && Enabled(Now(), step)
      requires step.Add? ==>
                 step.ref !in documents && Get(body, keyName) == Some(Scalar(creators[step.n].key))
      modifies this
      ensures Valid() && Now() == Apply(old(Now()), step) && steps == old(steps) + [step]
      ensures documents == if step.Add? then old(documents)[step.ref := body] else old(documents)
    {
      hide Count, Least, IsPage;
      ghost var was := Now();
      var next := Apply(Now(), step);
      rows, creators, steps := next.rows, next.creators, steps + [step];
      assert steps[..|steps| - 1] == old(steps);
      if step.Add? {
        documents := documents[step.ref := body];
        assert rows == was.rows + [Row(step.ref, was.creators[step.n].key)];
      }
    }

    /** A document no search by key finds. */
    method AddUnkeyed(ref: nat, body: Data)
      requires Valid() && ref !in documents && (Get(body, keyName).Some? ==> !Get(body, keyName).value.Scalar?)
      modifies this`documents
      ensures Valid() && documents == old(documents)[ref := body]
    {
      documents := documents[ref := body];
    }

    /** What others do meanwhile: steps of creators other than this one, and documents without a key. */
    method Others(me: nat)
      requires Valid()
      modifies this
      ensures Valid() && Kept(old(documents), documents) && old(steps) <= steps && |old(creators)| <= |creators|
      ensures me < |old(creators)| ==> creators[me] == old(creators)[me]
      ensures forall i | |old(steps)| <= i < |steps| :: !Takes(steps[i], me)
    {
      hide Run, Legal, Count, Least, IsPage, Valid;
      var more: nat := *;
      while more > 0
        invariant Valid() && Kept(old(documents), documents) && old(steps) <= steps && |old(creators)| <= |creators|
        invariant me < |old(creators)| ==> creators[me] == old(creators)[me]
        invariant forall i | |old(steps)| <= i < |steps| :: !Takes(steps[i], me)
      {
        var step: Step, ref: nat, body: Data, keyed: bool := *, *, *, *;
        if keyed {
          if Enabled(Now(), step) && !Takes(step, me)
             && (step.Add? ==>
                   step.ref !in documents && Get(body, keyName) == Some(Scalar(creators[step.n].key))) {
            Take(step, body);
          }
        } else if ref !in documents && (Get(body, keyName).Some? ==> !Get(body, keyName).value.Scalar?) {
          AddUnkeyed(ref, body);
        }
        more := more - 1;
      }
    }

    /** One page of the documents under a key, in whatever order: all of them when they fit, some five
        otherwise. */
    method Page(key: string) returns (page: seq<nat>)
      ensures forall ref | ref in page :: ref in Holders(documents, keyName, key)
      ensures forall i, j | 0 <= i < j < |page| :: page[i] != page[j]
      ensures |page| == if |Holders(documents, keyName, key)| < PAGE then |Holders(documents, keyName, key)| else PAGE
      ensures |Holders(documents, keyName, key)| <= PAGE ==>
                forall ref | ref in Holders(documents, keyName, key) :: ref in page
    {
      var rest := Holders(documents, keyName, key);
      page := [];
      while rest != {} && |page| < PAGE
        invariant |page| <= PAGE && |page| + |rest| == |Holders(documents, keyName, key)|
        invariant forall ref :: ref in Holders(documents, keyName, key) <==> ref in page || ref in rest
        invariant forall ref | ref in page :: ref !in rest
        invariant forall i, j | 0 <= i < j < |page| :: page[i] != page[j]
        decreases rest
      {
        var ref :| ref in rest;
        page, rest := page + [ref], rest - {ref};
      }
    }

    /** The least of some references. */
    method Winner(page: seq<nat>) returns (least: nat)
      requires page != []
      ensures least in page && forall ref | ref in page :: least <= ref
    {
      least := page[0];
      for i := 1 to |page|
        invariant least in page && forall j | 0 <= j < i :: least <= page[j]
      {
        if page[i] < least {
          least := page[i];
        }
      }
    }

    /** The search of a first look: some document under the key, or none when there is none. */
    method FirstLook(key: string, me: nat) returns (first: Option<nat>)
      requires Valid() && me < |creators| && creators[me] == Creator(key, Searching)
      modifies this
      ensures Valid() && documents == old(documents) && rows == old(rows)
      ensures first.Some? <==> Holders(documents, keyName, key) != {}
      ensures first.Some? ==> Holds(first.value, key)
      ensures exists ref :: steps == old(steps) + [Search(me, ref)]
      ensures creators == old(creators)[me := Creator(key, if first.Some? then Done(first.value, None) else Adding)]
    {
      hide Run, Legal, Least;
      var matches := Holders(documents, keyName, key);
      CountIsZero(rows, key);
      if matches == {} {
        forall row | row in rows ensures !Carries(row, key) {
          assert Row(row.ref, row.key) in rows && (Carries(row, key) ==> row.ref in matches);
        }
        Take(Search(me, 0), map[]);
        return None;
      }
      var some :| some in matches;
      assert Row(some, key) in rows;
      Take(Search(me, some), map[]);
      return Some(some);
    }

    /** The second look: the least of the page when it holds more than one, else one's own. */
    method SecondLook(key: string, me: nat, own: nat) returns (kept: nat)
      requires Valid() && me < |creators| && creators[me] == Creator(key, Checking(own)) && Holds(own, key)
      modifies this
      ensures Valid() && documents == old(documents) && rows == old(rows)
      ensures Holds(kept, key)
      ensures |Holders(documents, keyName, key)| <= PAGE ==>
                forall ref | ref in Holders(documents, keyName, key) :: kept <= ref
      ensures exists page :: steps == old(steps) + [Check(me, page)]
      ensures creators == old(creators)[me := Creator(key, Done(kept, Some(Count(rows, key))))]
    {
      hide Run, Legal, Least, Count, IsPage;
      var all := Page(key);
      kept := own;
      if |all| > 1 {
        kept := Winner(all);
      }
      var page := Seen(all, key);
      ghost var holders := Holders(documents, keyName, key);
      RefsStayApart(steps);
      CountIsHolders(rows, key, holders);
      PageIsSeen(all, rows, key, holders);
      LeastIsSeen(all, key);
      if |all| <= 1 && |holders| <= PAGE { OneHolder(holders, own); }
      Take(Check(me, page), map[]);
    }

    /** Search, create under the reference the store assigns, and look again. Others create meanwhile,
        before the search, between search and add, and before the second look, which fails unless it
        `looks`. Under a key that can be searched for, this is one of the interleaved creators. */
    method Create(spec: Spec, data: Data, key: Option<string>, now: string, looks: bool)
      returns (result: Creation, own: nat, me: nat)
      requires Valid() && WellNamed(spec) && Field(IDEMPOTENCY_KEY, keyName) in spec.fields
      requires Get(data, IDEMPOTENCY_KEY) == if key.Some? then Some(Scalar(key.value)) else None
      modifies this
      ensures Valid() && Kept(old(documents), documents) && old(steps) <= steps
      ensures result.BlankKey? <==> key.Some? && Blank(key.value)
      ensures result.KeyTooLong? <==> key.Some? && !Blank(key.value) && |key.value| > 100
      ensures result.BlankKey? || result.KeyTooLong? ==> documents == old(documents) && steps == old(steps)
      ensures result.Created? ==>
                && own !in old(documents) && own in documents && documents[own] == Body(spec, Stamped(data, now))
                && (result.ref == own || (looks && result.ref in documents))
      ensures (result.Found? || (result.Created? && key.Some?)) ==> key.Some? && Holds(result.ref, key.value)
      ensures result.Created? && looks && key.Some? && |Holders(documents, keyName, key.value)| <= 5 ==>
                forall ref | ref in Holders(documents, keyName, key.value) :: result.ref <= ref
      ensures Searchable(key) ==>
                && |old(creators)| <= me < |creators| && creators[me].key == key.value
                && (result.Found? || result.Created?)
                && creators[me].stage.Done? && creators[me].stage.ref == result.ref
                && (creators[me].stage.seen.Some? <==> result.Created? && looks)
      ensures Searchable(key) && Holders(old(documents), keyName, key.value) != {} ==> result.Found?
      ensures result.Found? ==> forall i | |old(steps)| <= i < |steps| && steps[i].Add? :: steps[i].n != me
    {
      hide Run, Legal, Count, Least, Valid, Body, Stamped;
      own, me := 0, |creators|;
      if key.None? {
        Others(me);
        own := AddNew(spec, data, now);
        result := Created(own);
        return;
      }
      if Blank(key.value) {
        return BlankKey, 0, me;
      }
      if |key.value| > EXACT_MATCH_MAX_LENGTH {
        return KeyTooLong, 0, me;
      }
      result, own := CreateUnder(spec, data, key.value, now, looks);
    }

    /** The same, as one of the creators under this key. */
    method CreateUnder(spec: Spec, data: Data, key: string, now: string, looks: bool)
      returns (result: Creation, own: nat)
      requires Valid() && WellNamed(spec) && Field(IDEMPOTENCY_KEY, keyName) in spec.fields
      requires Get(data, IDEMPOTENCY_KEY) == Some(Scalar(key))
      modifies this
      ensures Valid() && Kept(old(documents), documents) && old(steps) <= steps
      ensures result.Found? || result.Created?
      ensures Holds(result.ref, key)
      ensures result.Created? ==>
                && own !in old(documents) && own in documents && documents[own] == Body(spec, Stamped(data, now))
                && (result.ref == own || looks)
                && (looks && |Holders(documents, keyName, key)| <= PAGE ==>
                      forall ref | ref in Holders(documents, keyName, key) :: result.ref <= ref)
      ensures |old(creators)| < |creators|
      ensures var mine := creators[|old(creators)|];
              && mine.key == key && mine.stage.Done? && mine.stage.ref == result.ref
              && (mine.stage.seen.Some? <==> result.Created? && looks)
      ensures Holders(old(documents), keyName, key) != {} ==> result.Found?
      ensures result.Found? ==>
                forall i | |old(steps)| <= i < |steps| && steps[i].Add? :: steps[i].n != |old(creators)|
    {
      hide Run, Legal, Count, Least, Valid, IsPage, Body, Stamped, Apply, Enabled, Indexed;
      own := 0;
      var me := Enter(key);
      Others(me);
      var first := FirstLook(key, me);
      if first.Some? {
        return Found(first.value), 0;
      }
      Others(me);
      own := AddOwn(spec, data, key, now, me);
      result := Created(own);
      Others(me);
      if looks {
        var kept := SecondLook(key, me, own);
        result := Created(kept);
      } else {
        LeaveUnchecked(key, me, own);
      }
    }

    method Enter(key: string) returns (me: nat)
      requires Valid()
      modifies this
      ensures Valid() && documents == old(documents) && steps == old(steps) + [Begin(key)]
      ensures me == |old(creators)| && creators == old(creators) + [Creator(key, Searching)]
    {
      hide Run, Legal, Valid;
      me := |creators|;
      Take(Begin(key), map[]);
    }

    method LeaveUnchecked(key: string, me: nat, own: nat)
      requires Valid() && me < |creators| && creators[me] == Creator(key, Checking(own))
      modifies this
      ensures Valid() && documents == old(documents) && steps == old(steps) + [CheckFails(me)]
      ensures creators == old(creators)[me := Creator(key, Done(own, None))]
    {
      hide Run, Legal, Valid, Count, Least;
      Take(CheckFails(me), map[]);
    }

    /** Store a new document under a reference of its own. */
    method AddOwn(spec: Spec, data: Data, key: string, now: string, me: nat) returns (own: nat)
      requires Valid() && WellNamed(spec) && Field(IDEMPOTENCY_KEY, keyName) in spec.fields
      requires Get(data, IDEMPOTENCY_KEY) == Some(Scalar(key))
      requires me < |creators| && creators[me] == Creator(key, Adding)
      modifies this
      ensures Valid() && own !in old(documents) && steps == old(steps) + [Add(me, own)]
      ensures documents == old(documents)[own := Body(spec, Stamped(data, now))] && Holds(own, key)
      ensures creators == old(creators)[me := Creator(key, Checking(own))]
    {
      hide Run, Legal, Count, Least;
      SomeRefIsFree(documents);
      own :| own !in documents;
      var stamped := Stamped(data, now);
      var body := ToDocument(spec, stamped);
      BodyCarries(spec, stamped, Field(IDEMPOTENCY_KEY, keyName));
      StampsKeepTheKey(data, now);
      forall row | row in rows ensures row.ref != own {
        assert Row(row.ref, row.key) in rows;
      }
      Take(Add(me, own), body);
    }

    method AddNew(spec: Spec, data: Data, now: string) returns (own: nat)
      requires Valid() && WellNamed(spec) && Field(IDEMPOTENCY_KEY, keyName) in spec.fields
      requires Get(data, IDEMPOTENCY_KEY) == None
      modifies this
      ensures Valid() && own !in old(documents) && steps == old(steps)
      ensures documents == old(documents)[own := Body(spec, Stamped(data, now))]
    {
      hide Run, Legal;
      SomeRefIsFree(documents);
      own :| own !in documents;
      var stamped := Stamped(data, now);
      var body := ToDocument(spec, stamped);
      BodyCarries(spec, stamped, Field(IDEMPOTENCY_KEY, keyName));
      StampsKeepTheKey(data, now);
      AddUnkeyed(own, body);
    }
  }

  function Seen(page: seq<nat>, key: string): seq<Row> {
    seq(|page|, i requires 0 <= i < |page| => Row(page[i], key))
  }

  /** As many documents carry a key as a search counts. */
  lemma {:induction false} CountIsHolders(rows: seq<Row>, key: string, refs: set<nat>)
    requires RefsDiffer(rows) && forall ref :: ref in refs <==> Row(ref, key) in rows
    ensures |refs| == Count(rows, key)
  {
    if rows == [] {
      assert refs == {};
    } else {
      var before, last := rows[..|rows| - 1], rows[|rows| - 1];
      assert rows == before + [last];
      LastIsApart(before, last);
      var fewer := if Carries(last, key) then refs - {last.ref} else refs;
      CountIsHolders(before, key, fewer);
      if Carries(last, key) {
        assert last == Row(last.ref, key) && last in rows;
        assert refs == fewer + {last.ref};
      }
    }
  }

  lemma LastIsApart(before: seq<Row>, last: Row)
    requires RefsDiffer(before + [last])
    ensures RefsDiffer(before) && forall key :: Row(last.ref, key) !in before
  {
    var rows := before + [last];
    assert forall i | 0 <= i < |before| :: before[i].ref == rows[i].ref != rows[|before|].ref;
    assert forall i | 0 <= i < |before| :: before[i] == rows[i];
  }

  lemma PageIsSeen(page: seq<nat>, rows: seq<Row>, key: string, holders: set<nat>)
    requires forall ref :: ref in holders <==> Row(ref, key) in rows
    requires |holders| == Count(rows, key) && |page| == if |holders| < PAGE then |holders| else PAGE
    requires forall ref | ref in page :: ref in holders
    requires |holders| <= PAGE ==> forall ref | ref in holders :: ref in page
    ensures IsPage(Seen(page, key), rows, key)
  {
    hide Count;
    forall row | row in Seen(page, key) ensures row in rows && Carries(row, key) {
      var i :| 0 <= i < |page| && Seen(page, key)[i] == row;
      assert page[i] in page;
    }
    if |holders| <= PAGE {
      forall row | row in rows && Carries(row, key) ensures row in Seen(page, key) {
        assert row == Row(row.ref, key);
        var i :| 0 <= i < |page| && page[i] == row.ref;
        assert Seen(page, key)[i] == row;
      }
    }
  }

  lemma LeastIsSeen(page: seq<nat>, key: string)
    ensures page != [] ==>
              Least(Seen(page, key), key).Some?
              && Least(Seen(page, key), key).value in page
              && forall ref | ref in page :: Least(Seen(page, key), key).value <= ref
  {
    hide Least, Count;
    var seen := Seen(page, key);
    LeastIs(seen, key);
    CountIsZero(seen, key);
    if page != [] {
      assert seen[0] in seen && Carries(seen[0], key);
      forall ref | ref in page ensures Row(ref, key) in seen {
        var i :| 0 <= i < |page| && page[i] == ref;
        assert seen[i] == Row(ref, key);
      }
    }
  }

  lemma SomeRefIsFree(documents: map<nat, Data>)
    ensures exists ref: nat :: ref !in documents
  {
    if forall ref: nat :: ref in documents {
      TakesMore(documents.Keys, |documents.Keys|);
    }
  }

  lemma {:induction false} TakesMore(refs: set<nat>, n: nat)
    requires forall ref: nat | ref <= n :: ref in refs
    ensures |refs| > n
  {
    var fewer := refs - {n};
    assert |refs| == |fewer| + 1;
    if n > 0 { TakesMore(fewer, n - 1); }
  }

  /** When there is but one, it is one's own. */
  lemma OneHolder(holders: set<nat>, own: nat)
    requires own in holders && |holders| <= 1
    ensures holders == {own}
  {
    assert |holders - {own}| == |holders| - 1;
  }

  /** What is proved of all runs holds of the repository. */
  lemma RepositoryConverges(things: ThingRepository, key: string)
    requires things.Valid()
    ensures OneThing(things.Now(), key) <==> AddsAlone(Empty, things.steps, key)
    ensures SerialRun(Empty, things.steps, key) ==>
              forall ref | ref in Holders(things.documents, things.keyName, key) ::
                Holders(things.documents, things.keyName, key) == {ref}
  {
    hide Run, Legal, Count, Least, OneThing, AddsAlone, SerialRun;
    OneThingExactlyWhen(things.steps, key);
    if SerialRun(Empty, things.steps, key) {
      SerialCreatorsShare(things.steps, key);
      var holders := Holders(things.documents, things.keyName, key);
      RefsStayApart(things.steps);
      CountIsHolders(things.rows, key, holders);
      forall ref | ref in holders ensures holders == {ref} {
        OneHolder(holders, ref);
      }
    }
  }
}
