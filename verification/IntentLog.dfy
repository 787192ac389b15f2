/** What every row the loop appends keeps true of the intent log. */
module IntentLog {
  import opened Wrappers
  import opened CanonicalJson
  import opened Conversations
  import opened Loop

  ghost predicate Increasing(es: seq<Entry>) {
    forall i, j | 0 <= i < j < |es| :: es[i].seqNo < es[j].seqNo
  }

  /** A result names the Operation its intent named, and stamps no arguments but the intent's. */
  ghost predicate Matches(result: Entry, intent: Entry) {
    && result.toolName == intent.toolName
    && (result.argsHash.Some? ==> result.argsHash == Some(ArgsHash(intent.toolArgs)))
  }

  /** Rows are numbered in order; an intent is keyed by its own number, a result by an earlier one. */
  ghost predicate Ordered(es: seq<Entry>) {
    && Increasing(es)
    && (forall i | 0 <= i < |es| && es[i].kind == ToolIntent :: es[i].key == Some(es[i].seqNo))
    && (forall i | 0 <= i < |es| && es[i].kind == ToolResult :: es[i].key.Some? && es[i].key.value < es[i].seqNo)
  }

  ghost predicate OneResultEach(es: seq<Entry>) {
    forall i, j | 0 <= i < j < |es| && es[i].kind == ToolResult && es[j].kind == ToolResult :: es[i].key != es[j].key
  }

  /** Every intent but the latest has its result. */
  ghost predicate LatestOpen(es: seq<Entry>) {
    forall i, j | 0 <= i < j < |es| && es[i].kind == ToolIntent && es[j].kind == ToolIntent :: Resolved(es, es[i].key)
  }

  ghost predicate ResultsMatch(es: seq<Entry>) {
    forall i, j | 0 <= i < |es| && 0 <= j < |es| && es[i].kind == ToolResult && es[j].kind == ToolIntent
                  && es[i].key == es[j].key :: Matches(es[i], es[j])
  }

  ghost predicate WellLogged(es: seq<Entry>) {
    Ordered(es) && OneResultEach(es) && LatestOpen(es) && ResultsMatch(es)
  }

  /** The key of the intent that has no result yet. */
  ghost function OpenKey(es: seq<Entry>): Option<nat> {
    var unresolved := UnresolvedIntent(es);
    if unresolved.Some? then unresolved.value.key else None
  }

  ghost predicate SameButUsage(a: Entry, b: Entry) {
    a.(usage := NoUsage) == b.(usage := NoUsage)
  }

  /** `late` is `early` grown at the end, give or take tokens added to old rows. */
  ghost predicate Grown(early: seq<Entry>, late: seq<Entry>) {
    |early| <= |late| && forall i | 0 <= i < |early| :: SameButUsage(early[i], late[i])
  }

  ghost predicate HasIntent(es: seq<Entry>, key: nat, call: Call) {
    exists i :: 0 <= i < |es| && es[i].kind == ToolIntent && es[i].key == Some(key)
                && es[i].toolName == call.operation && es[i].toolArgs == call.args
  }

  ghost predicate EndsInIntent(es: seq<Entry>, key: nat, call: Call) {
    es != [] && var last := es[|es| - 1];
    last.kind == ToolIntent && last.key == Some(key) && last.toolName == call.operation && last.toolArgs == call.args
  }

  ghost predicate Unkeyed(row: Entry) {
    row.kind != ToolIntent && row.kind != ToolResult
  }

  // ------------------------------------------------------------------ the open key

  lemma OpenKeyIs(es: seq<Entry>, key: nat)
    requires WellLogged(es)
    requires exists i :: 0 <= i < |es| && es[i].kind == ToolIntent && es[i].key == Some(key)
    requires !Resolved(es, Some(key))
    ensures OpenKey(es) == Some(key)
  {
  }

  lemma OpenKeyIsUnresolved(es: seq<Entry>)
    requires WellLogged(es) && UnresolvedIntent(es).Some?
    ensures OpenKey(es).Some? && !Resolved(es, OpenKey(es))
    ensures HasIntent(es, OpenKey(es).value,
                      Call(UnresolvedIntent(es).value.toolName, UnresolvedIntent(es).value.toolArgs))
  {
  }

  lemma IntentInHandIsUnresolved(es: seq<Entry>, key: nat, call: Call)
    requires WellLogged(es) && OpenKey(es) == Some(key) && EndsInIntent(es, key, call)
    ensures UnresolvedIntent(es) == Some(es[|es| - 1])
  {
  }

  lemma OpenKeyReads(es: seq<Entry>)
    requires WellLogged(es)
    ensures UnresolvedIntent(es).Some? <==> OpenKey(es).Some?
    ensures UnresolvedIntent(es).Some? ==> OpenKey(es) == UnresolvedIntent(es).value.key
  {
  }

  // ------------------------------------------------------------------ appending

  lemma ResolvedGrows(es: seq<Entry>, row: Entry, key: Option<nat>)
    ensures Resolved(Append(es, row), key) <==> Resolved(es, key) || (row.kind == ToolResult && row.key == key)
  {
    var late := Append(es, row);
    assert late[|es|].kind == row.kind && late[|es|].key == row.key;
    if Resolved(es, key) {
      var i :| 0 <= i < |es| && es[i].kind == ToolResult && es[i].key == key;
      assert late[i] == es[i];
    }
  }

  lemma OrderedAppend(es: seq<Entry>, row: Entry)
    requires Ordered(es)
    requires row.kind == ToolIntent ==> row.key == Some(NextSeq(es))
    requires row.kind == ToolResult ==> row.key.Some? && row.key.value < NextSeq(es)
    ensures Ordered(Append(es, row))
  {
  }

  lemma OneResultAppend(es: seq<Entry>, row: Entry)
    requires OneResultEach(es)
    requires row.kind == ToolResult ==> !Resolved(es, row.key)
    ensures OneResultEach(Append(es, row))
  {
  }

  lemma LatestOpenAppend(es: seq<Entry>, row: Entry)
    requires LatestOpen(es)
    requires row.kind == ToolIntent ==>
               forall i | 0 <= i < |es| && es[i].kind == ToolIntent :: Resolved(es, es[i].key)
    ensures LatestOpen(Append(es, row))
  {
    var late := Append(es, row);
    forall i, j | 0 <= i < j < |late| && late[i].kind == ToolIntent && late[j].kind == ToolIntent
      ensures Resolved(late, late[i].key)
    {
      assert late[i] == es[i];
      ResolvedGrows(es, row, es[i].key);
    }
  }

  lemma ResultsMatchAppend(es: seq<Entry>, row: Entry)
    requires ResultsMatch(es) && Ordered(es)
    requires row.kind == ToolIntent ==> row.key == Some(NextSeq(es))
    requires row.kind == ToolResult ==>
               forall j | 0 <= j < |es| && es[j].kind == ToolIntent && es[j].key == row.key :: Matches(row, es[j])
    ensures ResultsMatch(Append(es, row))
  {
  }

  lemma UnkeyedKeeps(es: seq<Entry>, row: Entry)
    requires WellLogged(es) && Unkeyed(row)
    ensures WellLogged(Append(es, row)) && OpenKey(Append(es, row)) == OpenKey(es)
    ensures UnresolvedIntent(Append(es, row)) == UnresolvedIntent(es)
  {
    OrderedAppend(es, row);
    OneResultAppend(es, row);
    LatestOpenAppend(es, row);
    ResultsMatchAppend(es, row);
    UnresolvedStays(es, row, 0);
  }

  lemma {:induction false} UnresolvedStays(es: seq<Entry>, row: Entry, from: nat)
    requires Unkeyed(row) && from <= |es|
    ensures UnresolvedFrom(Append(es, row), from) == UnresolvedFrom(es, from)
    decreases |es| - from
  {
    if from < |es| {
      ResolvedGrows(es, row, es[from].key);
      UnresolvedStays(es, row, from + 1);
    } else {
      assert UnresolvedFrom(Append(es, row), from + 1) == None;
    }
  }

  lemma IntentKeeps(es: seq<Entry>, row: Entry)
    requires WellLogged(es) && OpenKey(es) == None
    requires row.kind == ToolIntent && row.key == Some(NextSeq(es))
    ensures WellLogged(Append(es, row)) && OpenKey(Append(es, row)) == row.key
  {
    var late := Append(es, row);
    OpenKeyReads(es);
    OrderedAppend(es, row);
    OneResultAppend(es, row);
    LatestOpenAppend(es, row);
    ResultsMatchAppend(es, row);
    ResolvedGrows(es, row, row.key);
    assert late[|es|].kind == ToolIntent && late[|es|].key == row.key;
    OpenKeyIs(late, row.key.value);
  }

  lemma ResultKeeps(es: seq<Entry>, row: Entry)
    requires WellLogged(es) && OpenKey(es).Some?
    requires row.kind == ToolResult && row.key == OpenKey(es) && Matches(row, UnresolvedIntent(es).value)
    ensures WellLogged(Append(es, row)) && OpenKey(Append(es, row)) == None
    ensures UnresolvedIntent(Append(es, row)) == None
  {
    OpenKeyIsUnresolved(es);
    var u := UnresolvedIntent(es).value;
    var i :| 0 <= i < |es| && es[i] == u;
    forall j | 0 <= j < |es| && es[j].kind == ToolIntent && es[j].key == row.key ensures j == i {}
    OrderedAppend(es, row);
    OneResultAppend(es, row);
    LatestOpenAppend(es, row);
    ResultsMatchAppend(es, row);
    ResultClosesAll(es, row, i);
  }

  lemma ResultClosesAll(es: seq<Entry>, row: Entry, open: nat)
    requires WellLogged(es) && open < |es| && es[open].kind == ToolIntent && !Resolved(es, es[open].key)
    requires row.kind == ToolResult && row.key == es[open].key
    ensures UnresolvedIntent(Append(es, row)) == None
  {
    var late := Append(es, row);
    forall j | 0 <= j < |late| && late[j].kind == ToolIntent ensures Resolved(late, late[j].key) {
      assert late[j] == es[j];
      LastIsOpen(es, open, j);
      ResolvedGrows(es, row, es[j].key);
    }
  }

  /** No intent follows the unanswered one. */
  lemma LastIsOpen(es: seq<Entry>, open: nat, other: nat)
    requires WellLogged(es) && open < |es| && other < |es|
    requires es[open].kind == ToolIntent && es[other].kind == ToolIntent && !Resolved(es, es[open].key)
    ensures other <= open
    ensures other == open || Resolved(es, es[other].key)
  {
  }

  // ------------------------------------------------------------------ tokens change nothing here

  lemma ResolvedIgnoresUsage(a: seq<Entry>, b: seq<Entry>, key: Option<nat>)
    requires |a| == |b| && Grown(a, b)
    ensures Resolved(a, key) <==> Resolved(b, key)
  {
  }

  lemma UsageKeeps(a: seq<Entry>, b: seq<Entry>)
    requires WellLogged(a) && |a| == |b| && Grown(a, b)
    ensures WellLogged(b) && OpenKey(b) == OpenKey(a)
  {
    forall i | 0 <= i < |a| ensures SameButUsage(a[i], b[i]) {}
    forall i, j | 0 <= i < j < |b| && b[i].kind == ToolIntent && b[j].kind == ToolIntent
      ensures Resolved(b, b[i].key)
    {
      ResolvedIgnoresUsage(a, b, a[i].key);
    }
    UnresolvedIgnoresUsage(a, b, 0);
  }

  lemma {:induction false} UnresolvedIgnoresUsage(a: seq<Entry>, b: seq<Entry>, from: nat)
    requires |a| == |b| && Grown(a, b)
    ensures UnresolvedFrom(a, from).Some? <==> UnresolvedFrom(b, from).Some?
    ensures UnresolvedFrom(a, from).Some? ==> SameButUsage(UnresolvedFrom(a, from).value, UnresolvedFrom(b, from).value)
    decreases |a| - from
  {
    if from < |a| {
      assert SameButUsage(a[from], b[from]);
      ResolvedIgnoresUsage(a, b, a[from].key);
      UnresolvedIgnoresUsage(a, b, from + 1);
    }
  }

  lemma AddUsageGrows(es: seq<Entry>, at: nat, usage: Usage)
    requires at < |es|
    ensures Grown(es, AddUsage(es, at, usage)) && |AddUsage(es, at, usage)| == |es|
  {
  }

  lemma GrownTrans(a: seq<Entry>, b: seq<Entry>, c: seq<Entry>)
    requires Grown(a, b) && Grown(b, c)
    ensures Grown(a, c)
  {
  }
}
