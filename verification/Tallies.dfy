/** How requests, answers and stamps for one call follow each other in a log. */
module Tallies {
  import opened Wrappers
  import opened CanonicalJson
  import opened Conversations
  import opened Loop
  import opened IntentLog
  import Keys

  /** One Operation with one set of arguments. */
  datatype Pair = Pair(operation: string, hash: string)

  predicate Asks(e: Entry, p: Pair) {
    IsRequest(e, p.operation, p.hash)
  }

  predicate Stamps(e: Entry, p: Pair) {
    IsStamp(e, p.operation, p.hash)
  }

  function Requests(es: seq<Entry>, p: Pair): nat {
    RequestCount(es, p.operation, p.hash)
  }

  function StampCount(es: seq<Entry>, p: Pair): nat {
    if es == [] then 0 else StampCount(es[..|es| - 1], p) + if Stamps(es[|es| - 1], p) then 1 else 0
  }

  /** A question raised to approve these arguments. */
  predicate Concerns(questions: seq<Question>, q: nat, p: Pair) {
    q < |questions| && questions[q].key.ApprovalKey? && questions[q].key.argsHash == p.hash
  }

  /** The attempt a request's question was raised for. */
  function AttemptOf(questions: seq<Question>, e: Entry): nat {
    if e.questionId.Some? && e.questionId.value < |questions| && questions[e.questionId.value].key.ApprovalKey?
    then questions[e.questionId.value].key.attempt else 0
  }

  // ------------------------------------------------------------------ the order of things

  predicate AsksHash(e: Entry, p: Pair) {
    e.kind == ApprovalRequest && e.argsHash == Some(p.hash)
  }

  /** These arguments were asked about for this Operation only; its requests carry questions of their
      own, raised for attempts in order and none beyond the count. */
  ghost predicate InOrder(es: seq<Entry>, questions: seq<Question>, p: Pair) {
    && (forall i | 0 <= i < |es| && AsksHash(es[i], p) :: Asks(es[i], p))
    && (forall i | 0 <= i < |es| && Asks(es[i], p) ::
          es[i].questionId.Some? && Concerns(questions, es[i].questionId.value, p)
          && AttemptOf(questions, es[i]) <= Requests(es, p))
    && (forall i, j | 0 <= i < j < |es| && Asks(es[i], p) && Asks(es[j], p) ::
          AttemptOf(questions, es[i]) < AttemptOf(questions, es[j]))
  }

  ghost predicate AskedBefore(es: seq<Entry>, q: nat, at: nat, p: Pair) {
    exists i :: 0 <= i < at && i < |es| && Asks(es[i], p) && es[i].questionId == Some(q)
  }

  /** An answer to such a question comes after a request for it. */
  ghost predicate AnswersFollow(es: seq<Entry>, questions: seq<Question>, p: Pair) {
    forall j | 0 <= j < |es| && es[j].kind == Answer && es[j].questionId.Some? ::
      es[j].questionId.value < |questions|
      && (Concerns(questions, es[j].questionId.value, p) ==> AskedBefore(es, es[j].questionId.value, j, p))
  }

  ghost predicate StampedBetween(es: seq<Entry>, from: int, to: nat, p: Pair) {
    exists r :: from < r < to && 0 <= r < |es| && Stamps(es[r], p)
  }

  /** Between any two requests something was stamped. */
  ghost predicate Spaced(es: seq<Entry>, p: Pair) {
    forall i, j | 0 <= i < j < |es| && Asks(es[i], p) && Asks(es[j], p) :: StampedBetween(es, i, j, p)
  }

  /** Request i was answered at a, and neither asked again nor stamped before s. */
  ghost predicate Earns(es: seq<Entry>, i: nat, a: nat, s: nat, p: Pair) {
    && i < a < s <= |es| && Asks(es[i], p)
    && es[i].questionId.Some? && IsAnswer(es[a], es[i].questionId.value)
    && forall k | i < k < s :: !Asks(es[k], p) && !Stamps(es[k], p)
  }

  ghost predicate ReadyAt(es: seq<Entry>, s: nat, p: Pair) {
    exists i, a :: Earns(es, i, a, s, p)
  }

  /** Every stamp was earned by an answered request of its own. */
  ghost predicate Earned(es: seq<Entry>, p: Pair) {
    forall s | 0 <= s < |es| && Stamps(es[s], p) :: ReadyAt(es, s, p)
  }

  /** Every request has been followed by a stamp. */
  ghost predicate Settled(es: seq<Entry>, p: Pair) {
    forall i | 0 <= i < |es| && Asks(es[i], p) :: StampedBetween(es, i, |es|, p)
  }

  ghost predicate Tally(es: seq<Entry>, questions: seq<Question>, p: Pair) {
    InOrder(es, questions, p) && AnswersFollow(es, questions, p) && Spaced(es, p) && Earned(es, p)
  }

  // ------------------------------------------------------------------ counting

  /** Requests still owed a stamp: none once all are settled, one at most. */
  lemma {:induction false} RequestsWithinStamps(es: seq<Entry>, p: Pair)
    requires Spaced(es, p)
    ensures Requests(es, p) <= StampCount(es, p) + 1
    ensures Settled(es, p) ==> Requests(es, p) <= StampCount(es, p)
  {
    if es != [] {
      var before, n := es[..|es| - 1], |es| - 1;
      SpacedPrefix(es, n, p);
      RequestsWithinStamps(before, p);
      if Asks(es[n], p) {
        forall i | 0 <= i < n && Asks(before[i], p) ensures StampedBetween(before, i, n, p) {
          assert StampedBetween(es, i, n, p);
          var r :| i < r < n && Stamps(es[r], p);
          assert Stamps(before[r], p);
        }
        assert !StampedBetween(es, n, |es|, p);
      } else if !Stamps(es[n], p) && Settled(es, p) {
        forall i | 0 <= i < n && Asks(before[i], p) ensures StampedBetween(before, i, n, p) {
          assert StampedBetween(es, i, |es|, p);
          var r :| i < r < |es| && Stamps(es[r], p);
          assert Stamps(before[r], p);
        }
      }
    }
  }

  lemma SpacedPrefix(es: seq<Entry>, n: nat, p: Pair)
    requires Spaced(es, p) && n <= |es|
    ensures Spaced(es[..n], p)
  {
  }

  /** Stamps never outnumber requests; and stand one behind while an answered request is unspent. */
  lemma {:induction false} StampsWithinRequests(es: seq<Entry>, p: Pair, n: nat)
    requires Earned(es, p) && n <= |es|
    ensures StampCount(es[..n], p) <= Requests(es[..n], p)
    ensures ReadyAt(es, n, p) ==> StampCount(es[..n], p) < Requests(es[..n], p)
    decreases n
  {
    if n > 0 {
      assert es[..n][..n - 1] == es[..n - 1];
      StampsWithinRequests(es, p, n - 1);
      var last := es[n - 1];
      if Stamps(last, p) {
        assert ReadyAt(es, n - 1, p);
      }
      if ReadyAt(es, n, p) {
        var i: nat, a: nat :| Earns(es, i, a, n, p);
        if a < n - 1 {
          assert Earns(es, i, a, n - 1, p);
        } else {
          QuietRun(es, p, i, n - 1);
        }
      }
    }
  }

  /** A request and nothing but quiet rows after it: the request is not behind a stamp yet. */
  lemma {:induction false} QuietRun(es: seq<Entry>, p: Pair, i: nat, n: nat)
    requires Earned(es, p) && i < n <= |es| && Asks(es[i], p)
    requires forall k | i < k < n :: !Asks(es[k], p) && !Stamps(es[k], p)
    ensures StampCount(es[..n], p) < Requests(es[..n], p)
    decreases n
  {
    assert es[..n][..n - 1] == es[..n - 1];
    if i == n - 1 {
      StampsWithinRequests(es, p, i);
    } else {
      QuietRun(es, p, i, n - 1);
    }
  }

  // ------------------------------------------------------------------ rows that change nothing

  predicate Quiet(row: Entry, p: Pair) {
    !AsksHash(row, p) && !Stamps(row, p) && (row.kind == Answer ==> row.questionId.None?)
  }

  /** `late` is `early` with quiet rows added, give or take tokens. */
  ghost predicate Quietly(early: seq<Entry>, late: seq<Entry>, p: Pair) {
    Grown(early, late) && forall i | |early| <= i < |late| :: Quiet(late[i], p)
  }

  lemma SameRows(early: seq<Entry>, late: seq<Entry>, p: Pair)
    requires Grown(early, late)
    ensures forall i | 0 <= i < |early| ::
              && Asks(early[i], p) == Asks(late[i], p) && AsksHash(early[i], p) == AsksHash(late[i], p)
              && Stamps(early[i], p) == Stamps(late[i], p)
              && early[i].kind == late[i].kind && early[i].questionId == late[i].questionId
  {
  }

  lemma {:induction false} QuietCount(early: seq<Entry>, late: seq<Entry>, p: Pair)
    requires Quietly(early, late, p)
    ensures Requests(late, p) == Requests(early, p) && StampCount(late, p) == StampCount(early, p)
    decreases |late|
  {
    if |late| > |early| {
      QuietCount(early, late[..|late| - 1], p);
    } else if late != [] {
      var x, y := early[..|early| - 1], late[..|late| - 1];
      assert SameButUsage(early[|early| - 1], late[|late| - 1]);
      forall i | 0 <= i < |x| ensures SameButUsage(x[i], y[i]) {
        assert SameButUsage(early[i], late[i]);
      }
      QuietCount(x, y, p);
    }
  }

  lemma StampedLater(early: seq<Entry>, late: seq<Entry>, from: int, to: nat, later: nat, p: Pair)
    requires Grown(early, late) && StampedBetween(early, from, to, p) && to <= later
    ensures StampedBetween(late, from, later, p)
  {
  }

  lemma EarnsLater(early: seq<Entry>, late: seq<Entry>, i: nat, a: nat, s: nat, p: Pair)
    requires Grown(early, late) && Earns(early, i, a, s, p)
    ensures Earns(late, i, a, s, p)
  {
  }

  lemma QuietKeepsOrder(early: seq<Entry>, late: seq<Entry>, questions: seq<Question>, p: Pair)
    requires Quietly(early, late, p) && InOrder(early, questions, p) && AnswersFollow(early, questions, p)
    ensures InOrder(late, questions, p) && AnswersFollow(late, questions, p)
  {
    SameRows(early, late, p);
    QuietCount(early, late, p);
    forall j | 0 <= j < |late| && late[j].kind == Answer && late[j].questionId.Some?
      ensures late[j].questionId.value < |questions|
      ensures Concerns(questions, late[j].questionId.value, p) ==> AskedBefore(late, late[j].questionId.value, j, p)
    {
      assert j < |early|;
      if Concerns(questions, late[j].questionId.value, p) {
        var i :| 0 <= i < j && i < |early| && Asks(early[i], p) && early[i].questionId == late[j].questionId;
        assert Asks(late[i], p) && late[i].questionId == late[j].questionId;
      }
    }
  }

  lemma QuietKeepsStamps(early: seq<Entry>, late: seq<Entry>, p: Pair)
    requires Quietly(early, late, p) && Spaced(early, p) && Earned(early, p)
    ensures Spaced(late, p) && Earned(late, p)
    ensures Settled(early, p) ==> Settled(late, p)
    ensures ReadyAt(early, |early|, p) ==> ReadyAt(late, |late|, p)
  {
    SameRows(early, late, p);
    forall i, j | 0 <= i < j < |late| && Asks(late[i], p) && Asks(late[j], p) ensures StampedBetween(late, i, j, p) {
      assert StampedBetween(early, i, j, p);
      StampedLater(early, late, i, j, j, p);
    }
    forall s | 0 <= s < |late| && Stamps(late[s], p) ensures ReadyAt(late, s, p) {
      var i: nat, a: nat :| Earns(early, i, a, s, p);
      EarnsLater(early, late, i, a, s, p);
    }
    if Settled(early, p) {
      forall i | 0 <= i < |late| && Asks(late[i], p) ensures StampedBetween(late, i, |late|, p) {
        assert StampedBetween(early, i, |early|, p);
        StampedLater(early, late, i, |early|, |late|, p);
      }
    }
    if ReadyAt(early, |early|, p) {
      var i: nat, a: nat :| Earns(early, i, a, |early|, p);
      EarnsLater(early, late, i, a, |early|, p);
      assert Earns(late, i, a, |late|, p);
    }
  }

  /** Quiet rows keep the tally, and whatever was settled or ready. */
  lemma QuietKeeps(early: seq<Entry>, late: seq<Entry>, questions: seq<Question>, p: Pair)
    requires Quietly(early, late, p) && Tally(early, questions, p)
    ensures Tally(late, questions, p)
    ensures Settled(early, p) ==> Settled(late, p)
    ensures ReadyAt(early, |early|, p) ==> ReadyAt(late, |late|, p)
  {
    QuietKeepsOrder(early, late, questions, p);
    QuietKeepsStamps(early, late, p);
  }

  /** Questions keep their keys and only ever gain company. */
  lemma TallyLater(es: seq<Entry>, old': seq<Question>, new': seq<Question>, p: Pair)
    requires Tally(es, old', p) && |old'| <= |new'| && forall q | 0 <= q < |old'| :: new'[q].key == old'[q].key
    ensures Tally(es, new', p)
  {
  }

  // ------------------------------------------------------------------ rows that count

  lemma AppendIs(es: seq<Entry>, row: Entry)
    ensures var late := Append(es, row); Grown(es, late) && |late| == |es| + 1 && SameButSeq(late[|es|], row)
  {
  }

  predicate SameButSeq(a: Entry, b: Entry) {
    a == b.(seqNo := a.seqNo)
  }

  lemma CountOfAppend(es: seq<Entry>, row: Entry, p: Pair)
    ensures Requests(Append(es, row), p) == Requests(es, p) + if Asks(row, p) then 1 else 0
  {
  }

  lemma OrderedLater(es: seq<Entry>, row: Entry, questions: seq<Question>, p: Pair)
    requires InOrder(es, questions, p) && (AsksHash(row, p) ==> Asks(row, p))
    requires Asks(row, p) ==> row.questionId.Some? && Concerns(questions, row.questionId.value, p)
                              && AttemptOf(questions, row) == Requests(es, p) + 1
    ensures InOrder(Append(es, row), questions, p)
  {
    hide Append;
    AppendIs(es, row);
    SameRows(es, Append(es, row), p);
    CountOfAppend(es, row, p);
  }

  lemma AnswersLater(es: seq<Entry>, row: Entry, questions: seq<Question>, p: Pair)
    requires AnswersFollow(es, questions, p)
    requires row.kind == Answer && row.questionId.Some? ==>
               row.questionId.value < |questions|
               && (Concerns(questions, row.questionId.value, p) ==> AskedBefore(es, row.questionId.value, |es|, p))
    ensures AnswersFollow(Append(es, row), questions, p)
  {
    hide Append, Concerns;
    var late := Append(es, row);
    AppendIs(es, row);
    SameRows(es, late, p);
    forall j | 0 <= j < |late| && late[j].kind == Answer && late[j].questionId.Some?
      ensures late[j].questionId.value < |questions|
      ensures Concerns(questions, late[j].questionId.value, p) ==> AskedBefore(late, late[j].questionId.value, j, p)
    {
      if Concerns(questions, late[j].questionId.value, p) {
        assert AskedBefore(es, late[j].questionId.value, j, p);
        AskedLater(es, late, late[j].questionId.value, j, p);
      }
    }
  }

  lemma AskedLater(early: seq<Entry>, late: seq<Entry>, q: nat, at: nat, p: Pair)
    requires Grown(early, late) && AskedBefore(early, q, at, p)
    ensures AskedBefore(late, q, at, p)
  {
  }

  lemma SpacedLater(es: seq<Entry>, row: Entry, p: Pair)
    requires Spaced(es, p) && (Asks(row, p) ==> Settled(es, p))
    ensures Spaced(Append(es, row), p)
  {
    hide Append;
    var late := Append(es, row);
    AppendIs(es, row);
    SameRows(es, late, p);
    forall i, j | 0 <= i < j < |late| && Asks(late[i], p) && Asks(late[j], p) ensures StampedBetween(late, i, j, p) {
      assert StampedBetween(es, i, j, p);
      StampedLater(es, late, i, j, j, p);
    }
  }

  lemma EarnedLater(es: seq<Entry>, row: Entry, p: Pair)
    requires Earned(es, p) && (Stamps(row, p) ==> ReadyAt(es, |es|, p))
    ensures Earned(Append(es, row), p)
    ensures ReadyAt(es, |es|, p) && !Asks(row, p) && !Stamps(row, p) ==> ReadyAt(Append(es, row), |es| + 1, p)
  {
    hide Append;
    var late := Append(es, row);
    AppendIs(es, row);
    SameRows(es, late, p);
    forall s | 0 <= s < |late| && Stamps(late[s], p) ensures ReadyAt(late, s, p) {
      var i: nat, a: nat :| Earns(es, i, a, s, p);
      EarnsLater(es, late, i, a, s, p);
    }
    if ReadyAt(es, |es|, p) && !Asks(row, p) && !Stamps(row, p) {
      var i: nat, a: nat :| Earns(es, i, a, |es|, p);
      EarnsLater(es, late, i, a, |es|, p);
      assert Earns(late, i, a, |es| + 1, p);
    }
  }

  /** A stamp on a log that is ready for one. */
  lemma StampKeeps(es: seq<Entry>, row: Entry, questions: seq<Question>, p: Pair)
    requires Tally(es, questions, p) && ReadyAt(es, |es|, p) && Stamps(row, p)
    ensures Tally(Append(es, row), questions, p)
  {
    hide Append, InOrder, AnswersFollow, Spaced, Earned;
    OrderedLater(es, row, questions, p);
    AnswersLater(es, row, questions, p);
    SpacedLater(es, row, p);
    EarnedLater(es, row, p);
  }

  /** A request on a settled log, under a question raised for the next attempt. */
  lemma RequestKeeps(es: seq<Entry>, row: Entry, questions: seq<Question>, p: Pair)
    requires Tally(es, questions, p) && Settled(es, p) && Asks(row, p)
    requires row.questionId.Some? && Concerns(questions, row.questionId.value, p)
    requires AttemptOf(questions, row) == Requests(es, p) + 1
    ensures Tally(Append(es, row), questions, p)
    ensures AskedBefore(Append(es, row), row.questionId.value, |es| + 1, p)
  {
    hide Append, InOrder, AnswersFollow, Spaced, Earned;
    OrderedLater(es, row, questions, p);
    AnswersLater(es, row, questions, p);
    SpacedLater(es, row, p);
    EarnedLater(es, row, p);
    AppendIs(es, row);
    assert Asks(Append(es, row)[|es|], p);
  }

  /** An answer to a question that was asked. */
  lemma AnswerKeeps(es: seq<Entry>, row: Entry, questions: seq<Question>, p: Pair)
    requires Tally(es, questions, p) && row.kind == Answer && row.questionId.Some?
    requires row.questionId.value < |questions|
    requires Concerns(questions, row.questionId.value, p) ==> AskedBefore(es, row.questionId.value, |es|, p)
    ensures Tally(Append(es, row), questions, p)
    ensures ReadyAt(es, |es|, p) ==> ReadyAt(Append(es, row), |es| + 1, p)
  {
    hide Append, InOrder, AnswersFollow, Spaced, Earned;
    OrderedLater(es, row, questions, p);
    AnswersLater(es, row, questions, p);
    SpacedLater(es, row, p);
    EarnedLater(es, row, p);
  }

  // ------------------------------------------------------------------ what the gate reads

  lemma {:induction false} LastRequestIsLast(es: seq<Entry>, p: Pair) returns (i: nat)
    requires LastRequest(es, p.operation, p.hash).Some?
    ensures i < |es| && es[i] == LastRequest(es, p.operation, p.hash).value && Asks(es[i], p)
    ensures forall k | i < k < |es| :: !Asks(es[k], p)
  {
    if Asks(es[|es| - 1], p) {
      i := |es| - 1;
    } else {
      i := LastRequestIsLast(es[..|es| - 1], p);
    }
  }

  lemma {:induction false} FirstAnswerIsFirst(es: seq<Entry>, q: nat) returns (a: nat)
    requires FirstAnswer(es, q).Some?
    ensures a < |es| && es[a] == FirstAnswer(es, q).value && IsAnswer(es[a], q)
    ensures forall k | 0 <= k < a :: !IsAnswer(es[k], q)
  {
    if IsAnswer(es[0], q) {
      a := 0;
    } else {
      a := FirstAnswerIsFirst(es[1..], q);
      assert forall k | 1 <= k < a + 1 :: es[k] == es[1..][k - 1];
      a := a + 1;
    }
  }

  /** The latest request's answer came after it. */
  lemma AnsweredAfter(es: seq<Entry>, questions: seq<Question>, p: Pair, i: nat, a: nat, q: nat)
    requires InOrder(es, questions, p) && AnswersFollow(es, questions, p)
    requires i < |es| && a < |es| && Asks(es[i], p) && es[i].questionId == Some(q) && IsAnswer(es[a], q)
    ensures i < a
  {
  }

  /** A valid approval: the latest request was answered, and nothing has been stamped since. */
  lemma ValidIsReady(es: seq<Entry>, questions: seq<Question>, p: Pair, q: nat)
    requires Tally(es, questions, p) && Increasing(es)
    requires FindApproval(es, p.operation, p.hash, questions) == Valid(q)
    ensures ReadyAt(es, |es|, p)
  {
    hide Spaced, InOrder, AnswersFollow;
    var i := LastRequestIsLast(es, p);
    var a := FirstAnswerIsFirst(es, q);
    AnsweredAfter(es, questions, p, i, a, q);
    forall k | i < k < |es| ensures !Stamps(es[k], p) {
      StampsFollowAnswers(es, p, i, a, q, k);
      assert k > a ==> es[k].seqNo > es[a].seqNo;
    }
    assert Earns(es, i, a, |es|, p);
  }

  lemma StampsFollowAnswers(es: seq<Entry>, p: Pair, i: nat, a: nat, q: nat, k: nat)
    requires Earned(es, p) && i < a < |es| && i < k < |es|
    requires Asks(es[i], p) && es[i].questionId == Some(q)
    requires (forall n | i < n < |es| :: !Asks(es[n], p)) && forall n | 0 <= n < a :: !IsAnswer(es[n], q)
    ensures Stamps(es[k], p) ==> k > a
  {
  }

  /** Every approval question is still there. */
  ghost predicate AllLive(questions: seq<Question>) {
    forall q | 0 <= q < |questions| && questions[q].key.ApprovalKey? :: questions[q].live
  }

  /** What a consumed or a missing approval says of the log. */
  lemma AskingReads(es: seq<Entry>, questions: seq<Question>, p: Pair)
    requires InOrder(es, questions, p) && AllLive(questions)
    requires var approval := FindApproval(es, p.operation, p.hash, questions); approval.Missing? || approval.Consumed?
    ensures LastRequest(es, p.operation, p.hash).Some? ==>
              var request := LastRequest(es, p.operation, p.hash).value;
              && request.questionId.Some? && FirstAnswer(es, request.questionId.value).Some?
              && Spent(es, p.operation, p.hash, FirstAnswer(es, request.questionId.value).value.seqNo)
  {
    hide Spent;
  }

  /** Nothing asked, or what was asked is spent: every request has its stamp. */
  lemma AskingIsSettled(es: seq<Entry>, questions: seq<Question>, p: Pair)
    requires Tally(es, questions, p) && Increasing(es) && AllLive(questions)
    requires var approval := FindApproval(es, p.operation, p.hash, questions); approval.Missing? || approval.Consumed?
    ensures Settled(es, p)
  {
    hide Spaced, Earned, InOrder, AnswersFollow, FindApproval;
    AskingReads(es, questions, p);
    if LastRequest(es, p.operation, p.hash).Some? {
      var i := LastRequestIsLast(es, p);
      var q := es[i].questionId.value;
      var a := FirstAnswerIsFirst(es, q);
      AnsweredAfter(es, questions, p, i, a, q);
      var r :| 0 <= r < |es| && Stamps(es[r], p) && es[r].seqNo > es[a].seqNo;
      forall n | 0 <= n < |es| && Asks(es[n], p) ensures StampedBetween(es, n, |es|, p) {
        assert n <= i < a < r;
      }
    }
  }
}
