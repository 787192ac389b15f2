/** The Conversation as it is stored, and the pure functions the loop reads it with. */
module Conversations {
  import opened Wrappers
  import opened CanonicalJson

  datatype Kind =
    | Prompt
    | Reply
    | ToolIntent
    | ToolResult
    | Answer
    | Timeout
    | Note
    | ErrorNote
    | ApprovalRequest
    | Other

  /** Tokens, or prompt and completion tokens together wherever both move alike. */
  datatype Usage = Usage(prompt: nat, completion: nat)

  const NoUsage := Usage(0, 0)

  function Plus(a: Usage, b: Usage): Usage {
    Usage(a.prompt + b.prompt, a.completion + b.completion)
  }

  /** One row of the append-only log. `key` is the number n of the call key "<thingId>:<n>". */
  datatype Entry = Entry(
    seqNo: nat,
    kind: Kind,
    text: string,
    toolName: string,
    toolArgs: Json,
    key: Option<nat>,
    questionId: Option<nat>,
    argsHash: Option<string>,
    usage: Usage)

  const Blank := Entry(0, Other, "", "", Undefined, None, None, None, NoUsage)

  datatype Status = Running | Waiting | Done | Failed

  datatype Party = Nobody | User | Tool | Assistant

  datatype Conversation = Conversation(
    status: Status,
    waitingFor: Party,
    wakes: bool,
    turnCount: nat,
    maxTurns: Option<nat>,
    leased: bool,
    currentQuestion: Option<nat>,
    escalations: nat,
    entries: seq<Entry>)

  /** An Open Question; its id is its position in the store, and an id is never reused. */
  datatype Question = Question(key: Keys.Key, live: bool, confirmed: Option<bool>, spoken: bool)

  import Keys

  const MAX_ENTRIES := 100
  const ENTRY_HEADROOM := 5
  const TURN_GRANT_ON_ESCALATION := 5

  // ------------------------------------------------------------------ appending

  function MaxSeq(entries: seq<Entry>): (m: nat)
    ensures forall i | 0 <= i < |entries| :: entries[i].seqNo <= m
    ensures m == 0 || exists i :: 0 <= i < |entries| && entries[i].seqNo == m
  {
    if entries == [] then 0
    else
      var rest := MaxSeq(entries[..|entries| - 1]);
      var last := entries[|entries| - 1].seqNo;
      if rest < last then last else rest
  }

  function NextSeq(entries: seq<Entry>): nat {
    MaxSeq(entries) + 1
  }

  /** The log with one more row, numbered after every row before it. */
  function Append(entries: seq<Entry>, entry: Entry): seq<Entry> {
    entries + [entry.(seqNo := NextSeq(entries))]
  }

  function Appended(c: Conversation, entry: Entry): Conversation {
    c.(entries := Append(c.entries, entry))
  }

  predicate IsFull(c: Conversation) {
    |c.entries| + ENTRY_HEADROOM > MAX_ENTRIES
  }

  // ------------------------------------------------------------------ the intent log

  predicate Resolved(entries: seq<Entry>, key: Option<nat>) {
    exists i :: 0 <= i < |entries| && entries[i].kind == ToolResult && entries[i].key == key
  }

  /** The first intent at or after `from` that no result in the log answers. */
  function UnresolvedFrom(entries: seq<Entry>, from: nat): (r: Option<Entry>)
    ensures r.None? ==>
              forall i | from <= i < |entries| && entries[i].kind == ToolIntent :: Resolved(entries, entries[i].key)
    ensures r.Some? ==>
              && r.value in entries && r.value.kind == ToolIntent && !Resolved(entries, r.value.key)
    decreases |entries| - from
  {
    if from >= |entries| then None
    else if entries[from].kind == ToolIntent && !Resolved(entries, entries[from].key) then Some(entries[from])
    else UnresolvedFrom(entries, from + 1)
  }

  function UnresolvedIntent(entries: seq<Entry>): Option<Entry> {
    UnresolvedFrom(entries, 0)
  }

  // ------------------------------------------------------------------ approvals

  predicate IsRequest(e: Entry, operation: string, hash: string) {
    e.kind == ApprovalRequest && e.toolName == operation && e.argsHash == Some(hash)
  }

  predicate IsStamp(e: Entry, operation: string, hash: string) {
    e.kind == ToolResult && e.toolName == operation && e.argsHash == Some(hash)
  }

  predicate IsAnswer(e: Entry, question: nat) {
    e.kind == Answer && e.questionId == Some(question)
  }

  function RequestCount(entries: seq<Entry>, operation: string, hash: string): nat {
    if entries == [] then 0
    else
      RequestCount(entries[..|entries| - 1], operation, hash)
      + if IsRequest(entries[|entries| - 1], operation, hash) then 1 else 0
  }

  /** The latest request for this pair. */
  function LastRequest(entries: seq<Entry>, operation: string, hash: string): (r: Option<Entry>)
    ensures r.Some? ==> r.value in entries && IsRequest(r.value, operation, hash)
    ensures r.None? ==> forall e | e in entries :: !IsRequest(e, operation, hash)
  {
    if entries == [] then None
    else if IsRequest(entries[|entries| - 1], operation, hash) then Some(entries[|entries| - 1])
    else LastRequest(entries[..|entries| - 1], operation, hash)
  }

  /** The first answer to this question. */
  function FirstAnswer(entries: seq<Entry>, question: nat): (r: Option<Entry>)
    ensures r.Some? ==> r.value in entries && IsAnswer(r.value, question)
    ensures r.None? ==> forall e | e in entries :: !IsAnswer(e, question)
  {
    if entries == [] then None
    else if IsAnswer(entries[0], question) then Some(entries[0])
    else FirstAnswer(entries[1..], question)
  }

  predicate Spent(entries: seq<Entry>, operation: string, hash: string, after: nat) {
    exists i :: 0 <= i < |entries| && IsStamp(entries[i], operation, hash) && entries[i].seqNo > after
  }

  function LoadQuestion(questions: seq<Question>, id: Option<nat>): Option<Question> {
    if id.Some? && id.value < |questions| && questions[id.value].live then Some(questions[id.value]) else None
  }

  /** A question that cannot be read counts as one that is not there. */
  function Readable(questions: seq<Question>, read: bool): seq<Question> {
    if read then questions else []
  }

  datatype Approval =
    | Missing
    | Pending(questionId: nat)
    | Declined(questionId: nat)
    | Consumed(questionId: nat)
    | Valid(questionId: nat)

  function FindApproval(entries: seq<Entry>, operation: string, hash: string, questions: seq<Question>): Approval {
    var request := LastRequest(entries, operation, hash);
    if request.None? then Missing
    else
      var id := request.value.questionId;
      var question := LoadQuestion(questions, id);
      if question.None? then Missing
      else if question.value.confirmed != Some(true) then
        if question.value.confirmed == Some(false) || question.value.spoken then Declined(id.value)
        else Pending(id.value)
      else
        var answer := FirstAnswer(entries, id.value);
        if answer.None? then Pending(id.value)
        else if Spent(entries, operation, hash, answer.value.seqNo) then Consumed(id.value)
        else Valid(id.value)
  }

  /** A question that could not be read has no approval to give, whatever its answer. */
  lemma UnreadIsMissing(entries: seq<Entry>, operation: string, hash: string, questions: seq<Question>, read: bool)
    ensures FindApproval(entries, operation, hash, Readable(questions, read))
            == if read then FindApproval(entries, operation, hash, questions) else Missing
  {
  }

  /** The watcher's reading of a question: any answer field filled in counts. */
  predicate IsAnswered(q: Question) {
    q.confirmed.Some? || q.spoken
  }

  // ------------------------------------------------------------------ search-then-create

  /** The first live question under a key, at or after `from`. */
  function FindByKey(questions: seq<Question>, key: Keys.Key, from: nat): (r: Option<nat>)
    ensures r.Some? ==> from <= r.value < |questions| && questions[r.value].live && questions[r.value].key == key
    ensures r.None? ==> forall i | from <= i < |questions| :: !(questions[i].live && questions[i].key == key)
    decreases |questions| - from
  {
    if from >= |questions| then None
    else if questions[from].live && questions[from].key == key then Some(from)
    else FindByKey(questions, key, from + 1)
  }

  /** The question under this key: the one that exists, or a new unanswered one. */
  function Raise(questions: seq<Question>, key: Keys.Key): (r: (seq<Question>, nat))
    ensures r.1 < |r.0| && r.0[r.1].live && r.0[r.1].key == key
    ensures questions <= r.0 && |r.0| <= |questions| + 1
  {
    var found := FindByKey(questions, key, 0);
    if found.Some? then (questions, found.value)
    else (questions + [Question(key, true, None, false)], |questions|)
  }

  // ------------------------------------------------------------------ the context sent to the model

  datatype CallId = ByKey(key: nat) | BySeq(seqNo: nat)

  datatype Message =
    | SystemMessage
    | UserMessage(text: string)
    | AssistantMessage(text: string)
    | ToolCallMessage(id: CallId, text: string, operation: string, args: Json)
    | ToolMessage(id: CallId, operation: string)

  function MessageId(e: Entry): CallId {
    if e.key.Some? then ByKey(e.key.value) else BySeq(e.seqNo)
  }

  /** What one row contributes: one message, or none for a text-less row of an unlisted kind. */
  function MessagesOf(e: Entry): (r: seq<Message>)
    ensures |r| <= 1
  {
    match e.kind
    case Prompt => [UserMessage(e.text)]
    case Reply => [AssistantMessage(e.text)]
    case ToolIntent => [ToolCallMessage(MessageId(e), e.text, e.toolName, e.toolArgs)]
    case ToolResult => [ToolMessage(MessageId(e), e.toolName)]
    case Answer => [UserMessage(e.text)]
    case Timeout => [UserMessage(e.text)]
    case Note => [UserMessage(e.text)]
    case ErrorNote => [UserMessage(e.text)]
    case _ => if e.text != "" then [UserMessage(e.text)] else []
  }

  function MessagesFrom(entries: seq<Entry>): seq<Message> {
    if entries == [] then []
    else MessagesFrom(entries[..|entries| - 1]) + MessagesOf(entries[|entries| - 1])
  }

  function BuildMessages(entries: seq<Entry>): seq<Message> {
    [SystemMessage] + MessagesFrom(entries)
  }

  /** Filling the list row by row, as the loop does on every Turn. */
  method CollectMessages(entries: seq<Entry>) returns (messages: seq<Message>)
    ensures messages == BuildMessages(entries)
  {
    messages := [SystemMessage];
    for i := 0 to |entries|
      invariant messages == BuildMessages(entries[..i])
    {
      messages := messages + MessagesOf(entries[i]);
      assert entries[..i + 1][..i] == entries[..i];
    }
    assert entries[..|entries|] == entries;
  }
}
