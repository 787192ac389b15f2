/** How a Conversation is stored: its properties, its rows, and the names they go by. */
module Specs {
  import opened Things

  const CONVERSATION_FIELDS: seq<Field> :=
    [Field("assistantKey", "AssistantKey"), Field("title", "Title"), Field("subjectThingId", "SubjectThingId"),
     Field("subjectModel", "SubjectModel"), Field("scheduledFor", "ScheduledFor"), Field("status", "Status"),
     Field("waitingFor", "WaitingFor"), Field("finishReason", "FinishReason"), Field("turnCount", "TurnCount"),
     Field("maxTurns", "MaxTurns"), Field("wakeAt", "WakeAt"), Field("leaseUntil", "LeaseUntil"),
     Field("parentConversationId", "ParentConversationId"), Field("currentQuestionId", "CurrentQuestionId"),
     Field("resultDeliveredAt", "ResultDeliveredAt"), Field("escalationCount", "EscalationCount"),
     Field("result", "Result"), Field("lastError", "LastError"), Field("idempotencyKey", "IdempotencyKey"),
     Field("createdByConversationId", "CreatedByConversationId"), Field("createdAt", "CreatedAt"),
     Field("updatedAt", "UpdatedAt")]

  const ENTRY_FIELDS: seq<Field> :=
    [Field("seq", "Seq"), Field("at", "At"), Field("role", "Role"), Field("kind", "Kind"), Field("text", "Text"),
     Field("toolName", "ToolName"), Field("toolArgs", "ToolArgs"), Field("toolResult", "ToolResult"),
     Field("idempotencyKey", "IdempotencyKey"), Field("questionId", "QuestionId"), Field("argsHash", "ArgsHash"),
     Field("promptTokens", "PromptTokens"), Field("completionTokens", "CompletionTokens")]

  const CONVERSATION := Spec("Conversation", CONVERSATION_FIELDS, [Group("entries", "Entries", ENTRY_FIELDS)])

  lemma FieldNamesDiffer()
    ensures Distinct(Names(CONVERSATION_FIELDS))
  {
  }

  lemma FieldPropertiesDiffer()
    ensures Distinct(Properties(CONVERSATION_FIELDS))
  {
  }

  lemma EntryNamesDiffer()
    ensures Distinct(Names(ENTRY_FIELDS)) && Distinct(Properties(ENTRY_FIELDS))
  {
  }

  lemma EntriesIsNoField()
    ensures "Entries" !in Names(CONVERSATION_FIELDS) && "entries" !in Properties(CONVERSATION_FIELDS)
  {
  }

  lemma OneMoreKey(keys: seq<string>, key: string)
    requires Distinct(keys) && key !in keys
    ensures Distinct(keys + [key])
  {
  }

  /** No two properties of a Conversation are stored under one name, nor two names read as one property. */
  lemma ConversationIsWellNamed()
    ensures WellNamed(CONVERSATION) && UPDATED_AT in Properties(CONVERSATION.fields)
  {
    FieldNamesDiffer();
    FieldPropertiesDiffer();
    EntryNamesDiffer();
    EntriesIsNoField();
    assert Properties(CONVERSATION_FIELDS)[21] == UPDATED_AT;
    hide Names, Properties;
    OneMoreKey(Names(CONVERSATION_FIELDS), "Entries");
    OneMoreKey(Properties(CONVERSATION_FIELDS), "entries");
  }

  /** What a Conversation is stored as, field by field; likewise its rows. */
  lemma ConversationIsStoredAs()
    ensures Names(CONVERSATION_FIELDS)
            == ["AssistantKey", "Title", "SubjectThingId", "SubjectModel", "ScheduledFor", "Status", "WaitingFor",
                "FinishReason", "TurnCount", "MaxTurns", "WakeAt", "LeaseUntil", "ParentConversationId",
                "CurrentQuestionId", "ResultDeliveredAt", "EscalationCount", "Result", "LastError", "IdempotencyKey",
                "CreatedByConversationId", "CreatedAt", "UpdatedAt"]
    ensures Properties(CONVERSATION_FIELDS)
            == ["assistantKey", "title", "subjectThingId", "subjectModel", "scheduledFor", "status", "waitingFor",
                "finishReason", "turnCount", "maxTurns", "wakeAt", "leaseUntil", "parentConversationId",
                "currentQuestionId", "resultDeliveredAt", "escalationCount", "result", "lastError", "idempotencyKey",
                "createdByConversationId", "createdAt", "updatedAt"]
  {
  }

  lemma EntriesAreStoredAs()
    ensures Names(ENTRY_FIELDS)
            == ["Seq", "At", "Role", "Kind", "Text", "ToolName", "ToolArgs", "ToolResult", "IdempotencyKey",
                "QuestionId", "ArgsHash", "PromptTokens", "CompletionTokens"]
    ensures Properties(ENTRY_FIELDS)
            == ["seq", "at", "role", "kind", "text", "toolName", "toolArgs", "toolResult", "idempotencyKey",
                "questionId", "argsHash", "promptTokens", "completionTokens"]
  {
  }
}
