/** When a Conversation at rest may be taken up again, by whom, and what of it is stored then. */
module Waking {
  import opened Wrappers
  import opened CanonicalJson
  import opened Conversations
  import opened Loop
  import opened IntentLog
  import opened ExactlyOnce

  /** It waits on a question of somebody's, whatever has become of it. */
  predicate WaitsOnQuestion(c: Conversation) {
    c.status == Waiting && c.waitingFor in {User, Tool} && c.currentQuestion.Some?
  }

  predicate IsThere(questions: seq<Question>, id: Option<nat>) {
    id.Some? && id.value < |questions| && questions[id.value].live
  }

  /** An advance begins on a Conversation that is neither finished nor leased. The watcher answers for a
      question that is there and filled in, gives up one that is gone, wakes whoever asked to be woken, and
      tells of a child's result whoever has not finished. */
  lemma StirsExactlyWhen(cfg: Config, s: State, text: string)
    requires s.turn.None?
    ensures var c, questions := s.store.conversation, s.store.questions;
            && (Enabled(cfg, s, Begin) <==> c.status in {Running, Waiting} && !c.leased)
            && (Enabled(cfg, s, LeaseExpires) <==> c.leased)
            && (Enabled(cfg, s, WatchAnswered(text)) <==>
                  && WaitsOnQuestion(c) && IsThere(questions, c.currentQuestion)
                  && (questions[c.currentQuestion.value].confirmed.Some? || questions[c.currentQuestion.value].spoken))
            && (Enabled(cfg, s, WatchGone(true)) <==> WaitsOnQuestion(c) && !IsThere(questions, c.currentQuestion))
            && (Enabled(cfg, s, WatchGone(false)) <==> WaitsOnQuestion(c))
            && (Enabled(cfg, s, WatchWoken) <==> c.status == Waiting && c.wakes)
            && (Enabled(cfg, s, Deliver(text)) <==> c.status in {Running, Waiting})
  {
  }

  /** What the watcher stores: one row at the end, of the kind and with the text it has to tell, and the
      Conversation running again; only a child's result leaves whoever does not wait for one as it was. */
  lemma WakingStores(cfg: Config, s: State, step: Step)
    requires s.turn.None? && Enabled(cfg, s, step)
    requires step.WatchAnswered? || step.WatchGone? || step.WatchWoken? || step.Deliver?
    ensures var c, d := s.store.conversation, Apply(cfg, s, step).store.conversation;
            var told := match step
                        case WatchAnswered(text) => (Answer, text)
                        case Deliver(text) => (Answer, text)
                        case WatchGone(_) => (ErrorNote, "gone")
                        case _ => (Timeout, "woken");
            && |d.entries| == |c.entries| + 1 && d.entries[..|c.entries|] == c.entries
            && d.entries[|c.entries|].kind == told.0 && d.entries[|c.entries|].text == told.1
            && d.entries[|c.entries|].questionId == (if step.WatchAnswered? then c.currentQuestion else None)
            && (if step.Deliver? && !(c.status == Waiting && c.waitingFor == Assistant)
                then d.status == c.status && d.waitingFor == c.waitingFor && d.wakes == c.wakes
                else d.status == Running && d.waitingFor == Nobody)
            && d.currentQuestion == (if step.WatchAnswered? || step.WatchGone? then None else c.currentQuestion)
            && (d.wakes <==> c.wakes && !step.WatchWoken? && !(step.Deliver? && d.status != c.status))
            && d.turnCount == c.turnCount && d.maxTurns == c.maxTurns && d.escalations == c.escalations
            && d.leased == c.leased
    ensures Apply(cfg, s, step).turn.None? && Apply(cfg, s, step).store.questions == s.store.questions
  {
    hide NextSeq;
  }

  /** No Conversation that an advance has left waiting on a question it raised is out of reach: in every
      state, whoever waits on a question is reached by an answer, or by the question being gone, or waits
      until the User fills it in. */
  lemma QuestionsAreReached(cfg: Config, s: State)
    requires s.turn.None? && WaitsOnQuestion(s.store.conversation)
    ensures var q := s.store.conversation.currentQuestion.value;
            || Enabled(cfg, s, WatchGone(true))
            || Enabled(cfg, s, WatchAnswered(""))
            || (Enabled(cfg, s, SetAnswer(q, Some(true), false))
                && Enabled(cfg, Apply(cfg, s, SetAnswer(q, Some(true), false)), WatchAnswered("")))
  {
  }
}
