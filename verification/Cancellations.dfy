// Two runs of the step system in which a status write meets a run that has ended.
module Cancellations {
  import opened Entities
  import opened Tables
  import opened Conversations
  import opened Protocol
  import opened Safety

  /** A `send_message` by the owner of a fresh conversation, with the ids its rows get. */
  datatype Story = Story(q: Request, question: Id, answer: Id, run: Id, token: nat, text: string) {
    function Row(): RunRow { NewRun(q, 0, run, token, question) }

    function Identity(): RunIdentity { Row().identity }

    /** The conversation is there, nothing has been asked. */
    function Fresh(): Tables {
      Tables(map[q.conversation := Conversation(q.ctx.tenant, q.ctx.user, 0)], [], [], [])
    }

    /** The question is asked and its run has this status. */
    function Asked(status: RunStatus): Tables {
      Tables(map[q.conversation := Conversation(q.ctx.tenant, q.ctx.user, 1)], [UserMessage(q, 0, question)],
             [Row().(status := status)], [])
    }

    function SucceededRow(): RunRow { Row().(status := Succeeded, assistantMessage := Some(answer)) }

    /** The question is answered. */
    function Answered(): Tables {
      Tables(map[q.conversation := Conversation(q.ctx.tenant, q.ctx.user, 1)],
             [UserMessage(q, 0, question), AssistantMessage(Identity(), text, answer)], [SucceededRow()], [])
    }

    /** The sender has answered, the canceller has read the run before. */
    function AnsweredState(): State {
      State(Answered(), map[0 := Process(q, Completed(Identity())), 1 := Process(q, CancelRead(Row()))])
    }

    /** The sender has read its run and is about to commit the answer. */
    function ReadPhase(): Phase { AnswerRead(Identity(), text, Some(Row())) }

    function One(t: Tables, phase: Phase): State { State(t, map[0 := Process(q, phase)]) }

    function Two(status: RunStatus, phase: Phase): State {
      State(Asked(status), map[0 := Process(q, ReadPhase()), 1 := Process(q, phase)])
    }

    function Opening(): seq<Step> {
      [CreateConversation(q.conversation, q.ctx.tenant, q.ctx.user), Begin(0, q), Act(0, Lookup)]
    }

    function Asking(): seq<Step> {
      [Act(0, Insert(question, run, token)), Act(0, AgentAnswers(text)), Act(0, CheckLease(true))]
    }

    function Reading(): seq<Step> { [Act(0, ReadRun), BeginCancel(1, q, run), Act(1, ReadRun)] }

    /** The sender up to its read, the canceller up to its read, the canceller's write. */
    function Steps(): seq<Step> { Opening() + Asking() + Reading() + [Act(1, WriteCancel)] }

    /** The sender up to its read, the canceller up to its read, the sender's write. */
    function AnswerSteps(): seq<Step> { Opening() + Asking() + Reading() + [Act(0, WriteAnswer(answer))] }
  }

  lemma RunInAsked(story: Story, status: RunStatus)
    ensures FindRun(story.Asked(status).runs, story.q.ctx.tenant, story.run) == Some(0)
    ensures GetRun(story.Asked(status), story.q.ctx.tenant, story.run) == Some(story.Row().(status := status))
    ensures story.Row().(status := Running) == story.Row()
  {
  }

  lemma StoryAsks(story: Story)
    ensures PrepareLookup(story.Fresh(), story.q) == Proceed(0)
    ensures InsertStep(story.Fresh(), story.q, Looked(0), story.question, story.run, story.token)
         == (story.Asked(Running), Prepared(story.Identity()))
  {
    var m := UserMessage(story.q, 0, story.question);
    var t := story.Fresh();
    assert WithTurn(t, 0, m, story.Row()) == story.Asked(Running) by {
      assert t.messages + [m] == [m] && t.runs + [story.Row()] == [story.Row()];
    }
  }

  lemma StoryCancelReads(story: Story)
    ensures CancelLookup(story.Asked(Running), story.q.ctx, story.run) == Ok(story.Row())
  {
    var t, q := story.Asked(Running), story.q;
    RunInAsked(story, Running);
    assert GetRun(t, q.ctx.tenant, story.run) == Some(story.Row());
    assert GetConversation(t, q.ctx.tenant, q.conversation) == Some(Conversation(q.ctx.tenant, q.ctx.user, 1));
  }

  lemma StoryCancelWrites(story: Story)
    ensures CancelSave(story.Asked(Running), story.Row())
      == (story.Asked(Cancelled), Ok(story.Row().(status := Cancelled)))
  {
    var row := story.Row().(status := Cancelled);
    RunInAsked(story, Running);
    assert story.Row().errorCode == None && story.Row().status == Running;
    assert story.Asked(Running).runs[0 := row] == [row];
    assert WithSaved(story.Asked(Running), row) == story.Asked(Cancelled);
  }

  lemma StoryOpens(cfg: Config, story: Story)
    ensures Run(cfg, INITIAL, story.Opening()) == story.One(story.Fresh(), Looked(0))
  {
    var q := story.q;
    StoryAsks(story);
    RunThree(cfg, INITIAL, CreateConversation(q.conversation, q.ctx.tenant, q.ctx.user), Begin(0, q), Act(0, Lookup));
    assert Apply(cfg, INITIAL, CreateConversation(q.conversation, q.ctx.tenant, q.ctx.user))
        == State(story.Fresh(), map[]);
    assert Apply(cfg, State(story.Fresh(), map[]), Begin(0, q)) == story.One(story.Fresh(), Begun);
  }

  lemma StoryInserts(cfg: Config, story: Story)
    ensures Apply(cfg, story.One(story.Fresh(), Looked(0)), Act(0, Insert(story.question, story.run, story.token)))
         == story.One(story.Asked(Running), Prepared(story.Identity()))
  {
    hide InsertStep;
    StoryAsks(story);
  }

  lemma StoryIsChecked(cfg: Config, story: Story)
    ensures var s := story.One(story.Asked(Running), Prepared(story.Identity()));
      Apply(cfg, Apply(cfg, s, Act(0, AgentAnswers(story.text))), Act(0, CheckLease(true)))
      == story.One(story.Asked(Running), Fenced(story.Identity(), story.text))
  {
    assert Apply(cfg, story.One(story.Asked(Running), Prepared(story.Identity())), Act(0, AgentAnswers(story.text)))
        == story.One(story.Asked(Running), HasAnswer(story.Identity(), story.text));
  }

  lemma StoryIsAsked(cfg: Config, story: Story)
    ensures Run(cfg, story.One(story.Fresh(), Looked(0)), story.Asking())
         == story.One(story.Asked(Running), Fenced(story.Identity(), story.text))
  {
    hide Apply;
    var s := story.One(story.Fresh(), Looked(0));
    StoryInserts(cfg, story);
    StoryIsChecked(cfg, story);
    RunThree(cfg, s, Act(0, Insert(story.question, story.run, story.token)), Act(0, AgentAnswers(story.text)),
             Act(0, CheckLease(true)));
  }

  lemma StoryIsRead(cfg: Config, story: Story)
    ensures Run(cfg, story.One(story.Asked(Running), Fenced(story.Identity(), story.text)), story.Reading())
         == story.Two(Running, CancelRead(story.Row()))
  {
    var t := story.Asked(Running);
    var s := story.One(t, Fenced(story.Identity(), story.text));
    RunInAsked(story, Running);
    StoryCancelReads(story);
    RunThree(cfg, s, Act(0, ReadRun), BeginCancel(1, story.q, story.run), Act(1, ReadRun));
    assert Apply(cfg, s, Act(0, ReadRun)) == story.One(t, story.ReadPhase());
    assert Apply(cfg, story.One(t, story.ReadPhase()), BeginCancel(1, story.q, story.run))
        == story.Two(Running, Cancelling(story.run));
  }

  lemma StoryIsCancelled(cfg: Config, story: Story)
    requires !cfg.serialised
    ensures Run(cfg, INITIAL, story.Steps()) == story.Two(Cancelled, Done(CancelledRun(story.run)))
  {
    StoryOpens(cfg, story);
    StoryIsAsked(cfg, story);
    StoryIsRead(cfg, story);
    RunConcat(cfg, INITIAL, story.Opening(), story.Asking());
    RunConcat(cfg, INITIAL, story.Opening() + story.Asking(), story.Reading());
    RunSnoc(cfg, INITIAL, story.Opening() + story.Asking() + story.Reading(), Act(1, WriteCancel));
    StoryEndsCancel(cfg, story);
  }

  lemma StoryEndsCancel(cfg: Config, story: Story)
    requires !cfg.serialised
    ensures Apply(cfg, story.Two(Running, CancelRead(story.Row())), Act(1, WriteCancel))
         == story.Two(Cancelled, Done(CancelledRun(story.run)))
  {
    StoryCancelWrites(story);
    assert CancelStep(cfg, story.Asked(Running), CancelRead(story.Row()))
        == (story.Asked(Cancelled), Done(CancelledRun(story.run)));
  }

  /** Without serialisation a cancelled run can still end as succeeded: the finalising unit of work
      read the run before the cancellation and writes after it, although the lease was never lost. */
  lemma CancelCanBeLost(cfg: Config, story: Story)
    requires !cfg.serialised && story.question != story.answer
    ensures Run(cfg, INITIAL, story.Steps()).tables.runs == [story.Row().(status := Cancelled)]
    ensures Run(cfg, INITIAL, story.Steps() + [Act(0, WriteAnswer(story.answer))]).tables.runs
         == [story.Row().(status := Succeeded, assistantMessage := Some(story.answer))]
  {
    StoryIsCancelled(cfg, story);
    RunSnoc(cfg, INITIAL, story.Steps(), Act(0, WriteAnswer(story.answer)));
    ActTables(cfg, story.Two(Cancelled, Done(CancelledRun(story.run))), 0, WriteAnswer(story.answer));
    StoryOverwrites(cfg, story);
  }

  lemma StoryOverwrites(cfg: Config, story: Story)
    requires !cfg.serialised && story.question != story.answer
    ensures AnswerStep(cfg, story.Asked(Cancelled), story.ReadPhase(), story.answer).0.runs
         == [story.Row().(status := Succeeded, assistantMessage := Some(story.answer))]
  {
    var t := story.Asked(Cancelled);
    RunInAsked(story, Cancelled);
    var m := AssistantMessage(story.Identity(), story.text, story.answer);
    assert MessageFits(t.messages, m);
    var row := story.Row().(status := Succeeded, assistantMessage := Some(story.answer));
    assert t.runs[0 := row] == [row];
    assert Finalise(t, Some(story.Row()), story.Identity(), story.text, story.answer).0
        == WithSaved(WithMessage(t, m), row);
  }

  // ---------------------------------------------------------------- the answer comes first

  lemma StoryAnswers(cfg: Config, story: Story)
    requires !cfg.serialised && story.question != story.answer
    ensures AnswerStep(cfg, story.Asked(Running), story.ReadPhase(), story.answer)
         == (story.Answered(), Completed(story.Identity()))
  {
    var t := story.Asked(Running);
    var m := AssistantMessage(story.Identity(), story.text, story.answer);
    RunInAsked(story, Running);
    assert MessageFits(t.messages, m);
    assert t.messages + [m] == story.Answered().messages;
    assert t.runs[0 := story.SucceededRow()] == [story.SucceededRow()];
    assert WithSaved(WithMessage(t, m), story.SucceededRow()) == story.Answered();
  }

  lemma StoryCancelsLate(cfg: Config, story: Story)
    requires !cfg.serialised
    ensures CancelStep(cfg, story.Answered(), CancelRead(story.Row())).0
         == story.Answered().(runs := [story.Row().(status := Cancelled)])
  {
    var t := story.Answered();
    var row := story.Row().(status := Cancelled);
    assert story.Row().errorCode == None && story.Row().status == Running;
    assert FindRun(t.runs, story.q.ctx.tenant, story.run) == Some(0);
    assert t.runs[0 := row] == [row];
    assert CancelSave(t, story.Row()).0 == WithSaved(t, row);
  }

  lemma StoryIsAnswered(cfg: Config, story: Story)
    requires !cfg.serialised && story.question != story.answer
    ensures Run(cfg, INITIAL, story.AnswerSteps())
         == story.AnsweredState()
  {
    hide Apply;
    StoryOpens(cfg, story);
    StoryIsAsked(cfg, story);
    StoryIsRead(cfg, story);
    RunConcat(cfg, INITIAL, story.Opening(), story.Asking());
    RunConcat(cfg, INITIAL, story.Opening() + story.Asking(), story.Reading());
    RunSnoc(cfg, INITIAL, story.Opening() + story.Asking() + story.Reading(), Act(0, WriteAnswer(story.answer)));
    StoryEndsAnswer(cfg, story);
  }

  lemma StoryEndsAnswer(cfg: Config, story: Story)
    requires !cfg.serialised && story.question != story.answer
    ensures Apply(cfg, story.Two(Running, CancelRead(story.Row())), Act(0, WriteAnswer(story.answer)))
         == story.AnsweredState()
  {
    hide AnswerStep;
    StoryAnswers(cfg, story);
  }

  /** Without serialisation an answered run can end as cancelled: the cancellation read the run
      before the answer and saves after it. The run loses its answer id and message 2 stays in the
      log. */
  lemma AnswerCanBeCancelled(cfg: Config, story: Story)
    requires !cfg.serialised && story.question != story.answer
    ensures Run(cfg, INITIAL, story.AnswerSteps()).tables.runs == [story.SucceededRow()]
    ensures var t := Run(cfg, INITIAL, story.AnswerSteps() + [Act(1, WriteCancel)]).tables;
      && t.runs == [story.Row().(status := Cancelled)] && t.runs[0].assistantMessage == None
      && t.messages
        == [UserMessage(story.q, 0, story.question), AssistantMessage(story.Identity(), story.text, story.answer)]
      && !AnswerFree(t, story.Identity())
  {
    StoryIsAnswered(cfg, story);
    var s := Run(cfg, INITIAL, story.AnswerSteps());
    RunSnoc(cfg, INITIAL, story.AnswerSteps(), Act(1, WriteCancel));
    ActTables(cfg, s, 1, WriteCancel);
    StoryCancelsLate(cfg, story);
    assert story.Answered().messages[1].sequence == 2;
  }
}
