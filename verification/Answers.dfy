// What the last finished run of each agent answered, and that an agent at home is marked running exactly when
// that was not End.
module Answers {
  import opened Counting
  import opened Wrappers
  import opened Interior
  import opened System
  import opened Ordering
  import opened Wiring
  import opened Ownership

  /** The answer a step brings, recorded for the agent whose job ends. */
  function Note(last: map<Id, RunResult>, s: Sys, step: Step): map<Id, RunResult> {
    if step.Finish? && step.job in s.jobs then last[s.jobs[step.job].id := step.res] else last
  }

  /** For every agent one of whose runs ended during the steps, what the last such run answered. */
  function LastAnswers(s: Sys, steps: seq<Step>, last: map<Id, RunResult>): map<Id, RunResult>
    requires Legal(s, steps)
    decreases |steps|
  {
    if steps == [] then last else LastAnswers(Next(s, steps[0]), steps[1..], Note(last, s, steps[0]))
  }

  ghost predicate HomeAnswered(agents: map<Id, CompState>, last: map<Id, RunResult>) {
    forall i :: i in agents && agents[i].comp.Some? ==> (agents[i].isRun <==> i in last && last[i] != End)
  }

  ghost predicate MailAnswered(mailbox: seq<CompMsg>, last: map<Id, RunResult>) {
    forall p :: 0 <= p < |mailbox| && mailbox[p].RunEnd? ==> mailbox[p].id in last && last[mailbox[p].id] == mailbox[p].res
  }

  ghost predicate Answered(s: Sys, last: map<Id, RunResult>) {
    && (forall i :: i in last ==> i in s.sched.agents)
    && HomeAnswered(s.sched.agents, last)
    && MailAnswered(s.mailbox, last)
  }

  /** How a handled message leaves the mark of an agent that is home afterwards. */
  lemma HandlerMarks(st: Sched, m: CompMsg)
    requires HasId(m) && Settled(st.agents)
    requires m.RunEnd? ==> m.id in st.agents && st.agents[m.id].comp.None? && Drain(m.box, st.agents[m.id].editMsgs).box.Some?
    requires !m.NewAgent? ==> m.id in st.agents
    ensures m.id in Handle(st, m).st.agents
    ensures var c := Handle(st, m).st.agents[m.id]; c.comp.Some? ==>
      && (m.NewAgent? ==> !c.isRun)
      && (m.RunEnd? ==> (c.isRun <==> m.res != End))
      && (!m.NewAgent? && !m.RunEnd? ==> st.agents[m.id].comp.Some? && c.isRun == st.agents[m.id].isRun)
  {
  }

  lemma TakenAnswered(s: Sys, t: Sys, m: CompMsg, e: Effect, last: map<Id, RunResult>)
    requires Answered(s, last) && s.mailbox != [] && s.mailbox[0] == m && HasId(m)
    requires m.NewAgent? <==> m.id !in s.sched.agents
    requires t.sched == e.st && t.mailbox == s.mailbox[1..] + e.posts && (e.posts == [] || e.posts == [Halt])
    requires s.sched.agents.Keys <= e.st.agents.Keys <= s.sched.agents.Keys + {m.id} && m.id in e.st.agents
    requires forall i :: i in s.sched.agents && i != m.id ==> e.st.agents[i] == s.sched.agents[i]
    requires var c := e.st.agents[m.id]; c.comp.Some? ==>
      && (m.NewAgent? ==> !c.isRun)
      && (m.RunEnd? ==> (c.isRun <==> m.res != End))
      && (!m.NewAgent? && !m.RunEnd? ==> s.sched.agents[m.id].comp.Some? && c.isRun == s.sched.agents[m.id].isRun)
    ensures Answered(t, last)
  {
    forall p | 0 <= p < |t.mailbox| && t.mailbox[p].RunEnd?
      ensures t.mailbox[p].id in last && last[t.mailbox[p].id] == t.mailbox[p].res
    {
      assert t.mailbox[p] == s.mailbox[p + 1];
    }
    assert forall i :: i in t.sched.agents && i != m.id ==> i in s.sched.agents;
  }

  lemma DispatchAnswered(s: Sys, last: map<Id, RunResult>)
    requires Ordered(s) && Wired(s) && OwnershipInv(s) && Answered(s, last) && Enabled(s, Dispatch)
    ensures Answered(TakeOne(s), last)
  {
    var m := s.mailbox[0];
    if HasId(m) {
      DispatchKeepsOrder(s);
      HeadFacts(s);
      HandleTouchesOneId(s.sched, m);
      TakeOneFacts(s);
      HandlerMarks(s.sched, m);
      TakenAnswered(s, TakeOne(s), m, Handle(s.sched, m), last);
    } else if m == HaltState {
      TakeOneFacts(s);
      QuietAnswered(s, TakeOne(s), last);
    } else {
      QuietAnswered(s, TakeOne(s), last);
    }
  }

  lemma QuietAnswered(s: Sys, t: Sys, last: map<Id, RunResult>)
    requires Answered(s, last) && t.sched.agents == s.sched.agents
    requires forall m :: m in t.mailbox && m.RunEnd? ==> m in s.mailbox
    ensures Answered(t, last)
  {
    forall p | 0 <= p < |t.mailbox| && t.mailbox[p].RunEnd?
      ensures t.mailbox[p].id in last && last[t.mailbox[p].id] == t.mailbox[p].res
    {
      assert t.mailbox[p] in s.mailbox;
    }
  }

  lemma FinishAnswered(s: Sys, j: nat, res: RunResult, last: map<Id, RunResult>)
    requires OwnershipInv(s) && Answered(s, last) && Enabled(s, Finish(j, res))
    ensures Answered(Next(s, Finish(j, res)), Note(last, s, Finish(j, res)))
  {
    var id := s.jobs[j].id;
    assert JobFor(s.jobs, id);
    EndNoted(s.mailbox, last, RunEnd(id, s.jobs[j].box, res));
    assert HomeAnswered(s.sched.agents, last[id := res]);
  }

  lemma EndNoted(mailbox: seq<CompMsg>, last: map<Id, RunResult>, m: CompMsg)
    requires MailAnswered(mailbox, last) && m.RunEnd?
    requires forall p :: 0 <= p < |mailbox| && mailbox[p].RunEnd? ==> mailbox[p].id != m.id
    ensures MailAnswered(mailbox + [m], last[m.id := m.res])
  {
  }

  lemma PostAnswered(s: Sys, step: Step, last: map<Id, RunResult>)
    requires Ordered(s) && Answered(s, last) && Enabled(s, step) && PostsFromOutside(s, step)
    ensures Answered(Next(s, step), last)
  {
    var m := OutsideStep(s, step);
    QuietAnswered(s, Next(s, step), last);
  }

  lemma StepAnswered(s: Sys, step: Step, last: map<Id, RunResult>)
    requires Ordered(s) && Wired(s) && OwnershipInv(s) && Answered(s, last) && Enabled(s, step)
    ensures Answered(Next(s, step), Note(last, s, step))
  {
    if step.Dispatch? {
      DispatchAnswered(s, last);
    } else if step.Finish? {
      FinishAnswered(s, step.job, step.res, last);
    } else if PostsFromOutside(s, step) {
      PostAnswered(s, step, last);
    } else {
      QuietAnswered(s, Next(s, step), last);
    }
  }
}
