/** The guarantees are not bought by never running anything: an evaluation can publish, and
    one that is running can be interrupted and its generation replaced. */
module CadWitness {
  import opened Common
  import opened CadProtocol
  import opened CadTheorems

  const TASK := Task(0, Derived(0), Evaluate, 5, 1)

  /** One evaluation with request_id "r": its account, its registration and its history vary. */
  function One(owned: bool, done: bool, queue: seq<Task>, phase: EvalPhase, pump: Pump, h: History): State {
    State(Book([Ticket(5, owned, 1, done, false, 0)], 1, 5, queue, [], multiset{}),
          Fence(1, false, false), pump, [], Free,
          Registry([Eval(0, "r", phase, None)], if phase.Reserved? then map[] else map["r" := 0], {}, {}),
          World(false, {}, {}), h)
  }

  const NONE := History(map[], map[], map[], map[], map[])
  const SENT := NONE.(admitted := map[0 := Admission(1, Derived(0))])
  const TAKEN := SENT.(committed := map[0 := Commitment(1, 1)])
  const ANSWERED := TAKEN.(replies := map[0 := true])

  lemma Follow(s: State, step: Step, s': State)
    requires Reachable(s) && Enabled(s, step) && Apply(s, step) == s'
    ensures Reachable(s')
  {
    hide Reachable, Enabled, Apply;
    StepReachable(s, step);
  }

  lemma RegisteredReachable()
    ensures Reachable(One(true, false, [], Bound, Idle, NONE))
  {
    var s0, s1 := Init(), One(true, false, [], EvalPhase.Reserved, Idle, NONE);
    assert Reachable(s0) by { assert Legal(s0, []) && After(s0, []) == s0; }
    hide Reachable;
    Follow(s0, Registering(EvalReserve("r", 5)), s1);
    var s2, s3 := One(true, false, [], Registered, Idle, NONE), One(true, false, [], Bound, Idle, NONE);
    Follow(s1, Registering(Begin(0)), s2);
    Follow(s2, Registering(Bind(0)), s3);
  }

  lemma ReceivedReachable()
    ensures Reachable(One(false, false, [], Bound, Hand(TASK), SENT))
  {
    hide Reachable;
    RegisteredReachable();
    var s3, s4 := One(true, false, [], Bound, Idle, NONE), One(false, false, [TASK], Bound, Idle, SENT);
    Follow(s3, Registering(EvalAdmit(0, 5)), s4);
    Follow(s4, Pumping(Dequeue), One(false, false, [], Bound, Hand(TASK), SENT));
  }

  lemma EvaluatingReachable()
    ensures Reachable(One(false, false, [], Bound, Calling(TASK, 1, None), TAKEN))
  {
    hide Reachable;
    ReceivedReachable();
    var s6, s7 :=
      One(false, false, [], Bound, Starting(TASK), SENT), One(false, false, [], Bound, Started(TASK, 1, false), SENT);
    Follow(One(false, false, [], Bound, Hand(TASK), SENT), Pumping(Activate), s6);
    Follow(s6, Pumping(StartReturns(1, false)), s7);
    Follow(s7, Pumping(Commit), One(false, false, [], Bound, Calling(TASK, 1, None), TAKEN));
  }

  lemma CompletedReachable()
    ensures Reachable(One(false, true, [], Bound, Done(TASK, 1, Success, false, None), TAKEN))
  {
    hide Reachable;
    EvaluatingReachable();
    var s9 := One(false, false, [], Bound, Called(TASK, 1, true, Success, false, None), TAKEN);
    Follow(One(false, false, [], Bound, Calling(TASK, 1, None), TAKEN), Pumping(CallReturns(Success)), s9);
    Follow(s9, Pumping(Complete), One(false, true, [], Bound, Done(TASK, 1, Success, false, None), TAKEN));
  }

  lemma AnsweredReachable()
    ensures Reachable(One(false, true, [], Bound, Replied(TASK, false, None), ANSWERED))
  {
    hide Reachable;
    CompletedReachable();
    var s11 := One(false, true, [], Bound, Settled(TASK, Success, false, None), TAKEN);
    Follow(One(false, true, [], Bound, Done(TASK, 1, Success, false, None), TAKEN), Pumping(Settle), s11);
    Follow(s11, Pumping(Reply(true)), One(false, true, [], Bound, Replied(TASK, false, None), ANSWERED));
  }

  lemma AnEvaluationCanPublish()
    ensures exists s :: Reachable(s) && 0 in s.registry.published
  {
    hide Reachable;
    AnsweredReachable();
    var s := One(false, true, [], Bound, Replied(TASK, false, None), ANSWERED);
    var returned := Apply(s, Registering(EvalReturns(0, true)));
    Follow(s, Registering(EvalReturns(0, true)), returned);
    Follow(returned, Registering(End(0)), Apply(returned, Registering(End(0))));
  }

  /** A cancel control catches the running evaluation: it answers true with an interruption of
      generation 1, in a new epoch. */
  lemma ARunningEvaluationCanBeInterrupted()
    ensures exists s :: Reachable(s) && s.control == Decided(CancelRequest, 0, true, Some(0))
                        && s.stops == [Stop(1, RetiringOld, 0)] && s.fence.epoch == 2
  {
    hide Reachable;
    EvaluatingReachable();
    var s := One(false, false, [], Bound, Calling(TASK, 1, None), TAKEN);
    var s1 := s.(control := Entering(CancelRequest, 0));
    Follow(s, Registering(CancelControl("r")), s1);
    var s2 := s1.(book := Book([Ticket(5, false, 1, false, true, 0)], 1, 5, [], [], multiset{}),
                  control := Rotating(CancelRequest, 0, Scan([], 0, None, [], [], None)));
    Follow(s1, Cancel(Enter), s2);
    var s3 := s2.(control := Fencing(CancelRequest, 0, 0), stops := [Stop(1, Fresh, 0)],
                  fence := Fence(2, false, false), pump := Calling(TASK, 1, Some(0)));
    Follow(s2, Cancel(Decide), s3);
    Follow(s3, Cancel(Spawn),
      s3.(control := Decided(CancelRequest, 0, true, Some(0)), stops := [Stop(1, RetiringOld, 0)]));
  }
}
