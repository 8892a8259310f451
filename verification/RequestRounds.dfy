/** The rounds of run(): what each wait answers, and the script of polls and dispatches they amount to. */
module RequestRounds {
  import opened EventListener
  import opened FramingMachine
  import opened RequestLoop
  import opened RequestRuns

  /** A wait that times out, one that fails, or one that reports events, with the answers met while dispatching them. */
  datatype Round = TimedOut | Failed | Ready(revents: seq<Revents>, answers: seq<Answer>)

  function Dispatches(answers: seq<Answer>): (steps: seq<LoopStep>)
    ensures |steps| == |answers|
    ensures forall j :: 0 <= j < |answers| ==> steps[j] == Dispatch(answers[j])
  {
    seq(|answers|, j requires 0 <= j < |answers| => Dispatch(answers[j]))
  }

  // Scripts from any state.

  ghost predicate CanContinue(h: Handler, s: Server, steps: seq<LoopStep>)
    requires h.Valid()
    decreases |steps|
  {
    steps == [] || (Enabled(h, s, steps[0]) && CanContinue(h, AfterStep(h, s, steps[0]), steps[1..]))
  }

  ghost function Continued(h: Handler, s: Server, steps: seq<LoopStep>): Server
    requires h.Valid() && CanContinue(h, s, steps)
    decreases |steps|
  {
    if steps == [] then s else Continued(h, AfterStep(h, s, steps[0]), steps[1..])
  }

  /** The script can be followed from the start, and leads to s. */
  ghost predicate Serves(h: Handler, serverFd: int, script: seq<LoopStep>, s: Server)
    requires h.Valid()
  {
    CanServe(h, serverFd, script) && ServerAfter(h, serverFd, script) == s
  }

  lemma StepServes(h: Handler, serverFd: int, script: seq<LoopStep>, s: Server, e: LoopStep)
    requires h.Valid() && Serves(h, serverFd, script, s) && Enabled(h, s, e)
    ensures Serves(h, serverFd, script + [e], AfterStep(h, s, e))
  {
    var script', s' := TakeStep(h, serverFd, script, s, e);
  }

  lemma {:induction false} ContinuationServes(h: Handler, serverFd: int, script: seq<LoopStep>, s: Server,
                                              steps: seq<LoopStep>)
    requires h.Valid() && Serves(h, serverFd, script, s) && CanContinue(h, s, steps)
    ensures Serves(h, serverFd, script + steps, Continued(h, s, steps))
    decreases |steps|
  {
    if steps == [] {
      assert script + steps == script;
    } else {
      StepServes(h, serverFd, script, s, steps[0]);
      ContinuationServes(h, serverFd, script + [steps[0]], AfterStep(h, s, steps[0]), steps[1..]);
      assert script + [steps[0]] + steps[1..] == script + steps;
    }
  }

  // Rounds.

  /**
   * The server is still alive, and after a poll every event of its batch is dispatched unless one crashes the server.
   */
  ghost predicate RoundFits(h: Handler, s: Server, round: Round)
    requires h.Valid()
  {
    && !s.crashed
    && (round.Ready? ==>
          && Enabled(h, s, Wait(round.revents))
          && var polled := AfterStep(h, s, Wait(round.revents));
             && CanContinue(h, polled, Dispatches(round.answers))
             && var served := Continued(h, polled, Dispatches(round.answers));
                served.batch == [] || served.crashed)
  }

  ghost function AfterRound(h: Handler, s: Server, round: Round): Server
    requires h.Valid() && RoundFits(h, s, round)
  {
    if round.Ready? then Continued(h, AfterStep(h, s, Wait(round.revents)), Dispatches(round.answers)) else s
  }

  /** The polls and dispatches of a round. */
  function StepsOf(round: Round): seq<LoopStep> {
    if round.Ready? then [Wait(round.revents)] + Dispatches(round.answers) else []
  }

  /** A failed wait leaves the loop, whatever would come after it. */
  ghost predicate Feasible(h: Handler, s: Server, rounds: seq<Round>)
    requires h.Valid()
    decreases |rounds|
  {
    rounds == [] ||
    (RoundFits(h, s, rounds[0]) && (rounds[0].Failed? || Feasible(h, AfterRound(h, s, rounds[0]), rounds[1..])))
  }

  ghost function AfterRounds(h: Handler, s: Server, rounds: seq<Round>): Server
    requires h.Valid() && Feasible(h, s, rounds)
    decreases |rounds|
  {
    if rounds == [] || rounds[0].Failed? then s else AfterRounds(h, AfterRound(h, s, rounds[0]), rounds[1..])
  }

  function ScriptOf(rounds: seq<Round>): seq<LoopStep> {
    if rounds == [] || rounds[0].Failed? then [] else StepsOf(rounds[0]) + ScriptOf(rounds[1..])
  }

  lemma {:induction false} ContinuesThen(h: Handler, s: Server, a: seq<LoopStep>, t: Server, b: seq<LoopStep>)
    requires h.Valid() && CanContinue(h, s, a) && t == Continued(h, s, a) && CanContinue(h, t, b)
    ensures CanContinue(h, s, a + b) && Continued(h, s, a + b) == Continued(h, t, b)
    decreases |a|
  {
    if a == [] {
      assert a + b == b;
    } else {
      ContinuesThen(h, AfterStep(h, s, a[0]), a[1..], t, b);
      assert (a + b)[0] == a[0] && (a + b)[1..] == a[1..] + b;
    }
  }

  lemma RoundContinues(h: Handler, s: Server, round: Round)
    requires h.Valid() && RoundFits(h, s, round)
    ensures CanContinue(h, s, StepsOf(round)) && Continued(h, s, StepsOf(round)) == AfterRound(h, s, round)
  {
    if round.Ready? { assert StepsOf(round)[1..] == Dispatches(round.answers); }
  }

  lemma {:induction false} RoundsContinue(h: Handler, s: Server, rounds: seq<Round>)
    requires h.Valid() && Feasible(h, s, rounds)
    ensures CanContinue(h, s, ScriptOf(rounds)) && Continued(h, s, ScriptOf(rounds)) == AfterRounds(h, s, rounds)
    decreases |rounds|
  {
    if rounds != [] && !rounds[0].Failed? {
      RoundContinues(h, s, rounds[0]);
      RoundsContinue(h, AfterRound(h, s, rounds[0]), rounds[1..]);
      ContinuesThen(h, s, StepsOf(rounds[0]), AfterRound(h, s, rounds[0]), ScriptOf(rounds[1..]));
    }
  }

  /** Any rounds of run() are a run of the step system, so the theorems about every run speak about them. */
  lemma RoundsAreARun(h: Handler, serverFd: int, rounds: seq<Round>)
    requires h.Valid() && Feasible(h, Start(serverFd), rounds)
    ensures CanServe(h, serverFd, ScriptOf(rounds))
    ensures ServerAfter(h, serverFd, ScriptOf(rounds)) == AfterRounds(h, Start(serverFd), rounds)
  {
    RoundsContinue(h, Start(serverFd), rounds);
    ContinuationServes(h, serverFd, [], Start(serverFd), ScriptOf(rounds));
    assert [] + ScriptOf(rounds) == ScriptOf(rounds);
  }

  // What a round dispatches.

  /** The events at the head of the batch, one per answer. */
  ghost function HeadsOf(h: Handler, s: Server, answers: seq<Answer>): seq<Event>
    requires h.Valid() && CanContinue(h, s, Dispatches(answers))
    decreases |answers|
  {
    if answers == [] then []
    else
      assert Dispatches(answers)[1..] == Dispatches(answers[1..]);
      [s.batch[0]] + HeadsOf(h, AfterStep(h, s, Dispatch(answers[0])), answers[1..])
  }

  lemma {:induction false} HeadsAreBatch(h: Handler, s: Server, answers: seq<Answer>)
    requires h.Valid() && CanContinue(h, s, Dispatches(answers))
    ensures |answers| <= |s.batch| && HeadsOf(h, s, answers) == s.batch[..|answers|]
    ensures Continued(h, s, Dispatches(answers)).batch == s.batch[|answers|..]
    decreases |answers|
  {
    if answers != [] {
      assert Dispatches(answers)[1..] == Dispatches(answers[1..]);
      HeadsAreBatch(h, AfterStep(h, s, Dispatch(answers[0])), answers[1..]);
    }
  }

  /**
   * Every ready descriptor of a poll is dispatched once in its round, in the order of the poll vector, unless a
   * dispatch
   * before it crashes the server.
   */
  lemma EveryReadyIsDispatched(h: Handler, s: Server, revents: seq<Revents>, answers: seq<Answer>)
    requires h.Valid() && RoundFits(h, s, Ready(revents, answers))
    ensures |revents| == |s.registry.handle|
    ensures var ready := ReadyIndices(revents, |revents|);
            && |answers| <= |ready|
            && (!AfterRound(h, s, Ready(revents, answers)).crashed ==> |answers| == |ready|)
            && HeadsOf(h, AfterStep(h, s, Wait(revents)), answers) ==
               seq(|answers|, j requires 0 <= j < |answers| => EventAt(s.registry, revents, ready[j]))
  {
    CollectsReady(s.registry, revents, |revents|);
    HeadsAreBatch(h, AfterStep(h, s, Wait(revents)), answers);
  }

  // What ends the loop.

  predicate NeverFails(rounds: seq<Round>) {
    forall j :: 0 <= j < |rounds| ==> !rounds[j].Failed?
  }

  /** A failed wait ends the loop: what would come after it does not matter. */
  lemma {:induction false} FailureEndsLoop(h: Handler, s: Server, a: seq<Round>, b: seq<Round>)
    requires h.Valid() && Feasible(h, s, a + [Failed]) && Feasible(h, s, a + [Failed] + b)
    ensures AfterRounds(h, s, a + [Failed] + b) == AfterRounds(h, s, a + [Failed])
    decreases |a|
  {
    if a != [] {
      assert (a + [Failed])[1..] == a[1..] + [Failed];
      assert (a + [Failed] + b)[0] == a[0] == (a + [Failed])[0];
      assert (a + [Failed] + b)[1..] == a[1..] + [Failed] + b;
      if !a[0].Failed? { FailureEndsLoop(h, AfterRound(h, s, a[0]), a[1..], b); }
    }
  }

  /** A wait that times out changes nothing: the loop goes on as if it had not been. */
  lemma {:induction false} TimeoutsChangeNothing(h: Handler, s: Server, a: seq<Round>, b: seq<Round>)
    requires h.Valid() && Feasible(h, s, a + [TimedOut] + b) && Feasible(h, s, a + b)
    ensures AfterRounds(h, s, a + [TimedOut] + b) == AfterRounds(h, s, a + b)
    decreases |a|
  {
    if a == [] {
      assert ([TimedOut] + b)[1..] == b;
      assert a + [TimedOut] + b == [TimedOut] + b && a + b == b;
    } else {
      assert (a + [TimedOut] + b)[0] == a[0] == (a + b)[0];
      assert (a + [TimedOut] + b)[1..] == a[1..] + [TimedOut] + b;
      assert (a + b)[1..] == a[1..] + b;
      if !a[0].Failed? { TimeoutsChangeNothing(h, AfterRound(h, s, a[0]), a[1..], b); }
    }
  }

  /** A poll that reports events is dispatched before the rounds after it. */
  lemma {:induction false} RoundsCompose(h: Handler, s: Server, a: seq<Round>, b: seq<Round>)
    requires h.Valid() && NeverFails(a) && Feasible(h, s, a) && Feasible(h, AfterRounds(h, s, a), b)
    ensures Feasible(h, s, a + b) && AfterRounds(h, s, a + b) == AfterRounds(h, AfterRounds(h, s, a), b)
    decreases |a|
  {
    if a == [] {
      assert a + b == b;
    } else {
      assert (a + b)[0] == a[0] && (a + b)[1..] == a[1..] + b;
      RoundsCompose(h, AfterRound(h, s, a[0]), a[1..], b);
    }
  }
}
