// The operator's connection to the API server, seen from one reconcile worker: between any
// two of its calls the other workers and the users act as they like, and a call may be
// refused or lost.
module Client {
  import opened Text
  import opened Api
  import opened Objects
  import opened Cluster
  import opened Protocol
  import opened Isolation
  import opened Undisturbed

  // A run of the system is extended at its end.
  lemma {:induction false} OneMore(bp: Blueprint, s: System, run: seq<Action>, a: Action)
    requires |s.history| > 0 && Legal(bp, s, run) && Enabled(bp, After(bp, s, run), a)
    ensures Legal(bp, s, run + [a]) && After(bp, s, run + [a]) == Do(bp, After(bp, s, run), a)
    decreases |run|
  {
    if run != [] {
      assert (run + [a])[0] == run[0] && (run + [a])[1..] == run[1..] + [a];
      OneMore(bp, Do(bp, s, run[0]), run[1..], a);
    } else {
      assert run + [a] == [a];
    }
  }

  class Client {
    const bp: Blueprint
    const me: Instance
    // Left in peace: nobody interferes, every call is served, reads are current, and maps
    // are visited and clocks read as `steady` says.
    const quiet: bool
    const steady: Choice
    var system: System
    // The clock at the latest call.
    var now: int
    ghost const start: System
    ghost var run: seq<Action>
    // What an undisturbed pass from the first state leaves.
    ghost const goal: Store

    // The system is where some run from an initial state has led; a quiet client is on the
    // way to its goal.
    ghost predicate Valid()
      reads this
    {
      && Initial(bp, start) && Legal(bp, start, run) && After(bp, start, run) == system
      && me in system.workers && me in system.floor
      && system.floor[me] < |system.history|
      && (quiet ==> Remainder() == goal)
    }

    function Worker(): Worker
      reads this
      requires me in system.workers
    {
      system.workers[me]
    }

    ghost function Remainder(): Store
      reads this
      requires me in system.workers && |system.history| > 0
    {
      if Worker().Fetching? then Pass(bp, me, system.Now(), steady) else Alone(bp, me, Worker(), system.Now(), steady)
    }

    // A client for one reconcile request, anywhere in a run.
    constructor (
        bp: Blueprint, me: Instance, quiet: bool, steady: Choice, system: System, ghost start: System,
        ghost run: seq<Action>)
      requires Initial(bp, start) && Legal(bp, start, run) && After(bp, start, run) == system
      requires me in system.workers && me in system.floor && system.floor[me] < |system.history|
      requires system.workers[me].Idle?
      ensures Valid() && Worker().Fetching? && fresh(this)
      ensures this.bp == bp && this.me == me && this.quiet == quiet && this.steady == steady
      ensures this.system == Do(bp, system, Start(me))
      ensures goal == Pass(bp, me, system.Now(), steady)
    {
      this.bp, this.me, this.quiet, this.steady := bp, me, quiet, steady;
      this.system, now := Do(bp, system, Start(me)), 0;
      this.start := start;
      this.run := run + [Start(me)];
      goal := Pass(bp, me, system.Now(), steady);
      OneMore(bp, start, run, Start(me));
    }

    // What others do meanwhile.
    method Interfere()
      requires Valid()
      modifies this
      ensures Valid() && Worker() == old(Worker()) && now == old(now)
    {
      var actions: int := *;
      for k := 0 to if quiet || actions < 0 then 0 else actions
        invariant Valid() && Worker() == old(Worker()) && now == old(now)
      {
        var a: Action := *;
        if Enabled(bp, system, a) && !((a.Start? || a.Crash? || a.Step?) && a.i == me) {
          OneMore(bp, start, run, a);
          system := Do(bp, system, a);
          run := run + [a];
        }
      }
    }

    // One call: whatever comes back, the worker of the model moves on with it.
    method Call(request: Request) returns (response: Response, choice: Choice)
      requires Valid() && !Worker().Idle? && request == NextRequest(bp, me, Worker())
      modifies this
      ensures Valid() && now == choice.now
      ensures Worker() == Advance(bp, me, old(Worker()), response, choice)
    {
      Interfere();
      var outcome: Outcome := *;
      var at: nat := *;
      choice := *;
      if quiet {
        outcome, at, choice := Served, |system.history| - 1, steady;
      } else if at >= |system.history| || (Worker().Fetching? && at < system.floor[me]) {
        at := |system.history| - 1;
      }
      response := Answer(system, request, outcome, at).1;
      Take(outcome, at, choice);
    }

    method Take(outcome: Outcome, at: nat, choice: Choice)
      requires Valid() && !Worker().Idle?
      requires at < |system.history| && (Worker().Fetching? ==> system.floor[me] <= at)
      requires quiet ==> outcome == Served && at == |system.history| - 1 && choice == steady
      modifies this
      ensures Valid() && now == choice.now
      ensures Worker() == Advance(bp, me, old(Worker()),
                                  Answer(old(system), NextRequest(bp, me, old(Worker())), outcome, at).1, choice)
    {
      var a := Step(me, outcome, at, choice);
      var next := Do(bp, system, a);
      OneMore(bp, start, run, a);
      StepTaken(bp, me, system, outcome, at, choice);
      if quiet {
        QuietStep(bp, me, system, at, steady);
      }
      system, run, now := next, run + [a], choice.now;
    }

    lemma StaysIsolated()
      requires Valid()
      ensures Isolated(bp, system.workers.Keys, system.Now())
    {
      InitialInv(bp, start);
      RunKeepsInv(bp, start, run);
    }
  }

  lemma StepTaken(bp: Blueprint, i: Instance, s: System, outcome: Outcome, at: nat, ch: Choice)
    requires |s.history| > 0 && i in s.workers && i in s.floor && at < |s.history| && !s.workers[i].Idle?
    requires s.floor[i] < |s.history|
    ensures var next := Do(bp, s, Step(i, outcome, at, ch));
      && i in next.workers && i in next.floor && next.floor[i] < |next.history|
      && next.workers[i] == Advance(bp, i, s.workers[i], Answer(s, NextRequest(bp, i, s.workers[i]), outcome, at).1, ch)
      && !next.workers[i].Fetching?
  {
  }

  // A served call with a current answer is a step of a pass that nobody disturbs.
  lemma QuietStep(bp: Blueprint, i: Instance, s: System, at: nat, ch: Choice)
    requires |s.history| > 0 && i in s.workers && at < |s.history| && !s.workers[i].Idle?
    ensures at == |s.history| - 1 ==>
      var next := Do(bp, s, Step(i, Served, at, ch));
      && (next.workers[i], next.Now()) == AloneStep(bp, i, s.workers[i], s.Now(), ch)
      && (s.workers[i].Running? ==>
          Alone(bp, i, s.workers[i], s.Now(), ch) == Alone(bp, i, next.workers[i], next.Now(), ch))
      && (s.workers[i].Fetching? ==> Pass(bp, i, s.Now(), ch) == Alone(bp, i, next.workers[i], next.Now(), ch))
  {
    if at == |s.history| - 1 && s.workers[i].Running? {
      AloneUnfolds(bp, i, s.workers[i], s.Now(), ch);
    }
  }
}
