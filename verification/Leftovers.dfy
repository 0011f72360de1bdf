// A binding that a clean-up left behind stays for good: no worker ever takes it away again,
// unless somebody creates the resource anew.
module Leftovers {
  import opened Text
  import opened Api
  import opened Objects
  import opened Cluster
  import opened Protocol
  import opened Isolation

  // The worker is between passes and will not find its custom resource: it has seen a state
  // without it, and there has been none with it since.
  ghost predicate SeenGone(bp: Blueprint, i: Instance, s: System) {
    && i in s.workers && i in s.floor && (s.workers[i].Idle? || s.workers[i].Fetching?)
    && s.floor[i] < |s.history|
    && forall k | s.floor[i] <= k < |s.history| :: bp.key(i, Custom) !in s.history[k].objects
  }

  // No user creates the resource again.
  predicate Recreates(bp: Blueprint, i: Instance, a: Action) {
    a.UserWrite? && a.key == bp.key(i, Custom)
  }

  ghost predicate NeverRecreated(bp: Blueprint, i: Instance, run: seq<Action>) {
    forall k | 0 <= k < |run| :: !Recreates(bp, i, run[k])
  }

  // Reading the latest state is enough to see it.
  lemma {:induction false} ReadingSeesGone(bp: Blueprint, s: System, i: Instance, ch: Choice)
    requires Inv(bp, s) && i in s.workers && s.workers[i].Fetching? && s.floor[i] < |s.history|
    requires bp.key(i, Custom) !in s.Now().objects
    ensures var a := Step(i, Served, |s.history| - 1, ch);
      Enabled(bp, s, a) && SeenGone(bp, i, Do(bp, s, a)) && Do(bp, s, a).Now() == s.Now()
  {
  }

  // The own worker's call, if there is one: it reads, and finds nothing.
  lemma OwnCallFindsNothing(bp: Blueprint, s: System, a: Action)
    requires Inv(bp, s) && a.Step? && Enabled(bp, s, a) && SeenGone(bp, a.i, s)
    ensures Do(bp, s, a).Now() == s.Now() && SeenGone(bp, a.i, Do(bp, s, a))
  {
    var next := Do(bp, s, a);
    assert NextRequest(bp, a.i, s.workers[a.i]) == Get(bp.key(a.i, Custom));
    assert next.history == s.history + [s.Now()];
  }

  lemma OthersLeaveGone(bp: Blueprint, s: System, a: Action, i: Instance, g: Grant)
    requires Inv(bp, s) && a.Step? && Enabled(bp, s, a) && a.i != i && SeenGone(bp, i, s)
    ensures SeenGone(bp, i, Do(bp, s, a))
    ensures var key := bp.key(i, ClusterBinding(g));
      key in Do(bp, s, a).Now().objects <==> key in s.Now().objects
  {
    OthersUntouched(bp, s, a, i, Custom);
    OthersUntouched(bp, s, a, i, ClusterBinding(g));
    assert Do(bp, s, a).history == s.history + [Effect(bp, s, a)];
  }

  lemma UsersLeaveGone(bp: Blueprint, s: System, a: Action, i: Instance, g: Grant)
    requires Inv(bp, s) && (a.UserWrite? || a.UserDelete?) && Enabled(bp, s, a) && !Recreates(bp, i, a)
    requires SeenGone(bp, i, s)
    ensures SeenGone(bp, i, Do(bp, s, a))
    ensures var key := bp.key(i, ClusterBinding(g));
      key in Do(bp, s, a).Now().objects <==> key in s.Now().objects && a != UserDelete(key)
  {
    assert a.UserWrite? ==> !Forges(bp, s, a.key, a.body);
    assert Do(bp, s, a).history == s.history + [Do(bp, s, a).Now()];
  }

  lemma StaysGone(bp: Blueprint, s: System, a: Action, i: Instance, g: Grant)
    requires Inv(bp, s) && Enabled(bp, s, a) && !Recreates(bp, i, a) && SeenGone(bp, i, s)
    ensures |Do(bp, s, a).history| > 0 && SeenGone(bp, i, Do(bp, s, a))
    ensures var key := bp.key(i, ClusterBinding(g));
      key in Do(bp, s, a).Now().objects <==> key in s.Now().objects && a != UserDelete(key)
  {
    match a
    case Start(_) =>
    case Crash(_) =>
    case Step(j, _, _, _) =>
      if j == i {
        OwnCallFindsNothing(bp, s, a);
      } else {
        OthersLeaveGone(bp, s, a, i, g);
      }
    case UserWrite(_, _, _) => UsersLeaveGone(bp, s, a, i, g);
    case UserDelete(_) => UsersLeaveGone(bp, s, a, i, g);
  }

  // Over every run in which nobody creates the resource anew, whatever the workers do: the
  // binding stands at the end exactly if it did at the beginning and no user deleted it.
  lemma {:induction false} LeftForGood(bp: Blueprint, s: System, run: seq<Action>, i: Instance, g: Grant)
    requires Inv(bp, s) && Legal(bp, s, run) && NeverRecreated(bp, i, run) && SeenGone(bp, i, s)
    ensures var key := bp.key(i, ClusterBinding(g));
      key in After(bp, s, run).Now().objects <==> key in s.Now().objects && UserDelete(key) !in run
    decreases |run|
  {
    if run != [] {
      var next := Do(bp, s, run[0]);
      StepKeepsInv(bp, s, run[0]);
      StaysGone(bp, s, run[0], i, g);
      assert forall k | 0 <= k < |run[1..]| :: run[1..][k] == run[k + 1];
      LeftForGood(bp, next, run[1..], i, g);
      assert run == [run[0]] + run[1..];
    }
  }
}
