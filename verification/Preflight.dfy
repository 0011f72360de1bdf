// The preflight check protects the building of the Deployment: what remains to panic over is
// a missing image.
module Preflight {
  import opened Text
  import opened Api
  import opened Objects
  import opened Workloads
  import opened Naming
  import opened Protocol
  import opened Isolation
  import opened Readiness
  import opened Operator

  lemma ReadyServersNamed(trace: seq<Exchange>, i: Instance, spec: Spec)
    requires ServerReady(trace, i, spec.listener.tls) && ServerReady(trace, i, spec.oidcServer.tls)
    ensures CertNamed(spec.listener.tls) && CertNamed(spec.oidcServer.tls)
  {
  }

  lemma NothingToApply(images: Images, i: Instance, o: Origin, visit: seq<string>)
    requires CertNamed(o.spec.listener.tls) && CertNamed(o.spec.oidcServer.tls)
    ensures ApplicationOf(images, i, o, visit) == None <==> ImageOf(o.spec, images) == ""
  {
    DeploymentWellBuilt(i.name, i.ns, o.labels, o.spec, images, visit);
  }

  // Whatever a pass was told on its way: once all before the Deployment went through, it
  // panics there exactly when no image is known - never over a secret that is not named.
  lemma {:induction false} PanicMeansNoImage(
      names: Spelling, bp: Blueprint, h: Digest, images: Images, instances: set<Instance>,
      i: Instance, o: Origin, ch: Choice, current: Plan, trace: seq<Exchange>)
    requires Describes(bp, names, h, images) && Sound(bp, instances) && i in instances
    requires MetUpTo(bp, i, InstallPlan(bp, i, o, ch), current, trace) && Last(current)
    ensures current.op.Panic? <==> ImageOf(o.spec, images) == ""
  {
    PastAll(bp, instances, i, o, ch, current, trace);
    AtDeployment(bp, i, o, ch.visit, current, trace);
    ReadyServersNamed(trace, i, o.spec);
    NothingToApply(images, i, o, ch.visit);
  }

  // Over every run: if the next operation of a worker is the panic, its custom resource has
  // no known image.
  lemma {:induction false} NoPanicInRuns(
      names: Spelling, bp: Blueprint, h: Digest, images: Images, s: System, run: seq<Action>, i: Instance)
    requires Describes(bp, names, h, images)
    requires Initial(bp, s) && Legal(bp, s, run) && i in s.workers
    requires i in After(bp, s, run).workers
    requires var w := After(bp, s, run).workers[i];
      w.Running? && w.plan.Then? && PanicsNext(w.plan.rest)
    ensures var w := After(bp, s, run).workers[i];
      w.cr.body.Resource? && ImageOf(w.cr.body.spec, images) == ""
  {
    var w := After(bp, s, run).workers[i];
    var trace := Passage(bp, s, run, i, []);
    InitialInv(bp, s);
    RunOnRecord(bp, s, run, i, []);
    assert !Housekeeping(w.plan);
    PanicAhead(names, bp, h, images, s.workers.Keys, i, OriginOf(w.cr), trace[0].choice, w.plan, trace);
  }

  lemma PanicAhead(
      names: Spelling, bp: Blueprint, h: Digest, images: Images, instances: set<Instance>,
      i: Instance, o: Origin, ch: Choice, current: Plan, trace: seq<Exchange>)
    requires Describes(bp, names, h, images) && Sound(bp, instances) && i in instances
    requires MetUpTo(bp, i, InstallPlan(bp, i, o, ch), current, trace)
    requires current.Then? && PanicsNext(current.rest)
    ensures ImageOf(o.spec, images) == ""
  {
    InstallPlanFresh(bp, instances, i, o, ch);
    FreshSuffix(bp, i, InstallPlan(bp, i, o, ch), current, trace);
    MetOneMore(bp, i, InstallPlan(bp, i, o, ch), current, trace);
    PanicMeansNoImage(names, bp, h, images, instances, i, o, ch, current.rest, trace);
  }
}
