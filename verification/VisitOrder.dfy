// The order in which Go visits the tracing tags decides nothing but the order of the tag
// arguments.
module VisitOrder {
  import opened Text
  import opened Api
  import opened Objects
  import opened Flags
  import opened Args
  import opened RoundTrip
  import opened Environment
  import opened Workloads

  // ---- Permutations --------------------------------------------------------

  lemma {:induction false} CountDistinct<T>(s: seq<T>, x: T)
    requires forall i, j | 0 <= i < j < |s| :: s[i] != s[j]
    ensures multiset(s)[x] == if x in s then 1 else 0
  {
    if s != [] {
      CountDistinct(s[1..], x);
      assert s == [s[0]] + s[1..];
      if x == s[0] {
        assert x !in s[1..];
      }
    }
  }

  lemma SameVisits(keys: set<string>, v1: seq<string>, v2: seq<string>)
    requires Enumerates(v1, keys) && Enumerates(v2, keys)
    ensures multiset(v1) == multiset(v2)
  {
    forall x
      ensures multiset(v1)[x] == multiset(v2)[x]
    {
      CountDistinct(v1, x);
      CountDistinct(v2, x);
      assert x in keys <==> x in v1;
      assert x in keys <==> x in v2;
    }
  }

  lemma {:induction false} VisitLength(keys: set<string>, v: seq<string>)
    requires Enumerates(v, keys)
    ensures |v| == |keys|
    decreases |v|
  {
    if v == [] {
      assert keys == {};
    } else {
      var rest := keys - {v[0]};
      assert v[0] in keys;
      forall k
        ensures k in rest <==> k in v[1..]
      {
        assert k in v <==> k == v[0] || k in v[1..];
      }
      VisitLength(rest, v[1..]);
    }
  }

  // With at most one key there is only one order.
  lemma OneVisit(keys: set<string>, v1: seq<string>, v2: seq<string>)
    requires Enumerates(v1, keys) && Enumerates(v2, keys) && |keys| <= 1
    ensures v1 == v2
  {
    VisitLength(keys, v1);
    VisitLength(keys, v2);
    if |keys| == 1 {
      assert v1[0] in keys;
      assert v1[0] in v2;
    }
  }

  // One element taken out.
  lemma Without(s: seq<string>, k: nat, f: string -> string)
    requires k < |s|
    ensures var rest := s[..k] + s[k + 1..];
      && multiset(s) == multiset(rest) + multiset{s[k]}
      && multiset(Lines(s, f)) == multiset(Lines(rest, f)) + multiset{f(s[k])}
  {
    var rest := s[..k] + s[k + 1..];
    assert s == s[..k] + [s[k]] + s[k + 1..];
    assert Lines(rest, f) == Lines(s[..k], f) + Lines(s[k + 1..], f);
    assert Lines(s, f) == Lines(s[..k], f) + [f(s[k])] + Lines(s[k + 1..], f);
  }

  lemma {:induction false} LinesPermute(a: seq<string>, b: seq<string>, f: string -> string)
    requires multiset(a) == multiset(b)
    ensures multiset(Lines(a, f)) == multiset(Lines(b, f))
    decreases |a|
  {
    if a == [] {
      assert |multiset(b)| == 0;
    } else {
      assert a[0] in multiset(b);
      var k :| 0 <= k < |b| && b[k] == a[0];
      Without(a, 0, f);
      Without(b, k, f);
      var tail, rest := a[..0] + a[1..], b[..k] + b[k + 1..];
      assert multiset(tail) == multiset(a) - multiset{a[0]};
      assert multiset(rest) == multiset(b) - multiset{a[0]};
      LinesPermute(tail, rest, f);
    }
  }

  lemma {:induction false} KeptCount(line: seq<string>, keep: string -> bool, x: string)
    ensures multiset(Kept(line, keep))[x] == if keep(x) then multiset(line)[x] else 0
    decreases line
  {
    if line != [] {
      var n := |line| - 1;
      KeptCount(line[..n], keep, x);
      assert line == line[..n] + [line[n]];
    }
  }

  lemma KeptPermutes(a: seq<string>, b: seq<string>, keep: string -> bool)
    requires multiset(a) == multiset(b)
    ensures multiset(Kept(a, keep)) == multiset(Kept(b, keep))
  {
    forall x
      ensures multiset(Kept(a, keep))[x] == multiset(Kept(b, keep))[x]
    {
      KeptCount(a, keep, x);
      KeptCount(b, keep, x);
    }
  }

  // ---- The command line ----------------------------------------------------

  function TagArgs(spec: Spec, visit: seq<string>): seq<Arg> {
    Each(TracingTag, if spec.tracing.endpoint != "" then TagValues(spec.tracing.tags, visit) else [])
  }

  function AfterTags(spec: Spec): seq<Arg> {
    OtherArgs(Each(TracingInsecure, Switch(spec.tracing.endpoint != "" && spec.tracing.insecure)), spec)
  }

  lemma OtherArgsAppends(before: seq<Arg>, args: seq<Arg>, spec: Spec)
    ensures OtherArgs(before + args, spec) == before + OtherArgs(args, spec)
  {
    var a := Each(DeepMetricsEnabled, Switch(spec.metrics.deep.Some? && spec.metrics.deep.value));
    var b := Each(MetricsAddr, Addresses(spec.metrics.port));
    var c := Each(HealthProbeAddr, Addresses(spec.healthzPort));
    var d := Each(EnableLeaderElection, Switch(spec.replicas.Some? && spec.replicas.value > 1));
    var e := Each(MaxHttpRequestBodySize, Numbers(spec.listener.maxHttpRequestBodySize));
    FiveMore(before, args, a, b, c, d, e);
  }

  lemma FiveMore<T>(x: seq<T>, y: seq<T>, a: seq<T>, b: seq<T>, c: seq<T>, d: seq<T>, e: seq<T>)
    ensures (x + y) + a + b + c + d + e == x + (y + a + b + c + d + e)
  {
  }

  // The command line with the tag arguments singled out.
  lemma TagsInTheMiddle(args: seq<Arg>, spec: Spec, visit: seq<string>)
    ensures OtherArgs(TracingArgs(args, spec.tracing, visit), spec)
         == (args + Each(TracingEndpoint, Texts(spec.tracing.endpoint))) + TagArgs(spec, visit) + AfterTags(spec)
  {
    var before := args + Each(TracingEndpoint, Texts(spec.tracing.endpoint)) + TagArgs(spec, visit);
    OtherArgsAppends(before, Each(TracingInsecure, Switch(spec.tracing.endpoint != "" && spec.tracing.insecure)), spec);
  }

  lemma LinesAppend(a: seq<Arg>, b: seq<Arg>, show: Arg -> string)
    ensures Lines(a + b, show) == Lines(a, show) + Lines(b, show)
  {
  }

  lemma LinesAround(a: seq<Arg>, m1: seq<Arg>, m2: seq<Arg>, b: seq<Arg>, show: Arg -> string)
    requires multiset(Lines(m1, show)) == multiset(Lines(m2, show))
    ensures multiset(Lines(a + m1 + b, show)) == multiset(Lines(a + m2 + b, show))
  {
    LinesAppend(a + m1, b, show);
    LinesAppend(a, m1, show);
    LinesAppend(a + m2, b, show);
    LinesAppend(a, m2, show);
  }

  lemma TagLines(tags: map<string, string>, visit: seq<string>, show: Arg -> string)
    ensures Lines(Each(TracingTag, TagValues(tags, visit)), show)
         == Lines(visit, key => show(Arg(TracingTag, Pair(key, if key in tags then tags[key] else ""))))
  {
  }

  lemma TagsPermute(spec: Spec, v1: seq<string>, v2: seq<string>, show: Arg -> string)
    requires multiset(v1) == multiset(v2)
    ensures multiset(Lines(TagArgs(spec, v1), show)) == multiset(Lines(TagArgs(spec, v2), show))
  {
    var tags := spec.tracing.tags;
    TagLines(tags, v1, show);
    TagLines(tags, v2, show);
    LinesPermute(v1, v2, key => show(Arg(TracingTag, Pair(key, if key in tags then tags[key] else ""))));
  }

  lemma RestPermutes(args: seq<Arg>, spec: Spec, v1: seq<string>, v2: seq<string>, show: Arg -> string)
    requires multiset(v1) == multiset(v2)
    ensures multiset(Lines(OtherArgs(TracingArgs(args, spec.tracing, v1), spec), show))
         == multiset(Lines(OtherArgs(TracingArgs(args, spec.tracing, v2), spec), show))
  {
    TagsInTheMiddle(args, spec, v1);
    TagsInTheMiddle(args, spec, v2);
    TagsPermute(spec, v1, v2, show);
    LinesAround(args + Each(TracingEndpoint, Texts(spec.tracing.endpoint)), TagArgs(spec, v1), TagArgs(spec, v2),
                AfterTags(spec), show);
  }

  lemma LinePermutes(ns: string, spec: Spec, v1: seq<string>, v2: seq<string>)
    requires multiset(v1) == multiset(v2)
    ensures multiset(Line(ArgsOf(ns, spec, v1))) == multiset(Line(ArgsOf(ns, spec, v2)))
  {
    RestPermutes(OidcArgs(ListenerArgs(ns, spec), spec.oidcServer)
                 + Each(EvaluatorCacheSize, Numbers(spec.evaluatorCacheSize)),
                 spec, v1, v2, (arg: Arg) => arg.Text());
  }

  lemma ArgsPermute(image: string, ns: string, spec: Spec, v1: seq<string>, v2: seq<string>)
    requires multiset(v1) == multiset(v2)
    ensures multiset(ArgsFor(image, ns, spec, v1)) == multiset(ArgsFor(image, ns, spec, v2))
  {
    LinePermutes(ns, spec, v1, v2);
    KeptPermutes(Line(ArgsOf(ns, spec, v1)), Line(ArgsOf(ns, spec, v2)), Compatible(KeptFlag));
  }

  // ---- The Deployment ------------------------------------------------------

  // Equal but for the order of the container's arguments.
  predicate SameUpToArgs(a: Manifest, b: Manifest) {
    && a.body.Workload? && b.body.Workload?
    && |a.body.deployment.containers| == 1 && |b.body.deployment.containers| == 1
    && var c, d := a.body.deployment.containers[0], b.body.deployment.containers[0];
      && multiset(c.args) == multiset(d.args)
      && b == a.(body := a.body.(deployment := a.body.deployment.(containers := [c.(args := d.args)])))
  }

  // Two visits of the same tags describe the same Deployment, up to the order of arguments;
  // with at most one tag they describe it alike.
  lemma VisitOrderOnlyPermutesArgs(name: string, ns: string, labels: map<string, string>, spec: Spec, images: Images,
                                   v1: seq<string>, v2: seq<string>)
    requires Enumerates(v1, spec.tracing.tags.Keys) && Enumerates(v2, spec.tracing.tags.Keys)
    ensures var d1, d2 := DeploymentOf(name, ns, labels, spec, images, v1),
      DeploymentOf(name, ns, labels, spec, images, v2);
      && d1.Some? == d2.Some?
      && (d1.Some? ==> SameUpToArgs(d1.value, d2.value))
      && (|spec.tracing.tags| <= 1 ==> d1 == d2)
  {
    SameVisits(spec.tracing.tags.Keys, v1, v2);
    ArgsPermute(ImageOf(spec, images), ns, spec, v1, v2);
    if |spec.tracing.tags| <= 1 {
      assert |spec.tracing.tags.Keys| == |spec.tracing.tags|;
      OneVisit(spec.tracing.tags.Keys, v1, v2);
    }
  }
}
