// Names of the objects the operator creates (pkg/resources/k8s_util.go), and the exact
// law of when two ClusterRoleBinding names coincide. Names are ASCII, so a character is
// a byte.
module Naming {
  import opened Text

  const MAX_NAME_LENGTH: nat := 253
  const MAX_NAMESPACE_LENGTH: nat := 63
  const HASH_LENGTH: nat := 16

  const MANAGER_BINDING_SUFFIX: string := "authorino"
  const K8S_AUTH_BINDING_SUFFIX: string := "authorino-k8s-auth"
  const LEADER_ELECTION_BINDING_SUFFIX: string := "authorino-leader-election"

  type Hash = s: string | |s| == HASH_LENGTH witness "0000000000000000"

  // The first sixteen hexadecimal digits of a digest of the CR name; nothing more is
  // known about it, so every collision it may have is part of the model.
  type Digest = string -> Hash

  function ServiceAccountName(crName: string): string {
    crName + "-authorino"
  }

  // Also the pre-migration name of a ClusterRoleBinding, which omitted the namespace.
  function RoleBindingName(crName: string, suffix: string): string {
    crName + "-" + suffix
  }

  function ClusterRoleBindingName(h: Digest, ns: string, crName: string, suffix: string): string {
    var name := ns + "." + crName + "-" + suffix;
    if |name| <= MAX_NAME_LENGTH then name
    else
      var hash := h(crName);
      var available := MAX_NAME_LENGTH - |ns + "." + hash + "-" + suffix|;
      var room := if available < 0 then 0 else available;
      var truncated := if |crName| > room then crName[..room] else crName;
      ns + "." + truncated + hash + "-" + suffix
  }

  predicate BindingSuffix(s: string) {
    s == MANAGER_BINDING_SUFFIX || s == K8S_AUTH_BINDING_SUFFIX
  }

  // What Kubernetes guarantees of a namespace: an RFC 1123 label, hence at most 63
  // characters and no dot.
  predicate NamespaceLabel(ns: string) {
    |ns| <= MAX_NAMESPACE_LENGTH && '.' !in ns
  }

  // ---- Shape of a ClusterRoleBinding name ----------------------------------

  // How many characters of an over-long CR name survive.
  function Room(ns: string, suffix: string): int {
    MAX_NAME_LENGTH - |ns| - |suffix| - HASH_LENGTH - 2
  }

  // An over-long name: the plain form would not fit.
  predicate Truncated(ns: string, crName: string, suffix: string) {
    |crName| > Room(ns, suffix) + HASH_LENGTH
  }

  // What stands for the CR name between the namespace and the suffix.
  function Core(h: Digest, ns: string, crName: string, suffix: string): string
    requires NamespaceLabel(ns) && BindingSuffix(suffix)
  {
    if Truncated(ns, crName, suffix) then crName[..Room(ns, suffix)] + h(crName) else crName
  }

  lemma Regroup(a: string, b: string, c: string, d: string, e: string)
    ensures a + b + c + d + e == a + (b + (c + (d + e)))
  {
  }

  lemma {:induction false} NameShape(h: Digest, ns: string, crName: string, suffix: string)
    requires NamespaceLabel(ns) && BindingSuffix(suffix)
    ensures Room(ns, suffix) >= 154
    ensures ClusterRoleBindingName(h, ns, crName, suffix)
         == ns + ("." + (Core(h, ns, crName, suffix) + ("-" + suffix)))
  {
    assert |suffix| == 9 || |suffix| == 18;
    var hash := h(crName);
    assert |hash| == HASH_LENGTH;
    var plain := ns + "." + crName + "-" + suffix;
    assert |plain| == |ns| + |crName| + |suffix| + 2;
    Regroup(ns, ".", crName, "-", suffix);
    if Truncated(ns, crName, suffix) {
      var cut := crName[..Room(ns, suffix)];
      Regroup(ns, ".", cut + hash, "-", suffix);
      assert |ns + "." + hash + "-" + suffix| == |ns| + |suffix| + HASH_LENGTH + 2;
      assert ns + "." + cut + hash == ns + "." + (cut + hash);
    }
  }

  // The cap is respected, and reached exactly by the names that were cut.
  lemma {:induction false} NameBound(h: Digest, ns: string, crName: string, suffix: string)
    requires NamespaceLabel(ns) && BindingSuffix(suffix)
    ensures |ClusterRoleBindingName(h, ns, crName, suffix)| <= MAX_NAME_LENGTH
    ensures Truncated(ns, crName, suffix) ==>
      |ClusterRoleBindingName(h, ns, crName, suffix)| == MAX_NAME_LENGTH
  {
    NameShape(h, ns, crName, suffix);
  }

  // The part before the first dot is the namespace, for cut names too.
  lemma {:induction false} NamespaceRecoverable(h: Digest, ns: string, crName: string, suffix: string)
    requires NamespaceLabel(ns) && BindingSuffix(suffix)
    ensures Split(ClusterRoleBindingName(h, ns, crName, suffix), '.')[0] == ns
  {
    NameShape(h, ns, crName, suffix);
    FirstSegment(ns, Core(h, ns, crName, suffix) + ("-" + suffix));
  }

  lemma FirstSegment(ns: string, tail: string)
    requires '.' !in ns
    ensures Split(ns + ("." + tail), '.')[0] == ns
  {
    assert ns + ("." + tail) == ns + ['.'] + tail;
    SplitHead(ns, '.', tail);
  }

  // A name ends in its suffix.
  lemma {:induction false} NameEnds(h: Digest, ns: string, crName: string, suffix: string) returns (left: string)
    requires NamespaceLabel(ns) && BindingSuffix(suffix)
    ensures ClusterRoleBindingName(h, ns, crName, suffix) == left + suffix
  {
    NameShape(h, ns, crName, suffix);
    var core := Core(h, ns, crName, suffix);
    left := ns + "." + core + "-";
    Regroup(ns, ".", core, "-", suffix);
  }

  // ---- When two names coincide ---------------------------------------------

  lemma SuffixesEndDifferently(s1: string, s2: string)
    requires BindingSuffix(s1) && BindingSuffix(s2) && s1 != s2
    ensures s1 != "" && s2 != "" && s1[|s1| - 1] != s2[|s2| - 1]
  {
  }

  // Bindings for different roles never share a name, not even across instances.
  lemma {:induction false} SuffixesNeverCollide(
      h: Digest, ns1: string, cr1: string, s1: string, ns2: string, cr2: string, s2: string)
    requires NamespaceLabel(ns1) && NamespaceLabel(ns2)
    requires BindingSuffix(s1) && BindingSuffix(s2) && s1 != s2
    ensures ClusterRoleBindingName(h, ns1, cr1, s1) != ClusterRoleBindingName(h, ns2, cr2, s2)
    ensures ClusterRoleBindingName(h, ns1, cr1, s1) != RoleBindingName(cr2, s2)
    ensures RoleBindingName(cr1, s1) != RoleBindingName(cr2, s2)
  {
    var left1 := NameEnds(h, ns1, cr1, s1);
    var left2 := NameEnds(h, ns2, cr2, s2);
    SuffixesEndDifferently(s1, s2);
    LastCharacter(left1, s1, left2, s2);
    LastCharacter(left1, s1, cr2 + "-", s2);
    LastCharacter(cr1 + "-", s1, cr2 + "-", s2);
  }

  // Names agree exactly when namespace, suffix and core agree.
  lemma {:induction false} NameDecomposes(
      h: Digest, ns1: string, cr1: string, s1: string, ns2: string, cr2: string, s2: string)
    requires NamespaceLabel(ns1) && NamespaceLabel(ns2)
    requires BindingSuffix(s1) && BindingSuffix(s2)
    ensures ClusterRoleBindingName(h, ns1, cr1, s1) == ClusterRoleBindingName(h, ns2, cr2, s2)
       <==> ns1 == ns2 && s1 == s2 && Core(h, ns1, cr1, s1) == Core(h, ns2, cr2, s2)
  {
    if s1 != s2 {
      SuffixesNeverCollide(h, ns1, cr1, s1, ns2, cr2, s2);
    } else if ClusterRoleBindingName(h, ns1, cr1, s1) == ClusterRoleBindingName(h, ns2, cr2, s2) {
      NameShape(h, ns1, cr1, s1);
      NameShape(h, ns2, cr2, s2);
      NamespaceRecoverable(h, ns1, cr1, s1);
      NamespaceRecoverable(h, ns2, cr2, s2);
      var tail := "-" + s1;
      var core1, core2 := Core(h, ns1, cr1, s1), Core(h, ns2, cr2, s2);
      CancelLeft(ns1, "." + (core1 + tail), "." + (core2 + tail));
      CancelLeft(".", core1 + tail, core2 + tail);
      CancelRight(core1, core2, tail);
    } else {
      NameShape(h, ns1, cr1, s1);
      NameShape(h, ns2, cr2, s2);
    }
  }

  // The ways two different CR names of one namespace can get the same binding name.
  predicate CoresClash(h: Digest, ns: string, cr1: string, cr2: string, suffix: string)
    requires NamespaceLabel(ns) && BindingSuffix(suffix)
  {
    var room := Room(ns, suffix);
    var cut1, cut2 := Truncated(ns, cr1, suffix), Truncated(ns, cr2, suffix);
    || (cut1 && cut2 && cr1[..room] == cr2[..room] && h(cr1) == h(cr2))
    || (cut1 && !cut2 && cr2 == cr1[..room] + h(cr1))
    || (!cut1 && cut2 && cr1 == cr2[..room] + h(cr2))
  }

  // The collision law: two instances share a ClusterRoleBinding name if and only if they
  // live in one namespace, ask for the same binding, and either have the same name or two
  // cut names with equal prefix and hash, or one uncut name spelling the other's cut form.
  lemma {:induction false} CollisionLaw(
      h: Digest, ns1: string, cr1: string, s1: string, ns2: string, cr2: string, s2: string)
    requires NamespaceLabel(ns1) && NamespaceLabel(ns2)
    requires BindingSuffix(s1) && BindingSuffix(s2)
    ensures ClusterRoleBindingName(h, ns1, cr1, s1) == ClusterRoleBindingName(h, ns2, cr2, s2)
       <==> ns1 == ns2 && s1 == s2 && (cr1 == cr2 || CoresClash(h, ns1, cr1, cr2, s1))
  {
    NameDecomposes(h, ns1, cr1, s1, ns2, cr2, s2);
    if ns1 == ns2 && s1 == s2 {
      NameShape(h, ns1, cr1, s1);
      var room := Room(ns1, s1);
      if Truncated(ns1, cr1, s1) && Truncated(ns1, cr2, s1) {
        var kept1, kept2 := cr1[..room], cr2[..room];
        if kept1 + h(cr1) == kept2 + h(cr2) {
          assert (kept1 + h(cr1))[..room] == kept1;
          assert (kept2 + h(cr2))[..room] == kept2;
          CancelLeft(kept1, h(cr1), h(cr2));
        }
      }
    }
  }

  // An instance's namespace-qualified name equals its own pre-migration name only if its
  // CR name is a fixed point of cutting and hashing.
  lemma {:induction false} CanonicalVersusLegacy(h: Digest, ns: string, crName: string, s1: string, s2: string)
    requires NamespaceLabel(ns) && BindingSuffix(s1) && BindingSuffix(s2)
    ensures ClusterRoleBindingName(h, ns, crName, s1) == RoleBindingName(crName, s2)
       <==> s1 == s2 && FixedPoint(h, ns, crName, s1)
  {
    if s1 != s2 {
      SuffixesNeverCollide(h, ns, crName, s1, ns, crName, s2);
    } else {
      var core := Core(h, ns, crName, s1);
      NameShape(h, ns, crName, s1);
      SameTail(ns, core, crName, s1);
      if Truncated(ns, crName, s1) {
        Associate(ns + ".", crName[..Room(ns, s1)], h(crName));
      }
    }
  }

  predicate FixedPoint(h: Digest, ns: string, crName: string, suffix: string)
    requires NamespaceLabel(ns) && BindingSuffix(suffix)
  {
    Truncated(ns, crName, suffix) && crName == ns + "." + crName[..Room(ns, suffix)] + h(crName)
  }

  // Such names exist for some digests: here the name "a.a.a. ... .a" followed by its digest.
  lemma {:induction false} FixedPointExample() returns (h: Digest, ns: string, crName: string)
    ensures NamespaceLabel(ns) && |crName| <= MAX_NAME_LENGTH
    ensures FixedPoint(h, ns, crName, MANAGER_BINDING_SUFFIX)
    ensures ClusterRoleBindingName(h, ns, crName, MANAGER_BINDING_SUFFIX)
      == RoleBindingName(crName, MANAGER_BINDING_SUFFIX)
  {
    var hash := "0123456789abcdef";
    h, ns := (s: string) => hash, "a";
    var body := seq(227, k requires 0 <= k < 227 => if k % 2 == 0 then 'a' else '.');
    crName := body + hash;
    assert Room(ns, MANAGER_BINDING_SUFFIX) == 225;
    assert crName[..225] == body[..225];
    assert body == ns + "." + body[..225];
    CanonicalVersusLegacy(h, ns, crName, MANAGER_BINDING_SUFFIX, MANAGER_BINDING_SUFFIX);
  }

  lemma SameTail(ns: string, core: string, crName: string, s: string)
    ensures ns + ("." + (core + ("-" + s))) == crName + "-" + s <==> ns + "." + core == crName
  {
    var tail := "-" + s;
    assert ns + ("." + (core + tail)) == (ns + "." + core) + tail;
    assert crName + "-" + s == crName + tail;
    if (ns + "." + core) + tail == crName + tail {
      CancelRight(ns + "." + core, crName, tail);
    }
  }

  lemma Associate(a: string, b: string, c: string)
    ensures a + (b + c) == a + b + c
  {
  }
}
