// Service accounts, role bindings and the leader-election role
// (pkg/resources/k8s_rbac.go, pkg/reconcilers/authorino_reconciler.go:209-313).
module Rbac {
  import opened Text
  import opened Objects
  import opened Naming

  function GetAuthorinoServiceAccount(ns: string, crName: string, labels: map<string, string>): Manifest {
    Manifest(Key(ServiceAccountKind, ns, ServiceAccountName(crName)), labels, map[], None, Empty)
  }

  function GetSubjectForRoleBinding(account: Manifest): Subject {
    Subject(ServiceAccountKind, account.key.name, account.key.ns)
  }

  function GetAuthorinoClusterRoleBinding(
      h: Digest, ns: string, crName: string, suffix: string, role: RoleName, account: Manifest,
      labels: map<string, string>): Manifest {
    Manifest(Key(ClusterRoleBindingKind, "", ClusterRoleBindingName(h, ns, crName, suffix)), labels, map[], None,
             Binding(RoleRef(ClusterRoleKind, role), [GetSubjectForRoleBinding(account)]))
  }

  function GetAuthorinoRoleBinding(
      ns: string, crName: string, suffix: string, roleKind: Kind, role: RoleName, account: Manifest,
      labels: map<string, string>): Manifest {
    Manifest(Key(RoleBindingKind, ns, RoleBindingName(crName, suffix)), labels, map[], None,
             Binding(RoleRef(roleKind, role), [GetSubjectForRoleBinding(account)]))
  }

  // The names of the cluster roles, which the operator's installation brings along.
  function RoleText(role: RoleName): string {
    match role
    case ManagerRole => "authorino-manager-role"
    case K8sAuthRole => "authorino-manager-k8s-auth-role"
    case LeaderElectionRole => LEADER_ELECTION_ROLE
    case OtherRole(name) => name
  }

  const LEADER_ELECTION_ROLE: string := "authorino-leader-election-role"

  function GetLeaderElectionRules(): seq<PolicyRule> {
    [PolicyRule([""], ["configmaps"], ["get", "list", "watch", "create", "update", "patch", "delete"]),
     PolicyRule([""], ["configmaps/status"], ["get", "update", "patch"]),
     PolicyRule([""], ["events"], ["create", "patch"]),
     PolicyRule(["coordination.k8s.io"], ["leases"], ["get", "list", "create", "update"])]
  }

  // The Role carries a fixed name and no labels.
  function LeaderRoleManifest(ns: string, name: string, rules: seq<PolicyRule>): Manifest {
    Manifest(Key(RoleKind, ns, name), map[], map[], None, Rules(rules))
  }

  // ctrl.SetControllerReference. Cluster-wide objects get no owner.
  function Owned(m: Manifest, uid: nat): Manifest {
    m.(owner := Some(uid))
  }
}
