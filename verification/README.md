# A verified model of the Authorino operator

The Authorino operator turns `Authorino` custom resources into running instances: it creates Services, a service
account, role bindings and a Deployment for each, some of them cluster-wide, and reports a `Ready` condition. This
project models that logic in Dafny and proves what the operator promises about it. `dafny verify dfyconfig.toml`
checks everything.

## What is modelled

**The reconcile protocol** (`Objects`, `Cluster`, `Protocol`). A store of objects with uids and resource versions
answers creates, applies, deletes with preconditions, updates with optimistic locking and status patches. One worker
per custom resource makes one API call per step; between any two steps other workers, users and crashes may act. A
call is served, refused, or served and lost on the way back; a read may answer from any earlier state of the store,
except that a worker never sees its own custom resource go back in time. What a worker still has to do is a *plan*, a
list of operations with their error policies. A `Blueprint` gives names and manifests, so that the protocol's theorems
hold for any naming with the stated properties; `Operator` supplies the real one and proves exactly when it has them.

**The code itself.** `Client` is the worker's connection to the store, with everybody else free to act before each
call. `Reconciler` is the reconciler's code, method by method: each makes its calls one after the other, and each call
is accepted only if it is the next call of the worker in the model. So `Reconcile` is a refinement proof: whatever is
answered, the code does what the worker does, and everything proved about workers holds for it.

**Guarantees over all runs.** `Isolation` (instances leave one another alone, and legacy clean-up is an exact
compare-and-delete), `Finalizers`, `Cleanup` and `Leftovers` (when cluster-wide bindings never outlive their resource, a
run in which one does, and that it then stays), `ScopeSwitch` (no permission gap when going cluster-wide), `Lifecycle`
(what passes do to the finalizer), `Backing` (no binding without its role), `Readiness` and `Preflight` (what Ready=True
stands for; no panic but over a missing image), `Reports` (which failure is reported how, and when a pass ends with an
error).

**An undisturbed pass.** `Undisturbed` shows that its small steps add up to the outcome of its plan; on that rest
`Settling`, `Permissions` (the bindings afterwards), `Convergence` and `Exactness` (a second pass changes nothing, and
under which names alone) and `WidePass` (which names may go cluster-wide).

**The operator.** `Guarantees` puts its way of naming and describing objects into these results, over runs and over
passes, and says which names meet their conditions; `RealNames` states them for the operator's own blueprint, with the
constants of its code.

**Names** (`Naming`): the length cap, truncation and hash of cluster-wide binding names, with the exact law of when two
names collide. The hash is any function to sixteen characters.

**Status conditions** (`Conditions`): the association list against a map and against the history of updates.

**The container** (`Flags`, `Args`, `CommandLine`, `RoundTrip`, `Environment`, `ImageTag`, `Workloads`, `VisitOrder`,
`Containers`): the argument printer and a parser that inverts it, the older environment printer and its agreement with
the first, the switch between the two by image tag, volumes and certificates, and the Services that lead to the pods.

**Services and label maps** (`Services`, `ServiceEquality`, `Maps`).

## Where the model decides

- Reasons, role names, the operator's finalizer and its delete annotation are enumerations. So are messages, with the
  server or object they name; the text that the API server adds to an error is not modelled.
- Names are ASCII, so that a character is a byte.
- A server-side apply sets the desired fields and keeps the others. A write that changes nothing keeps the version.
- What the API server refuses on grounds of its own (an immutable role reference, a second controller) is a refused
  call.
- Users do anything but write contents into an instance's cluster-wide bindings, which they may delete and relabel.
- A cluster-wide switch that is absent is off, and the default gRPC port is 50051: so says the code
  (`api/v1beta1/authorino_types.go:69`, `pkg/reconcilers/consts.go:72`), unlike the repository's README.

Four promises hold only under a condition, which is part of the theorem in each case.

- A binding never outlives its resource if and only if the finalizer only ever comes off a resource without bindings
  (`Finalizers.FinalizerSafety`). The clean-up on deletion looks at no outcome: it suffices that none of its deletes is
  refused (`Cleanup.BindingsNeverOutliveResource`), and one that is may orphan a binding (`Cleanup.OneRefusalOrphans`),
  which no worker takes away once its own has seen the resource gone (`Leftovers.LeftForGood`).
- The migration from old binding names takes back what was just granted if the name of the instance is a fixed point of
  truncating and hashing. The permissions postcondition and convergence hold if and only if it is not
  (`Permissions.PermissionsPostcondition`, `Exactness.StableOnlyIfMigratable`, `Naming.FixedPointExample`).
- For the same reason the switch to the cluster-wide scope ends with a manager binding if and only if the name is no
  fixed point for the manager suffix (`ScopeSwitch.NoGapWhenWidening`, `WidePass.WidePassBound`).
- Without the certificate secrets of both servers, the report names the one that was checked first. Two passes that
  check them in different orders then report different messages, and nothing else differs but the version of the
  resource (`Convergence.SecondPass`).

## Model

| member | source | states |
|---|---|---|
| `Isolation.IsolationOverRuns` | pkg/reconcilers/authorino_reconciler.go:116-259 | At every moment of every run - failing calls, lagging reads, crashes, user edits, other instances at work - a cluster-wide binding under an instance's name grants that instance's role to that instance's service account alone, and the next call of any other instance leaves all its own objects (all but the shared leader-election Role and legacy names) exactly as they are |
| `Isolation.OthersUntouched` | pkg/reconcilers/authorino_reconciler.go:333-406 | No call of one instance creates, changes or deletes an own object of another, even when its legacy name spells the other's binding |
| `Isolation.RunKeepsInv` | pkg/reconcilers/authorino_reconciler.go:116-157 | Soundness of names, isolation of bindings, and what workers know of the store are kept over every run |
| `Isolation.LegacyDeleteIsExact` | pkg/reconcilers/authorino_reconciler.go:177-206 | Whatever happened since the read: the legacy delete removes something if and only if it is not refused and the very object that was read still stands, which lists this instance's service account at that moment |
| `Finalizers.FinalizerSafety` | controllers/authorino_controller.go:86-112 | Over every run in which only the operator takes its finalizer off, cluster-wide bindings exist only beside their custom resource with its finalizer, at every moment, if and only if each time the finalizer comes off no binding stands |
| `Cleanup.BindingsNeverOutliveResource` | controllers/authorino_controller.go:86-112 | So it is whenever no delete of the clean-up is refused while its binding stands: from the first state to the last, no binding outlives its resource |
| `Cleanup.CleanupIgnoresFailure` | controllers/authorino_controller.go:146-163 | A clean-up delete leaves its binding exactly when it is refused while the binding stands, and the pass goes on either way |
| `Cleanup.OneRefusalOrphans` | controllers/authorino_controller.go:86-97 | For any names, any spec and any instance there is a legal run of one pass, from a store in which all is guarded, in which one refused delete leaves the manager binding of a deleted resource behind |
| `Leftovers.LeftForGood` | controllers/authorino_controller.go:65-97 | Once the worker has seen the resource gone, then over every run in which no user creates it anew - workers, crashes, lag and failures as ever - a binding stands at the end if and only if it stood at the beginning and no user deleted it |
| `Leftovers.ReadingSeesGone` | controllers/authorino_controller.go:69-77 | Reading the latest state after the resource is gone is enough for that |
| `Lifecycle.NewResourceIsHeld` | controllers/authorino_controller.go:105-112 | An undisturbed pass over a stored resource that is not being deleted and has not got the operator's finalizer adds it: the other finalizers, labels, owners, spec, conditions and every other object are as before, and the next pass installs |
| `Lifecycle.DyingResourceIsReleased` | controllers/authorino_controller.go:86-97 | An undisturbed pass over a resource being deleted that has the finalizer removes the two cluster-wide bindings and takes that finalizer off; foreign finalizers stay, the resource is gone if and only if there are none, and all else is as before |
| `Lifecycle.NothingToDo` | controllers/authorino_controller.go:69-103 | Without a resource, or with one being deleted that lacks the operator's finalizer, a pass leaves everything as it is |
| `Lifecycle.UpdateMovesOnlyFinalizer` | controllers/authorino_controller.go:86-112 | Over every run, an update by a worker either changes nothing or finds the very resource it read and moves the operator's finalizer and nothing else: on to a live one, off a dying one, which is gone exactly if no finalizer is left |
| `Backing.RolesComeFirst` | pkg/reconcilers/authorino_reconciler.go:209-331 | Over every run, a binding to a cluster role is created or applied only after that very role was found in the same pass |
| `ScopeSwitch.NoGapWhenWidening` | pkg/reconcilers/authorino_reconciler.go:209-247 | From a namespaced instance with its binding, through any run in which the resource turns cluster-wide, with any failing calls, there is a manager binding at every moment - for an instance none of whose old names spells its cluster-wide manager binding |
| `WidePass.WidePassBound` | pkg/reconcilers/authorino_reconciler.go:139-247 | That condition is exact: an undisturbed pass in cluster-wide scope ends with a manager binding if and only if no old name spells the cluster-wide one; otherwise both are gone |
| `Readiness.ReadyIsEarned` | pkg/reconcilers/authorino_reconciler.go:408-453 | Over every run, a status about to be written has a Ready entry, never with reason Updated; if that entry is True, then in this very pass the TLS secrets and cluster roles were found, the three Services, the service account, the k8s-auth, manager and leader-election bindings were created or applied without error, and the Deployment was read with status True in its first condition of type Available, and then applied |
| `Readiness.RunOnRecord` | pkg/reconcilers/authorino_reconciler.go:333-366 | Over every run, what a worker has before it is the rest of a plan all of whose earlier operations are on record as having gone through |
| `Objects.AvailableExactly` | pkg/reconcilers/deployment.go:429-437 | A Deployment counts as available if and only if its first condition of type Available has status True; other types and later entries do not matter |
| `Reports.ReportsAreEarned` | pkg/reconcilers/authorino_reconciler.go:408-579 | Over every run: what a pass is about to report follows from its last exchange by a table over request, response and kind of object - reason, verb and name of a failed read, creation or update, the missing certificate or role, or whether the Deployment was available - written over the conditions that were fetched; and when no report is due, the last exchange was none that calls for one: failed updates of the shared Role, failed deletions and failures over legacy bindings go by in silence |
| `Reports.ErrorsAreEarned` | controllers/authorino_controller.go:65-135 | Over every run: a pass is over only after certain exchanges, never right after a failed write of a managed object, and it ends with an error if and only if the last one says so: a refused finalizer update, a reported error, a failed report, an unreadable resource, an unknown image; failing to remove the manager binding of the other scope does not end it |
| `Preflight.PanicMeansNoImage` | controllers/authorino_controller.go:165-202 | Once all before the Deployment went through, building it panics exactly when no image is known, never over an unnamed certificate secret |
| `Preflight.NoPanicInRuns` | pkg/reconcilers/deployment.go:38-101 | Over every run, a worker whose plan after the operation at hand is the panic works for a resource without a known image |
| `Undisturbed.AloneRunsPlan` | pkg/reconcilers/authorino_reconciler.go:333-366 | The calls of an undisturbed pass, one by one, leave exactly what the plan says as a whole, including the final report |
| `Settling.RunPlanSettles` | pkg/reconcilers/authorino_reconciler.go:333-366 | A plan whose operations respect one another leaves every operation it got to with nothing more to do |
| `Settling.InstallTidy` | controllers/authorino_controller.go:114-134 | Under any names the plan of a pass comes in rank order with the keys and manifests of the blueprint; where no old name spells a wanted binding, such a plan is of the kind above (`TidyIsOrderly`) |
| `Permissions.PermissionsPostcondition` | pkg/reconcilers/authorino_reconciler.go:116-157 | After the permissions part, undisturbed: exactly one of the two manager bindings, the one of the scope; the k8s-auth binding, leader-election Role and binding; no legacy binding listing the service account - if and only if the old names spell none of the wanted bindings |
| `Permissions.StandingNeedsApartNames` | pkg/reconcilers/authorino_reconciler.go:171-207 | In no store at all can the permissions stand under a name that the migration cleans up |
| `Convergence.SecondPass` | controllers/authorino_controller.go:114-134 | After one undisturbed pass, another one leaves every object and version and the reported conditions as they are, messages included; only the Deployment may be applied once more, and only if another order of tags describes it differently. With equal descriptions the store is the same if and only if it is not so that both certificate secrets are missing and the passes check the servers in different orders: then every other object is the same, and the custom resource too up to its version and the message of its Ready condition |
| `Convergence.SwappedPass` | pkg/reconcilers/status.go:16-33 | In that one case, whatever the names of the instance, the second pass does rewrite the message: spec, metadata, uid, and the conditions entry by entry are otherwise as they were |
| `Convergence.PassRunsPlan` | controllers/authorino_controller.go:65-135 | A pass is its plan's outcome plus one status report |
| `Convergence.EitherOrder` | controllers/authorino_controller.go:170-202 | The order in which the two servers are checked shows in the outcome of a pass if and only if both certificate secrets are missing; it never shows in what is left to do |
| `Exactness.StableOnlyIfMigratable` | controllers/authorino_controller.go:114-134 | A store that a pass leaves as it is has its permissions standing, and its instance's old names spell none of them |
| `Exactness.UnchangedMeansSettled` | pkg/reconcilers/authorino_reconciler.go:333-366 | A plan leaves a store as it is only where all it gets to is settled: creations, updates and removals never cancel out |
| `RealNames.SoundExactly` | pkg/resources/k8s_util.go:57-86 | The operator's instances are independent if and only if no two of one namespace have clashing names; across namespaces nothing clashes |
| `RealNames.PermitsExactly` | pkg/reconcilers/authorino_reconciler.go:139-157 | The permissions postcondition for the operator: it holds if and only if the instance's name is no fixed point for a binding its scope asks for |
| `RealNames.Converges` | pkg/reconcilers/deployment.go:253-255 | Convergence of the operator: nothing changes but possibly the order of the tag arguments, and with at most one tag nothing at all, if and only if not both certificate secrets are missing while the passes check the servers in different orders; then nothing changes but the message of Ready and with it the version of the resource |
| `RealNames.InitialExactly` | pkg/resources/k8s_util.go:57-86 | A clean state begins the runs of all the guarantees if and only if no two instances of one namespace have clashing names |
| `RealNames.Isolates` | pkg/resources/k8s_rbac.go:9-57 | Isolation of the operator: over every run, a binding under the name built from an instance's namespace, name and the suffix of a role grants that role to that instance's own service account and to nobody else |
| `RealNames.Guards` | controllers/authorino_controller.go:86-112 | Finalizer safety of the operator: such a binding exists only while the Authorino resource of that namespace and name is stored with the finalizer |
| `RealNames.Widens` | pkg/reconcilers/authorino_reconciler.go:209-247 | No gap when going cluster-wide, over every run, for an instance whose name is no fixed point for the manager suffix |
| `RealNames.WidensExactly` | pkg/reconcilers/authorino_reconciler.go:139-247 | And for no other: an undisturbed pass in cluster-wide scope ends with a manager binding if and only if the name is no such fixed point |
| `Operator.OperatorIsSound` | pkg/resources/k8s_util.go:22-55 | The operator's names and manifests make instances independent exactly when no two share the name of a cluster-wide binding |
| `Operator.OwnKeys` | pkg/resources/k8s_util.go:22-55 | Two own objects of any instances have the same key only if they are the same object of the same instance |
| `Operator.SharedBindingName` | pkg/resources/k8s_util.go:57-86 | Two instances share a binding name if and only if they live in one namespace and their names clash |
| `Operator.ApartExactly` | pkg/reconcilers/authorino_reconciler.go:177-183 | An old name of an instance spells its own binding exactly when its name is a fixed point |
| `Operator.ManifestsOk` | pkg/resources/k8s_rbac.go:9-57 | Every manifest has the key of its object, no delete tag, a body of its kind, and as a binding the role and service account of its instance |
| `Operator.CheckedRoleIsBound` | pkg/reconcilers/consts.go:12-13 | The cluster role that is looked for before a binding is the one, by kind and name, that the binding refers to |
| `Operator.Ownership` | pkg/reconcilers/authorino_reconciler.go:544-555 | Everything but the cluster-wide bindings is owned by its custom resource, and accounts and bindings carry its labels |
| `Cluster.SameVersionSameObject` | pkg/reconcilers/authorino_reconciler.go:196-205 | An object with the same version at two times stood unchanged in between: what makes preconditions exact |
| `Client.Client.Call` | pkg/reconcilers/authorino_reconciler.go:368-406 | Whatever others did before and whatever comes back, a call moves the worker of the model on by one step; a quiet client stays on the way to the result of an undisturbed pass |
| `Client.QuietStep` | pkg/reconcilers/authorino_reconciler.go:333-366 | A served call with a current answer is a step of an undisturbed pass |
| `Reconciler.AuthorinoReconciler.Reconcile` | controllers/authorino_controller.go:65-135 | The code makes exactly the calls of the worker and ends as it does, with an error or without; bindings are isolated afterwards; a quiet client leaves what an undisturbed pass leaves |
| `Reconciler.AuthorinoReconciler.Pass` | controllers/authorino_controller.go:65-135 | The dispatch on deletion mark, finalizer and installation |
| `Reconciler.AuthorinoReconciler.Install` | controllers/authorino_controller.go:114-134 | Preflight, Services, service account, permissions and Deployment, each ending the pass on error |
| `Reconciler.AuthorinoReconciler.InstallationPreflightCheck` | controllers/authorino_controller.go:165-202 | The loop over the two servers, in either order, passes the preflight part of the plan; a secret unnamed, missing or unreadable ends the pass with a report that names its server |
| `Reconciler.AuthorinoReconciler.CleanupClusterScopedPermissions` | controllers/authorino_controller.go:146-163 | Both deletes are made whatever comes of them |
| `Reconciler.AuthorinoReconciler.ReconcileResource` | pkg/reconcilers/authorino_reconciler.go:333-366 | Read, then create, delete or apply; the triple returned settles the operation as its caller's policy says |
| `Reconciler.AuthorinoReconciler.CheckClusterRoleExists` | pkg/reconcilers/authorino_reconciler.go:315-331 | A missing or unreadable cluster role is reported by name and ends the pass |
| `Reconciler.AuthorinoReconciler.ReconcileService` | pkg/reconcilers/authorino_reconciler.go:455-483 | Errors by what was being done, reported as the plan's policy says |
| `Reconciler.AuthorinoReconciler.ReconcileAuthorinoServices` | pkg/reconcilers/authorino_reconciler.go:50-114 | The three Services in order, at their effective ports |
| `Reconciler.AuthorinoReconciler.ReconcileAuthorinoServiceAccount` | pkg/reconcilers/authorino_reconciler.go:544-579 | The service account part of the plan |
| `Reconciler.AuthorinoReconciler.ClusterRoleStatus` | pkg/reconcilers/authorino_reconciler.go:519-542 | A failed deletion of a binding is neither reported nor returned; other failures are reported, and end the pass unless the caller ignores them |
| `Reconciler.AuthorinoReconciler.ReconcileManagerClusterRoleBinding` | pkg/reconcilers/authorino_reconciler.go:209-230 | Ensured when cluster-wide, tagged for deletion otherwise, with errors ignored then |
| `Reconciler.AuthorinoReconciler.ReconcileManagerRoleBinding` | pkg/reconcilers/authorino_reconciler.go:232-247 | The namespaced manager binding, tagged for deletion when cluster-wide |
| `Reconciler.AuthorinoReconciler.ReconcileManagerAuthClusterRoleBinding` | pkg/reconcilers/authorino_reconciler.go:249-259 | The k8s-auth binding |
| `Reconciler.AuthorinoReconciler.ReconcileLeaderElectionRole` | pkg/reconcilers/authorino_reconciler.go:261-297 | The shared Role; only errors of its read and creation count |
| `Reconciler.AuthorinoReconciler.ReconcileLeaderElectionRoleBinding` | pkg/reconcilers/authorino_reconciler.go:299-313 | The leader-election binding |
| `Reconciler.AuthorinoReconciler.CleanupLegacyClusterRoleBindings` | pkg/reconcilers/authorino_reconciler.go:171-207 | Both legacy names in turn; nothing that happens is an error |
| `Reconciler.AuthorinoReconciler.RetireBinding` | pkg/reconcilers/authorino_reconciler.go:184-205 | Deleted only as the object that was read, and only if it lists the service account |
| `Reconciler.AuthorinoReconciler.ReconcileAuthorinoPermissions` | pkg/reconcilers/authorino_reconciler.go:116-157 | The permissions part of the plan, step by step |
| `Reconciler.AuthorinoReconciler.ReconcileAuthorinoDeployment` | pkg/reconcilers/authorino_reconciler.go:28-48 | The Deployment part; a panic ends the pass |
| `Reconciler.AuthorinoReconciler.ReconcileDeployment` | pkg/reconcilers/authorino_reconciler.go:408-453 | The report follows the Deployment as read before it was applied |
| `Reconciler.AuthorinoReconciler.UpdateStatusConditions` | pkg/reconcilers/status.go:35-52 | The patch carries the fetched conditions with the new one merged in |
| `Reconciler.AuthorinoReconciler.WrapErrorWithStatusUpdate` | pkg/reconcilers/status.go:16-33 | The error is reported with its reason and message and the pass ends with it, whether or not the report got through |
| `Naming.NameBound` | pkg/resources/k8s_util.go:57-86 | A binding name has at most 253 characters, and exactly 253 when it was truncated |
| `Naming.NamespaceRecoverable` | pkg/resources/k8s_util.go:41-46 | The part of a binding name before the first dot is the namespace, truncated names included |
| `Naming.SuffixesNeverCollide` | pkg/resources/k8s_util.go:30-55 | Bindings for different roles never share a name, new or old, across any instances |
| `Naming.CollisionLaw` | pkg/resources/k8s_util.go:47-86 | Two binding names are equal if and only if namespace and suffix are, and the instance names are equal or clash |
| `Naming.CanonicalVersusLegacy` | pkg/resources/k8s_util.go:38-46 | A new name equals the instance's own old name if and only if the instance name is a fixed point |
| `Naming.FixedPointExample` | pkg/resources/k8s_util.go:57-86 | Such a name exists for some digest |
| `Conditions.AddOrUpdateStatusCondition` | pkg/condition/condition.go:22-51 | The result is the updated list, the flag says whether it differs, and an unchanged list is the caller's own slice |
| `Conditions.AddOrUpdateStatusConditions` | pkg/condition/condition.go:11-20 | All updates in order; the flag says whether some update, in its turn, changed the list |
| `Conditions.HistoryRefinesMap` | pkg/condition/condition.go:11-51 | After any updates there is one entry per type, holding the latest status, reason and message, dated at the start of the run of that status |
| `Conditions.ReadyIsLastReported` | api/v1beta1/authorino_types.go:175-183 | Ready() is the status the last Ready update asked for |
| `Conditions.TransitionTimes` | pkg/condition/condition.go:22-51 | The run of the current status has a first update - all later ones of the type carry that status, the one before, if any, another - and the entry of the type is dated by it; with a clock that never goes back no later update is dated earlier |
| `Args.BuildAuthorinoArgs` | pkg/reconcilers/deployment.go:158-287 | The guarded appends print each flag with the values the spec asks for, in order |
| `CommandLine.ArgsCarryValues` | pkg/reconcilers/deployment.go:158-287 | For every flag, the values on the printed command line are those of the spec |
| `RoundTrip.RoundTrip` | pkg/reconcilers/deployment.go:158-287 | Parsing the printed line gives back the effective spec if and only if no tag key has an equals sign and no cipher name a comma, as far as tags and ciphers are printed |
| `RoundTrip.PassedAtMostOnce` | pkg/reconcilers/deployment.go:158-287 | No flag but the tracing tag is passed twice |
| `RoundTrip.LinePassesValues` | pkg/reconcilers/deployment.go:158-287 | Reading a flag off the printed line gives the texts of its values |
| `Environment.BuildAuthorinoEnv` | pkg/reconcilers/deployment.go:291-411 | The older printer: each variable with the value the spec asks for |
| `Environment.EnvironmentAgreesWithArgs` | pkg/reconcilers/deployment.go:291-411 | For each of the sixteen pairs, the variable is set to exactly the text the flag is passed; the deep-metrics variable is true exactly when the bare flag is there |
| `Environment.NamesCorrespond` | pkg/reconcilers/consts.go:21-36 | Every variable is spelled like its flag, in capitals: of one length, with corresponding first and tenth characters |
| `Environment.NamesTell` | pkg/reconcilers/consts.go:21-62 | And like no other flag |
| `Environment.CompatibleArgs` | pkg/reconcilers/deployment.go:118-132 | The filter keeps, in order, the arguments of the two kept flags |
| `Environment.KeptArgs` | pkg/reconcilers/deployment.go:118-132 | What is kept reads as before, and everything else is gone |
| `Environment.KeptNotInEnv` | pkg/reconcilers/deployment.go:291-411 | No environment variable repeats an argument that is kept |
| `ImageTag.OldImageDetection` | pkg/reconcilers/deployment.go:414-427 | For a release image the environment is chosen exactly when its minor version is at most 10, of however many digits |
| `ImageTag.MatchHasParts` | pkg/reconcilers/deployment.go:414-422 | Whenever the pattern matches, the part that is then indexed exists |
| `ImageTag.UnanchoredPattern` | pkg/reconcilers/deployment.go:414-422 | The pattern is not anchored: behind another version number it is that one which decides |
| `Workloads.AuthorinoDeployment` | pkg/reconcilers/deployment.go:38-156 | The Deployment built step by step is the described one, or none where the code panics |
| `Workloads.AuthorinoContainer` | pkg/resources/k8s_deployment.go:37-52 | Arguments and environment that suit the image |
| `Workloads.DeploymentWellBuilt` | pkg/reconcilers/deployment.go:53-113 | There is a Deployment exactly when an image is known and every server that is on names its secret; volumes and mounts belong together; each user volume projects its ConfigMaps, then its Secrets, in order |
| `Workloads.ProjectedSources` | pkg/reconcilers/deployment.go:59-85 | One source per ConfigMap, then one per Secret |
| `Workloads.MountCertificate` | pkg/resources/k8s_deployment.go:54-80 | Two mounts and one volume per server that is on |
| `Containers.ReleaseContainer` | pkg/reconcilers/deployment.go:114-132 | The one container of the Deployment, for a release image v0.M: with M above 10 it has no environment and arguments that read back as the spec (under the conditions of `RoundTrip`); otherwise each variable has the text of the spec, there are no others, and of the arguments exactly those of the two kept flags |
| `Containers.OtherContainer` | pkg/reconcilers/deployment.go:114-132 | With an image whose tag is no such version it is configured by arguments alone |
| `Containers.PodFields` | pkg/reconcilers/deployment.go:38-52 | Image of the spec, else the related one, else the one built in; pull policy Always and one replica unless asked otherwise; the pod runs as the service account of the instance |
| `Containers.CertificatesInPlace` | pkg/resources/k8s_deployment.go:54-80 | Each server whose TLS is not switched off finds certificate and key of its own secret at the very paths its flags name; every volume of the user is mounted where asked |
| `Containers.ServicesSelectOwnPods` | pkg/resources/k8s_services.go:64-78 | A Service, or a Deployment, selects the pods of an instance of its namespace if and only if it belongs to that instance |
| `VisitOrder.VisitOrderOnlyPermutesArgs` | pkg/reconcilers/deployment.go:253-255 | Two visits of the tags describe the same Deployment up to the order of arguments, and alike with at most one tag |
| `Services.PortAgreement` | pkg/reconcilers/authorino_reconciler.go:55-102 | Every Service exposes its effective port exactly when that is not zero, once, over TCP, forwarded to the same port of the pod, and exposes nothing else; the container is told a port exactly when the spec names one, and then that port |
| `Services.EffectivePorts` | pkg/reconcilers/authorino_reconciler.go:57-102 | The ports in effect: that of the spec, for gRPC the newer field before the deprecated one, or 50051, 5001, 8083 and 8080 |
| `Services.ServiceLabels` | pkg/resources/k8s_services.go:12-44 | All Services carry the labels of the custom resource; those of the metrics Service itself win over them |
| `Services.NewAuthService` | pkg/resources/k8s_services.go:12-21 | The described Service |
| `Services.NewOIDCService` | pkg/resources/k8s_services.go:23-29 | The described Service |
| `Services.NewMetricsService` | pkg/resources/k8s_services.go:31-44 | The described Service; the label map of the custom resource is left as it was |
| `ServiceEquality.ComparesUpToOrder` | pkg/resources/k8s_services.go:46-62 | With distinct port names, two Services compare equal exactly when selectors agree and ports are the same up to order, whatever sorting function is used |
| `ServiceEquality.ComparesAsEquivalence` | pkg/resources/k8s_services.go:46-62 | For all Services and any sorting function the comparison is reflexive, symmetric and transitive, and equal means the same selector and the same ports up to order |
| `ServiceEquality.SharedNamesDiffer` | pkg/resources/k8s_services.go:46-62 | Where two ports share a name their order may show: under insertion sort, which the library uses for few elements, the same two ports in two orders compare unequal |
| `Maps.MergeMapStringString` | pkg/resources/map_utils.go:15-34 | Existing entries overridden by desired ones, in place unless the map was nil; the flag says whether an update was needed; aliasing allowed |
| `Maps.CopyMap` | pkg/resources/map_utils.go:36-47 | A map of its own with the same entries; nil stays nil |
| `Maps.MapUpdateNeeded` | pkg/resources/k8s_deployment.go:82-89 | Whether a desired entry is missing or different |
| `Maps.MergeMeetsNeed` | pkg/resources/map_utils.go:15-34 | A merge changes something exactly when an update was needed, and afterwards none is |
| `Objects.TagObjectToDelete` | pkg/reconcilers/deployment.go:18-36 | The tag is set and nothing else changes |
| `Objects.SubjectIncluded` | pkg/resources/k8s_rbac.go:59-68 | The search finds exactly the subjects equal in kind, name and namespace |
| `Text.AtoiIntText` | pkg/reconcilers/deployment.go:166-286 | Reading back what the integer verb printed |

## Left out

- The wording of messages, the error text of the API server inside them, and log output: messages are told apart by what they say and name.
- Field-manager bookkeeping of server-side apply, garbage collection by owner references, caches and watches: not in the repository.
- SHA-256, the regular-expression engine and JSON encoding: an arbitrary sixteen-character digest, a recogniser of the one pattern, and equality of what is encoded stand for them.
- `ctrl.SetControllerReference` failing, and contexts without a logger: neither happens in the operator's own set-up.
- The modes of single keys in projected volumes, and fields that only the API server fills in.
- Two-step deletion of bindings: bindings carry no finalizers.
- The reverse switch from cluster-wide to namespaced scope deletes first, so that no claim of an unbroken grant is made for it.
- The leader-election Role as private to an instance: its name is fixed per namespace, and the model shares it too.
- main.go, pkg/log, flag parsing and manager set-up: process plumbing.
- zz_generated.deepcopy.go, YAML manifests, Helm charts, Makefiles: generated code and configuration.
