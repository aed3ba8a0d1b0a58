# teleport-operator: a verified model

The operator watches Cluster API `Cluster` objects. For each one it keeps a Teleport join token for nodes in a Secret, a
values document with a second token in a ConfigMap, a reference to that ConfigMap in the HelmRelease or App of
`teleport-kube-agent`, and, if the bot is enabled, a ConfigMap and a reference for the shared `teleport-tbot`. A
finalizer guards all of this until the Cluster is deleted. This project models that reconcile loop in Dafny and proves
what it promises over whole runs in which any client call may fail.

## How the model is built

- `Environment` is the world: Clusters, Secrets, ConfigMaps, HelmReleases, Apps, the Teleport token store, the token
  generator's counter, the clock, and a script. The script holds one entry, the time taken, for every client call that
  will still succeed; when it is used up the next call fails. A theorem over all scripts is therefore a theorem over
  every point at which a reconcile may stop.
- `Server`, `Teleport` and `Controller` are the imperative code: classes whose methods make one client call after
  another, assign the cached identity, client and roles, and run the loops of the source. Each method is proved equal,
  in its effect on the world and in its verdict, to a function of module `Machine`. `ClusterReconciler.Reconcile`
  requires that the Teleport client is there only as far as `Valid()` says so; that it is there wherever a token is
  checked, generated or deleted is proved.
- `Values`, `Yaml`, `Documents`, `RoundTrip` and `Layouts` treat the values document as text: the renderers, a parser
  for the emitted subset of YAML 1.2.2 (block mappings of one or two levels, sections 8.2.2 and 7.3.1), and what the
  two mean together.
- `Roles`, `Versions`, `Tokens`, `TokenRuns` and `References` hold role strings, version precedence (section 11 of
  Semantic Versioning 2.0.0), tokens, and reference lists with Go's difference between nil and empty.
- `Effects`, `Steps`, `Injection` say what each part of a reconcile can touch and what it leaves behind.
- `Goal` says what the operator is for with names, labels, keys, roles and values spelled out, and proves that the
  states the other modules speak of mean just that.
- `Registration`, `Progress`, `Convergence`, `Accounting`, `Minting`, `Removal`, `Ownership`, `Isolation`, `Finalizers`,
  `Clock` and `IdentityGate` prove the properties of one reconcile, wherever it stops; `Reconciliation` and `Interference` state
  them for the whole of it, and `Resumption` for any number of interrupted deletions.
- `Runs` puts reconciles of any clusters, changes from outside and restarts of the operator in any order, and proves
  the invariant from which finalizer safety, the register-name invariant and convergence follow.

Five promises a reader might expect are false of the code. Each is replaced by the condition under which it holds,
and the condition is exact:

- deregistration leaves no token: if and only if there was at most one (`Removal.TokensLeft`);
- an uninterrupted reconcile registers the cluster: if and only if the stored Secret and document can be read and the
  document names this cluster (`Reconciliation.LiveReconcileExactly`);
- deregistration leaves no reference: if and only if no App under a HelmRelease of the same name holds one
  (`Ownership.DeregisterLeavesNothing`);
- clusters are isolated from each other: if and only if their names differ and, when the bot is enabled, the values
  ConfigMap of neither is the tbot ConfigMap of the other (`Interference.IsolatedExactly`). Two clusters of the same name
  in two namespaces are never isolated, because they share a register name;
- the token check is exact for a list of expected roles: if and only if no role is repeated
  (`Tokens.ExactIffDistinct`). A comment in `IsTokenValid` says that it checks for all the expected roles; the code
  compares lengths and inclusion in one direction. The operator never asks for repeated roles.

The assumptions are stated as preconditions: the generator never repeats a name and its names need no escaping
(`Effects.GoodGenerator`); token names in the store are unique and not among those still to come
(`Effects.FreshNames`); the proxy address, the Teleport version and register names need no escaping in a double-quoted
scalar (`Steps.WellFormed`); the clusters of a run do not interfere (`Runs.Apart`); and between reconciles nobody forges
or edits the operator's own objects (`Runs.Tolerable`).

## Model

| member | source | states |
|---|---|---|
| Controller.ClusterReconciler.Reconcile | internal/controller/cluster_controller.go:61-320 | world, verdict and memory after the whole reconcile are those of the machine; a client that is there for every recent identity stays so |
| Controller.ClusterReconciler.ReconcileFound | internal/controller/cluster_controller.go:78-320 | the roles are recorded before the gate, and survive a failed one |
| Controller.ClusterReconciler.EnsureClient | internal/controller/cluster_controller.go:89-106 | success means a non-nil client; a failed connection leaves nil and the old identity |
| Controller.ClusterReconciler.EnsureSecret | internal/controller/cluster_controller.go:180-213 | the node token is created, kept or rotated as the machine says, also when a call fails |
| Controller.ClusterReconciler.EnsureConfigMap | internal/controller/cluster_controller.go:225-281 | a missing ConfigMap is created, an unreadable one is an error, a readable one is rotated |
| Controller.ClusterReconciler.RotateConfigMap | internal/controller/cluster_controller.go:239-280 | the single comparison of the rendered bytes decides whether to write, with the token chosen before |
| Controller.ClusterReconciler.EnsureReference | internal/controller/cluster_controller.go:283-292 | the manager of the preferred kind adds the reference |
| Controller.ClusterReconciler.EnsureBot | internal/controller/cluster_controller.go:294-315 | the bot is attached only while no kubeconfig Secret exists |
| Controller.ClusterReconciler.Register | internal/controller/cluster_controller.go:173-319 | the live path in the order of the source, any prefix of it on failure |
| Controller.ClusterReconciler.Deregister | internal/controller/cluster_controller.go:115-171 | the deletion path in the order of the source, finalizer last |
| Teleport.Teleport.IsTokenValid | internal/pkg/teleport/token.go:16-50 | the scan over listed tokens gives the machine's verdict; a bad role string is an error after the listing |
| Teleport.Teleport.GenerateToken | internal/pkg/teleport/token.go:61-82 | one upsert of a token under the next generated name, labelled, valid 720 hours from before the call |
| Teleport.Teleport.DeleteToken | internal/pkg/teleport/token.go:84-99 | only the first token of the label is deleted |
| Teleport.Teleport.CreateConfigMap | internal/pkg/teleport/configmap.go:123-153 | a ConfigMap that has appeared meanwhile is left alone |
| Teleport.Teleport.UpdateConfigMap | internal/pkg/teleport/configmap.go:197-212 | the document is rewritten under the register name read from the stored one |
| Teleport.Teleport.EnsureTbotConfigMap | internal/pkg/teleport/configmap.go:155-190 | created only if absent, never rewritten |
| Teleport.Teleport.NewTeleportAppConfigManager | internal/pkg/teleport/app_manager.go:114-153 | HelmRelease before App, neither is no error |
| Teleport.Teleport.EnsureConfig | internal/pkg/teleport/app_manager.go:164-303 | the list with the reference is written exactly when it differs from the one read |
| Teleport.Teleport.DeleteConfig | internal/pkg/teleport/app_manager.go:194-339 | the list without the reference is written exactly when it differs, a nil App list never |
| Teleport.Teleport.GetTeleportKubeAgentVersion | internal/pkg/teleport/app_manager.go:36-66 | HelmRelease before App, "" when there is neither |
| Teleport.Teleport.AddFinalizer | internal/pkg/teleport/finalizer.go:32-45 | the finalizer is appended once; patching a Cluster that is gone counts as success |
| Teleport.Teleport.RemoveFinalizer | internal/pkg/teleport/finalizer.go:17-30 | every occurrence is taken off; the last finalizer of a deleted Cluster takes the Cluster with it |
| Teleport.Teleport.GetIdentityConfigFromSecret | internal/pkg/config/identity.go:36-63 | a missing Secret or key is an error; the identity is stamped with the time it was read |
| Runs.RunInvariant | internal/controller/cluster_controller.go:61-320 | in every state of every run: fresh token names, a connected client, readable objects and a guarding finalizer for every cluster |
| Runs.FinalizerSafety | internal/controller/cluster_controller.go:115-178 | over whole runs a cluster without the finalizer has no Secret, ConfigMap or reference of the operator left |
| Runs.StoredRegisterName | internal/pkg/teleport/configmap.go:192-226 | over whole runs the stored kubeClusterName is the computed register name |
| Runs.RunConverges | internal/controller/cluster_controller.go:173-319 | after any run one uninterrupted reconcile of a live cluster reaches the goal, spelled out in Goal.Reached |
| Runs.RunCleansUp | internal/controller/cluster_controller.go:115-171 | after any run one uninterrupted reconcile of a deleted cluster leaves nothing behind, spelled out in Goal.Gone |
| Runs.GateOverRuns | internal/controller/cluster_controller.go:89-106 | a reconcile that does not pass the gate only takes time; one that does has a client built from the cached identity, at most 20 minutes old on arrival or read by this reconcile |
| Runs.RunKeepsForeign | internal/pkg/teleport/app_manager.go:164-358 | over whole runs the foreign entries of any resource, the shared bot included, stay in their order unless changed from outside |
| Runs.RunKeepsFinalizers | internal/pkg/teleport/finalizer.go:17-45 | over whole runs the finalizers of others stay on every Cluster in their order unless changed from outside, and a Cluster goes only when none of them is left |
| Reconciliation.LiveReconcileExactly | internal/controller/cluster_controller.go:173-319 | an uninterrupted live reconcile reaches the goal, spelled out and in terms of the machine, if and only if what was stored is recoverable; it asks to be called again after 5 minutes |
| Reconciliation.DeletingReconcileExactly | internal/controller/cluster_controller.go:115-171 | an uninterrupted deletion reconcile takes the finalizer off, and leaves nothing owned if and only if no App under a HelmRelease holds a reference |
| Reconciliation.ReconcileQuiet | internal/controller/cluster_controller.go:180-315 | in a registered state whose tokens outlive the call there is no write and no new token, interrupted or not |
| Reconciliation.ReconcileAccounting | internal/controller/cluster_controller.go:185-281 | at most two tokens per reconcile; on success each in exactly one of Secret and ConfigMap; on failure at most the last in neither |
| Reconciliation.ReconcileMints | internal/pkg/teleport/token.go:61-82 | every token a live reconcile creates, wherever it stops, has the cluster's label, a second label with its own roles, and an expiry 720 hours after an instant of that reconcile |
| Goal.RegisteredIsReached | internal/controller/cluster_controller.go:173-319 | registered means: finalizer, node token, document in the layout of the chart with kube or kube and app, a reference that resolves to it, and the same for the bot |
| Goal.ReachedIsRecoverable | internal/pkg/teleport/configmap.go:197-226 | the goal holds of no state whose document cannot be read or names another cluster |
| Goal.NothingLeftExactly | internal/controller/cluster_controller.go:115-171 | nothing owned means: no Secret, ConfigMap or entry of either kind under the spelled-out names |
| Goal.NamesSpelledOut | internal/pkg/key/key.go:87-113 | every object and the register name of a cluster, in full |
| Goal.ChartVersionExactly | internal/pkg/teleport/app_manager.go:36-100 | on the fields of the resource: the installed version if recorded, else the requested one; HelmRelease before App; "" without either |
| Goal.MeaningSays | internal/pkg/key/key.go:166-200 | a rendered document carries exactly these fields with these values, the flat block if and only if the chart is older than 0.11.0 or unknown, the nested override if and only if it is 18.7.6 or later |
| Goal.RolesSpelledOut | internal/controller/cluster_controller.go:80-83 | kube always, app if and only if apps are enabled, nothing else |
| Goal.EnsureReferenceRefers | internal/pkg/teleport/app_manager.go:164-303 | after success an entry of the right kind, name, namespace, key and priority resolves to the ConfigMap |
| Goal.DeleteReferenceForgets | internal/pkg/teleport/app_manager.go:194-339 | after success no such entry is left in the preferred resource |
| Goal.BotDocument | internal/pkg/key/key.go:202-208 | the tbot document reads as one output from the register name to the cluster name |
| Goal.BotConfigCreated | internal/pkg/teleport/configmap.go:155-190 | a tbot ConfigMap that a step creates holds that document |
| Finalizers.ReconcileClusters | internal/pkg/teleport/finalizer.go:17-45 | the map of all Clusters after a reconcile, in closed form: unchanged, the operator's finalizer appended once, or taken off |
| Finalizers.ReconcileKeepsFinalizers | internal/pkg/teleport/finalizer.go:17-45 | foreign finalizers keep their order and the deletion mark stays, on every Cluster, wherever it stops |
| IdentityGate.GateExactly | internal/controller/cluster_controller.go:89-106 | the gate opens if and only if the identity is recent, or it can be read and the connection succeeds |
| IdentityGate.GateAdmits | internal/controller/cluster_controller.go:89-106 | the client past the gate belongs to the cached identity if recent, else to the one stored now |
| IdentityGate.ClosedGate | internal/controller/cluster_controller.go:94-98 | a gate that stays closed keeps the identity, and sets the client to nil exactly when connecting failed |
| IdentityGate.RolesRecorded | internal/controller/cluster_controller.go:80-84 | a reconcile that reaches the gate records kube, and app if and only if apps are enabled |
| IdentityGate.AbsentCluster | internal/controller/cluster_controller.go:64-70 | a Cluster that is not there is no error and nothing to do |
| IdentityGate.ReconcileArrives | internal/controller/cluster_controller.go:61-106 | what a reconcile does to the world, beyond taking time, it does behind an open gate |
| IdentityGate.ReconcileKeepsConnected | internal/controller/cluster_controller.go:89-106 | a failed reconnect leaves nil beside an identity that has expired for good, so the client fits every unexpired identity at any later time |
| Clock.ManageLater | internal/controller/cluster_controller.go:108-320 | from any world, neither the clock nor the generator's counter goes back |
| Registration.RegisterReaches | internal/controller/cluster_controller.go:173-319 | wherever it stops, stored objects stay readable; if it completes, the cluster is registered |
| Progress.RegisterQuiet | internal/controller/cluster_controller.go:180-315 | the registered state is a fixed point of the live path, bot included |
| Progress.ConfigMapStepQuiet | internal/controller/cluster_controller.go:225-281 | a current document with a token that stays valid is not rewritten |
| Convergence.RegisterExactly | internal/controller/cluster_controller.go:173-319 | past the gate, registered if and only if recoverable |
| Convergence.ConfigMapStepStuck | internal/pkg/teleport/configmap.go:197-226 | an unrecoverable document keeps the kubeClusterName it has; if readable it is rewritten, successfully, by every uninterrupted step, at one write each |
| Convergence.NoJoinTokenFails | internal/pkg/teleport/secret.go:41-47 | a Secret without joinToken fails every reconcile and is never repaired |
| Accounting.ConfigMapStepAccounting | internal/controller/cluster_controller.go:239-281 | the unchanged branch is reached only with a valid token, because a new one always changes the bytes |
| Accounting.RegisterAccounting | internal/controller/cluster_controller.go:185-281 | accounting of the tokens drawn by the live path |
| Steps.SecretStepEffect | internal/controller/cluster_controller.go:180-213 | either the Secret is kept, with a valid token on success, or one node token is minted and stored on success |
| Steps.ConfigMapStepEffect | internal/controller/cluster_controller.go:225-281 | the ConfigMap is kept current, realigned with its token, or rotated with one minted token |
| Steps.CreateValuesLeavesAlone | internal/pkg/teleport/configmap.go:130-152 | a ConfigMap that has appeared meanwhile is left alone without error |
| Steps.WriteValuesEffect | internal/pkg/teleport/configmap.go:197-226 | writing under the stored name yields the rendering under the computed one, so the drift is closed |
| Steps.CheckTokenExactly | internal/pkg/teleport/token.go:16-50 | the check on a joined role string decides validity at the instant of the call |
| Injection.EnsureReferenceEffect | internal/pkg/teleport/app_manager.go:164-303 | at most one write; afterwards exactly the list with the reference, or the old one on failure |
| Injection.DeleteReferenceEffect | internal/pkg/teleport/app_manager.go:194-339 | at most one write; afterwards exactly the list without the reference, or the old one on failure |
| Injection.MissingResource | internal/pkg/teleport/app_manager.go:164-339 | a resource gone in between is an error for EnsureConfig and none for DeleteConfig; neither writes |
| Resumption.DeregistrationResumes | internal/controller/cluster_controller.go:61-171 | any interrupted reconciles of a deleted cluster, some stopping before or at the gate, with time and restarts between, followed by a full one leave the objects of one undisturbed reconcile, and only tokens of the own label differ |
| Resumption.AttemptProgress | internal/controller/cluster_controller.go:115-171 | the number of owned things left never grows from one such reconcile to the next |
| Resumption.MeasureReachesZero | internal/controller/cluster_controller.go:115-171 | a full one brings it to zero if and only if no App under a HelmRelease holds a reference |
| Ownership.DeletionsProgress | internal/pkg/teleport/configmap.go:228-266 | deleting a Secret or ConfigMap that is there makes the number strictly smaller |
| Ownership.ReferenceRemovalProgresses | internal/pkg/teleport/app_manager.go:194-339 | so does removing a reference that the preferred resource holds |
| Removal.DeregisterClears | internal/controller/cluster_controller.go:115-171 | a complete deregistration reaches the cleared state, described in one piece |
| Removal.ClearedMeans | internal/controller/cluster_controller.go:115-171 | in the cleared state the objects, the preferred-kind reference and the finalizer are gone |
| Removal.TokensAfterDeregister | internal/pkg/teleport/token.go:84-99 | a deregistration deletes one token of the label, or none if it stops before |
| Removal.TokensLeft | internal/pkg/teleport/token.go:84-99 | no token of the cluster is left if and only if there was at most one |
| Ownership.RegisterGuarded | internal/controller/cluster_controller.go:173-319 | the finalizer comes first: whatever was written is guarded, wherever it stops |
| Ownership.DeregisterGuarded | internal/controller/cluster_controller.go:115-171 | the finalizer goes last: what is left is guarded and unchanged, and when it completes nothing is left |
| Ownership.DeregisterLeavesNothing | internal/pkg/teleport/app_manager.go:107-153 | only the preferred kind is cleaned: nothing is left if and only if the other kind held nothing |
| Ownership.CompletedIsGuardedExactly | internal/pkg/teleport/finalizer.go:32-45 | a completed live reconcile leaves a Secret, guarded by the finalizer if and only if the Cluster was still there to be patched |
| Interference.IsolatedExactly | internal/controller/cluster_controller.go:61-320 | for all worlds and memories, reconciling one cluster leaves everything of the other untouched, if and only if the two do not interfere |
| Isolation.ReconcileIsolated | internal/controller/cluster_controller.go:61-320 | reconciling one cluster, live or deleting, leaves Secret, ConfigMaps, references, tokens and finalizer of every cluster it does not interfere with as they were |
| Isolation.RegisterNamesDiffer | internal/controller/cluster_controller.go:108-111 | register names are injective, the management cluster's plain name included |
| Isolation.NamesDisjoint | internal/pkg/key/key.go:87-113 | the objects of two clusters that do not interfere are disjoint |
| Interference.ClashingNames | internal/pkg/key/key.go:87-93 | two names that interfere although neither starts with the tbot prefix |
| RoundTrip.ParseOfRender | internal/pkg/key/key.go:166-200 | parsing a rendered document yields exactly what was rendered, in both layouts |
| RoundTrip.GettersOfRender | internal/pkg/teleport/configmap.go:52-76 | the getters return the rendered token, register name and nested override |
| Layouts.EqualBytes | internal/pkg/key/key.go:166-200 | two documents are equal if and only if layout and all values it carries are equal |
| Layouts.RolesStringInjective | internal/pkg/key/key.go:68-70 | the joined role string determines the roles |
| Layouts.LayoutUpToDate | internal/pkg/teleport/configmap.go:86-104 | up to date exactly when both chart versions are on the same side of the threshold |
| Layouts.UpdatePreservesMeaning | internal/pkg/teleport/configmap.go:197-226 | rewriting any readable document keeps its register name and other keys and brings its layout up to date |
| Layouts.FlatDocumentIsReadable | internal/pkg/teleport/configmap.go:106-121 | an old flat document is read correctly and is out of date for every chart |
| Layouts.RenderedOverrideFloor | internal/pkg/key/key.go:136-175 | the nested block carries the override exactly when its components are 18.7.6 or later, in either layout |
| Layouts.ParsedStringsSafe | internal/pkg/teleport/configmap.go:52-64 | what the parser accepts can be rendered again without escaping |
| Versions.PrecedenceExactly | internal/pkg/key/key.go:119-149 | the comparison is the precedence of section 11: first differing number, then pre-release before release, then first differing identifier |
| Versions.NestedExactly | internal/pkg/key/key.go:119-126 | nested exactly when the version parses and its components are 0.11.0 or later |
| Versions.OverrideExactly | internal/pkg/key/key.go:136-149 | the override stays exactly when the version parses and its components are 18.7.6 or later |
| Versions.TotalOrder | internal/pkg/key/key.go:119-149 | that precedence is a total order |
| Versions.NestedIsMonotone | internal/pkg/key/key.go:119-126 | a higher chart version never returns from nested-only to dual |
| Versions.OverrideIsMonotone | internal/pkg/key/key.go:136-149 | a higher configured version never loses the override |
| Roles.ParseRolesLoop | internal/pkg/key/key.go:53-66 | the loop that appends computes the specified parse, errors included |
| Roles.RolesToSystemRolesLoop | internal/pkg/key/key.go:72-85 | the loop that appends maps known roles in order and drops others |
| Roles.ParseOfRolesToString | internal/pkg/key/key.go:53-70 | parsing the joined string gives back every non-empty list of known roles |
| Roles.ParseRolesKnown | internal/pkg/key/key.go:53-66 | whatever is accepted is a non-empty list of known roles |
| Roles.ParseRolesExactly | internal/pkg/key/key.go:53-66 | accepted exactly are comma-separated known roles with white space around each, and as these roles |
| Roles.LowerOfSystemRoles | internal/pkg/key/key.go:72-85 | lower-casing system roles gives the roles back in order |
| Tokens.ScanTokens | internal/pkg/teleport/token.go:27-49 | the nested scan with early returns decides as the first matching token does |
| Tokens.ContainsRoleLoop | internal/pkg/teleport/token.go:52-59 | found if and only if some role equals it in lower case |
| Tokens.FindLabelled | internal/pkg/teleport/token.go:89-97 | the loop stops at the first token of the label |
| Tokens.IsTokenValidExactly | internal/pkg/teleport/token.go:27-59 | valid if and only if the named token has the label, expires later than now, and its roles are a permutation of the expected ones |
| Tokens.RepeatedRolesAreNotExact | internal/pkg/teleport/token.go:31-43 | for every list of expected roles with a repetition there is a token with other roles that the check accepts |
| Tokens.ExactIffDistinct | internal/pkg/teleport/token.go:27-59 | the check is exact for a list of expected roles if and only if no role is repeated |
| Tokens.GeneratedTokenIsValid | internal/pkg/teleport/token.go:16-82 | in any store that holds it, a generated token is accepted on its joined role string exactly until 720 hours after generation |
| TokenRuns.GeneratedTokenStaysValid | internal/pkg/teleport/token.go:16-99 | so it is after any run of upserts under new names and deletions under other labels |
| Tokens.DeleteOneAccounting | internal/pkg/teleport/token.go:84-99 | one call removes exactly the first token of the label and none of another |
| Tokens.DeleteTimesAccounting | internal/pkg/teleport/token.go:84-99 | k calls remove the first k of the label |
| TokenRuns.StoreIsQueues | internal/pkg/teleport/token.go:61-99 | over any run each label is a queue, and holds upserts less effective deletes |
| References.AppendReferenceLoop | internal/pkg/teleport/app_manager.go:248-255 | the loop returns the list itself if the reference is there, else appends it |
| References.RemoveReferenceLoop | internal/pkg/teleport/app_manager.go:257-265 | the loop returns a non-nil list of all other entries in order |
| References.SharedListIsOrderedSet | internal/pkg/teleport/app_manager.go:227-265 | after any interleaving: foreign entries in order, then live references in order of first ensure since their last delete |
| References.RepeatWritesNothing | internal/pkg/teleport/app_manager.go:180-225 | a repeated ensure or delete writes nothing, nil-to-empty included |
| References.SetValuesFromKeepsVersion | internal/pkg/teleport/app_manager.go:69-100 | rewriting references never changes the reported chart version |

## Left out

- YAML outside the emitted subset: plain and single-quoted scalars, flow style, escapes, comments and deeper nesting read as malformed, where the library would accept some of them.
- Escaping: `%q` is modelled for quotes and backslashes of printable ASCII; the theorems about documents assume values that need no escaping. White space and case folding are those of Latin-1 and ASCII.
- Version parsing and the token generator are parameters: the first any partial function, the second any function that repeats no name.
- `AreTeleportAppsEnabled`: its answer is part of the world and may change between reconciles; how it reads user values is not modelled.
- `NewProvisionToken` never fails in the model, and the order in which tokens are listed is that of the store.
- A failing call has no effect. A call that is applied but reported as failed is not modelled, nor is a conflict other than as a failed call.
- Changes from outside happen between reconciles only. During a reconcile the Cluster does not vanish, except in Ownership.CompletedIsGuardedExactly.
- Runs.FinalizerSafety: assumes a fixed bot flag and that no HelmRelease takes over an App in use, because the code cleans only the preferred kind (Ownership.DeregisterLeavesNothing).
- In the theorems on resuming a deletion only time passes and the operator may restart between attempts; Runs.RunCleansUp allows for other changes from outside.
- Clusters of the same name in two namespaces are outside the runs of Runs, because they interfere.
- HelmReleases and Apps are records of what the operator reads and writes; a `valuesFrom` that is not a list reads as nil, and an App's empty `extraConfigs` read back as nil is not modelled.
- ConfigMaps and Secrets are values handed to the server: the in-place change of `configMap.Data` is a change of a local variable, so aliasing of the cached object is not captured.
- A tbot ConfigMap that exists is never rewritten, so nothing is proved about the contents of one the operator did not create; those of one it creates are proved for register names of letters, digits and hyphens.
- `GetTeleportVersionFromConfigMap` and `IsConfigMapLayoutUpToDate` are not called by the reconcile loop and appear only in the theorems about documents.
- The Ping and the gRPC connection of a new client are one call that succeeds or fails; identity hashing, logging, error masking, `main.go`, RBAC and Helm templates are left out.
