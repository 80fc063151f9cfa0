# app-operator in Dafny

The operator turns one `AppDefinition` into a Deployment, a Service, ConfigMaps, Secrets, External Secrets
Operator (ESO) objects, a PersistentVolumeClaim, one Ingress per domain with its Traefik Middlewares, an
autoscaler and a ServiceMonitor. Beside it an API server lets clients read and edit AppDefinitions without
ever showing them inline secret data. This project models both and proves what their whole runs guarantee.

## How the model is built

- **The cluster** (`Cluster.dfy`) is a map from (kind, namespace, name) to an object with labels, controller
  owner, annotations, body and status. A reconcile is a list of operations, each with one of the update
  disciplines of the source: update in place (`CreateOrUpdate`), update only if present, replace whole,
  create if absent, stamp, delete by name, list and prune. `Touch` says what an operation does to one
  object, `RunAll` runs a list in one go, and `Step` makes one API call of a run that may stop, or be
  interleaved with others, after any call. Deletions of a listing come in any order.
- **The desired state** (`Desired.dfy`, `Chain.dfy`, `Names.dfy`, `Pod.dfy`, `ConfigHash.dfy`) gives the
  operations of the twelve steps of `reconcileAll` for a spec.
- **The code** (`ReconcileLoops.dfy`, `Rendering.dfy`, `StatusUpdate.dfy`, and the methods of the other files)
  has the loops and in-place updates of the source, as methods of classes over a mutable store with API
  calls that may fail. Each is proved to carry out exactly the operations listed in `Desired.dfy`; so what
  is proved about lists of operations holds of the code. Each API call is answered, or never takes
  place, or takes place and loses its reply, in any pattern. reconcileAll ends at the first call that is not
  answered; the status update that follows has calls of its own, some of whose failures the source passes over.
- **The cluster afterwards** (`Rendered.dfy`, `RenderedPod.dfy`, `RenderedRoutes.dfy`): every object of a successful
  reconcile, field by field, in terms of the spec and of the names and constants of the source. These theorems do
  not mention the functions that render the objects.
- **Whole runs**: convergence and history independence (`Convergence.dfy`, `Recovery.dfy`,
  `Delivery.dfy`), the fixpoint (`Fixpoint.dfy`), ownership (`Isolation.dfy`, `Survival.dfy`), two reconciles at once
  (`Interleaving.dfy`), routing (`Routes.dfy`), nudging (`Throttle.dfy`), watches and shared stores
  (`Watches.dfy`, `Stores.dfy`), the claim (`Disk.dfy`), apps that get in each other's way (`Contention.dfy`),
  secret rotation (`SyncedHash.dfy`), status and requeueing (`Status.dfy`, `StatusUpdate.dfy`).
- **The API server** (`Redaction.dfy`, `ApiServer.dfy`): the redact, edit, restore cycle, and PUT handlers
  interleaved call by call with status writes, other clients and outside edits.

Automatic induction is off in every lemma, so each proof shows all its steps.

## Where the obvious claim is false

- ExternalSecrets are not throttled across full reconciles: replacing the object drops the stamp
  (`Throttle.EveryRunRestamps`, `Throttle.ExternalSecretsAreNotThrottled`). For SecretStores the throttle holds.
- The 30 s between nudges are 30 s of stamps; real gaps can be as short as 29 s and a nanosecond
  (`Throttle.TruncationShortensTheGap`).
- The operator wakes itself on every reconcile when external secrets share a name but not a content; it does
  so in no other case (`Watches.SelfTriggersExactly`).
- A shared SecretStore or ServiceAccount that is deleted after its AppDefinition switched from scope Namespace to
  scope App does not enqueue its app; in all other cases it does (`Watches.RecoveryExactly`), and the reconcile that
  follows recreates it (`Stores.StoreDelivered`).
- `disk.protect` is a read followed by a create-or-update. A protected claim is created exactly when the read found it
  and it was gone at the write (`Disk.ProtectionExactly`), which can happen to every protected spec
  (`Disk.ProtectHasAGap`).
- Objects that somebody else controls are not all safe: custom resources are replaced by name, and Service, autoscaler
  and ServiceMonitor deleted by name. A successful reconcile leaves an object of others as it was, but for a nudge,
  exactly when the spec takes it in neither way (`Survival.ControlledSurvivesExactly`); so SecretStores and accounts
  always survive, and so does whatever is written through `CreateOrUpdate`, where the reconcile fails instead
  (`Isolation.BlockedStaysPut`).
- A value with a further line of the form `key=value` can make the hash miss a change
  (`ConfigHash.MultiLineValuesAreAmbiguous`), but only if that key, or a whole header line, occurs in one of the two
  specs compared (`ConfigHash.HashTracksData`).
- Different host and path pairs of an app share an Ingress name exactly when they sanitize alike or one host goes on
  with a dash and what the other's path begins with (`Names.IngressNamesAgree`, `Names.HostsThatCollide`); `a/b` and
  `a-b/` do (`Names.IngressNamesCanCollide`). Then the last domain wins, and a Middleware of an earlier one may be
  used by no Ingress (`Routes.UsedExactly`).
- Apps of one namespace can share an Ingress name too, as `shop` with host `api.x` and `shop-api` with host `x` do
  (`Names.IngressNamesAcrossApps`, `Names.AppsThatCollide`). Then they are never both reconciled
  (`Contention.NeverBothReconciled`), and the one that fails has taken over the other's Middlewares once it gets past
  that step (`Contention.MiddlewaresChangeHands`).
- The order in which two apps of a namespace reconcile decides their SecretStore, unless their declarations are
  compatible (`Stores.OrderIrrelevantExactly`).
- A GET followed by a PUT of the same body is the identity exactly when every secret has one source, no inline
  data is empty and same-named inline secrets agree (`ApiServer.GetThenPut`).

## Where the code and its documentation differ

The model follows the code.

- `docs/development.md:253` says that entries removed from `configMaps` and `secrets` leave their objects behind; the
  code prunes them (`internal/controller/reconcile_configmaps.go:42-58`, `internal/controller/reconcile_secrets.go:52-71`).
- `docs/development.md:118` says that everything goes through `CreateOrUpdate` and that the loop runs every 30 s; the
  code replaces custom resources whole and does not requeue an Available app
  (`internal/controller/appdefinition_controller.go:107-114`).
- `docs/development.md:170` leaves compress and rewrite out of the chain order and knows no `redirectScheme` field.
- The comment at `internal/controller/reconcile_externalsecret_retry.go:73-75` promises a minimum gap between nudges of any
  object.
- `status.observedGeneration` is documented as the generation reconciled (`api/v1/appdefinition_types.go:650`); it is
  that of the object fetched again before the status update.

## Model

| member | source | states |
|---|---|---|
| Names.SanitizeDns | internal/controller/helpers.go:109-119 | the builder loop gives the lower-cased string with every other rune a dash, trimmed of dashes |
| Names.SanitizedShape | internal/controller/helpers.go:109-119 | a sanitized name uses only a-z, 0-9 and dash, and has no dash at either end |
| Names.SanitizedTwice | internal/controller/helpers.go:109-119 | sanitizing is idempotent |
| Names.RuneSpelled | internal/controller/helpers.go:109-119 | a-z, 0-9 and dash stay, A-Z are lowered, U+0130 and U+212A become i and k, every other rune a dash |
| Names.SanitizedExactly | internal/controller/helpers.go:109-119 | what becomes a dash at either end is dropped, what lies between is replaced rune by rune |
| Names.MiddlewareNamesAgree | internal/controller/helpers.go:90-107 | for any apps, hosts, paths and kinds, Middleware names are equal iff the kinds are and the Ingress names are |
| Names.IngressNamesSeparatePaths | internal/controller/helpers.go:79-96 | on one host, Ingress names differ iff the sanitized paths do |
| Names.IngressNamesAgree | internal/controller/helpers.go:79-96 | two host and path pairs of one app share an Ingress name iff they sanitize alike, or one host is the other, a dash and exactly what the other's path begins with |
| Names.HostsThatCollide | internal/controller/helpers.go:79-96 | two hosts have colliding paths, among those that the resource definition admits, iff they sanitize alike or one sanitized host is the other, a dash and a name |
| Names.IngressNamesAcrossApps | internal/controller/helpers.go:79-96 | two apps share an Ingress name iff they are one app with colliding pairs, or one app name is the other, a dash and exactly what the other's host and path begin with |
| Names.AppsThatCollide | internal/controller/helpers.go:90-96 | app a with host r.d and app a-r with host d share an Ingress name, for every app a, label r and host d that does not begin with a dash when sanitized |
| RenderedRoutes.IngressNameSpelled | internal/controller/helpers.go:90-96 | app, dash, sanitized host, and a dash and the sanitized path if that is not empty |
| RenderedRoutes.MiddlewareNamesSpelled | internal/controller/helpers.go:98-107 | the Ingress name, a dash and the word of the kind, for each of the eight kinds |
| RenderedRoutes.KindsListed | internal/controller/reconcile_middleware.go:63-94 | which kinds are enabled, field by field; the redirect also for TLS with redirect_tls |
| RenderedRoutes.KindsOrdered | internal/controller/reconcile_middleware.go:53-94 | in the order redirectscheme, ipallow, ratelimit, forwardauth, basicauth, headers, compress, rewrite |
| Chain.SpacesListed | internal/controller/reconcile_ingress.go:60-68 | what strings.TrimSpace takes for white space, rune by rune |
| Chain.JoinSpelled | internal/controller/reconcile_ingress.go:76-77 | the references are joined with single commas |
| Chain.EnabledMiddlewareKinds | internal/controller/reconcile_middleware.go:63-94 | the appends give the wanted kinds up to the last one of the fixed order |
| Chain.EnabledKindsInChainOrder | internal/controller/reconcile_middleware.go:53-94 | the enabled kinds are exactly the configured ones (and the automatic redirect), each once, in the fixed order |
| Chain.MergeExplicit | internal/controller/reconcile_ingress.go:60-68 | the first loop computes the deduplicated trimmed non-blank explicit references, and its seen set is their set |
| Chain.MergeChain | internal/controller/reconcile_ingress.go:57-76 | both loops compute the deduplication of explicit then native references |
| Chain.DedupeIsFirstOccurrences | internal/controller/reconcile_ingress.go:57-77 | the result has no repetition, the same elements, ordered by first occurrence |
| Chain.ChainResplits | internal/controller/reconcile_ingress.go:57-77 | splitting the written annotation gives back the reference list |
| Chain.ChainIsFixedPoint | internal/controller/reconcile_ingress.go:57-77 | merging again over the written annotation changes nothing |
| Chain.NativeRefInjective | internal/controller/reconcile_ingress.go:69-70 | in one namespace native references are equal iff the Middleware names are |
| ConfigHash.SortedItems | internal/controller/reconcile_deployment.go:196-200 | whatever order the map is iterated in, the sorted keys are its one ascending listing |
| ConfigHash.WriteSection | internal/controller/reconcile_deployment.go:196-204 | one block appends its header and its sorted key=value lines |
| ConfigHash.ComputeConfigStream | internal/controller/reconcile_deployment.go:176-226 | the loops feed the hash the canonical stream, or nothing when there is no inline data |
| ConfigHash.AnyIterationOrder | internal/controller/reconcile_deployment.go:196-200 | sorting any enumeration of a map gives the same listing |
| ConfigHash.SameDataSameStream | internal/controller/reconcile_deployment.go:189-223 | with unique names, equal declared data gives the same stream, whatever the order of entries |
| ConfigHash.DecodeRecovers | internal/controller/reconcile_deployment.go:176-226 | a decoder that is told the headers and keys in question recovers all declared data from the stream, for names and keys without '=' and newline and values of any lines, none but the first of which is such a header or begins with such a key and '=' |
| ConfigHash.HashTracksData | internal/controller/reconcile_deployment.go:101-117 | under an injective digest the annotation of two specs agrees iff their data does, when no further line of a value is a header of either or begins with a key of either and '=' |
| ConfigHash.MultiLineValuesAreAmbiguous | internal/controller/reconcile_deployment.go:195-205 | for any keys in order and any values, a value with a further line of the form key=value hashes like two keys |
| SyncedHash.SyncedTracksData | internal/controller/reconcile_deployment.go:117-172 | between any two stores the external hash input differs iff the data or presence of some synced Secret of the spec does, when no further line of a value is a header or begins with a key of either and '=' |
| SyncedHash.RotationRestartsExactly | internal/controller/reconcile_deployment.go:117-172 | two successful reconciles of a spec leave the same pod template iff they end with the same synced data of that class: a rotation restarts the pods and nothing else does |
| Pod.BuildVolumes | internal/controller/reconcile_deployment.go:228-299 | the loops build the disk, ConfigMap, Secret and external volumes of the spec, in that order |
| Pod.BuildVolumeMounts | internal/controller/reconcile_deployment.go:302-348 | the loops build the mounts in the same order |
| Pod.BuildContainers | internal/controller/reconcile_deployment.go:350-439 | every container gets its ports, TCP by default, and all mounts and secrets, the first one alone the hooks |
| Pod.BuildInitContainers | internal/controller/reconcile_deployment.go:444-491 | init containers get the same mounts and secrets and no hooks |
| RenderedPod.EnvironmentRendered | internal/controller/reconcile_deployment.go:412-487 | after a successful reconcile a Secret is in the environment of every main and init container iff some secrets entry with asEnvVars refers to it, or is named so without reference, or some external secret with asEnvVars is named so |
| Pod.SecretsBeforeExternals | internal/controller/reconcile_deployment.go:412-436 | secrets are injected before external secrets |
| Pod.SecretsInOrder | internal/controller/reconcile_deployment.go:412-423 | secrets are injected in the order of the spec |
| Pod.ExternalsInOrder | internal/controller/reconcile_deployment.go:424-436 | and external secrets too |
| RenderedPod.VolumesRendered | internal/controller/reconcile_deployment.go:228-299 | the volumes are exactly the disk, every ConfigMap, and the secrets and external secrets with a mount path, each from its own object |
| RenderedPod.MountsRendered | internal/controller/reconcile_deployment.go:302-348 | every main and init container mounts exactly these, each at the path of its own entry, and the disk at each partition |
| RenderedPod.ContainersRendered | internal/controller/reconcile_deployment.go:350-410 | one container per entry, in order, with its ports, TCP by default, and the hooks in the first alone and only if there is one |
| RenderedPod.InitContainersRendered | internal/controller/reconcile_deployment.go:444-491 | one init container per entry, without ports and hooks |
| RenderedPod.DeploymentRendered | internal/controller/reconcile_deployment.go:26-91 | one replica unless told otherwise, Recreate iff there is a disk, an existing selector kept, labels, owner and hash inputs; fields of others stay |
| Pod.VolumeNamesDistinct | internal/controller/reconcile_deployment.go:228-299 | with unique entry names, volume names are pairwise distinct across all four sources |
| Pod.MountsAreClosed | internal/controller/reconcile_deployment.go:302-348 | with unique entry names, every mount of every container names exactly one volume |
| Pod.VolumesComeFromEntries | internal/controller/reconcile_deployment.go:228-299 | every volume comes from an entry of the spec, by its resolved name |
| Pod.EnvSecretsComeFromEntries | internal/controller/reconcile_deployment.go:412-436 | every injected Secret is inline, referenced or external in the spec |
| Cluster.ExecSlots | internal/controller/reconcile_secrets.go:17-73 | an operation acts object by object: each ends as Touch says, and a refused one changes nothing |
| Cluster.CompleteRun | internal/controller/appdefinition_controller.go:127-178 | every completed run of single calls, in any deletion order, ends in the one store RunAll gives and fails iff it does |
| Desired.SegmentsAreProper | internal/controller/appdefinition_controller.go:127-178 | each step writes only objects of its own kinds, owned by the app or by nobody; the retry step only stamps |
| Convergence.FinalSlot | internal/controller/appdefinition_controller.go:127-178 | after a successful run an object is as its own step alone makes it, up to the nudge |
| Convergence.Converged | internal/controller/appdefinition_controller.go:127-178 | after a successful run an object of a pruned kind is managed iff the spec names it, and then is as the last entry of the name renders it |
| Rendered.ConfigMapRendered | internal/controller/reconcile_configmaps.go:17-40 | name, labels, owner and data of the ConfigMap of the last entry of a name; fields of others stay |
| Rendered.SecretRendered | internal/controller/reconcile_secrets.go:17-50 | the same for inline Secrets |
| Rendered.AccountRendered | internal/controller/reconcile_secretstore.go:172-192 | a new account is named after the app and owned by it iff the scope is App, else after the namespace and owned by nobody |
| Rendered.StoreRendered | internal/controller/reconcile_secretstore.go:60-105 | each Vault setting of a new store is that of the spec or secret, v2, kubernetes and namespace-account |
| Rendered.ExternalSecretRendered | internal/controller/reconcile_externalsecrets.go:50-179 | every field of the ExternalSecret of the last entry of a name, with 1m and ClusterSecretStore by default |
| Rendered.ServiceRendered | internal/controller/reconcile_service.go:39-101 | there iff some port is exposed, then with exactly the exposed ports, ClusterIP and TCP by default |
| Rendered.ClaimRendered | internal/controller/reconcile_pvc.go:45-84 | a new claim has sizeInGi times 2^30 bytes, ReadWriteOnce and the class; an existing one only grows and gains annotations |
| Rendered.HpaRendered | internal/controller/reconcile_hpa.go:18-70 | the autoscaler scales the Deployment of the app within its limits |
| Rendered.PausedIsLeftAlone | internal/controller/appdefinition_controller.go:127-133 | a paused app is left alone at every moment |
| Rendered.PrunedExactly | internal/controller/reconcile_configmaps.go:42-60 | an object that the spec does not name is deleted iff it has the three labels of the app and its uid as controller |
| RenderedRoutes.MiddlewareRendered | internal/controller/reconcile_middleware.go:216-243 | the body of each of the eight kinds is that of its own field; the redirect is the automatic one exactly when its field is absent |
| RenderedRoutes.IngressAnnotationsRendered | internal/controller/reconcile_ingress.go:42-78 | the domain's annotation before the global one, key by key; the issuer when tls is on and it is set; the chain from the domain's own references, or else the global ones, and the native ones |
| RenderedRoutes.IngressRendered | internal/controller/reconcile_ingress.go:80-139 | class, TLS secret, host, path and backend of the Ingress of the last domain of its name |
| RenderedRoutes.MonitorRendered | internal/controller/reconcile_servicemonitor.go:104-146 | there iff some port is scraped; endpoints with the path or /metrics and the interval of the first scraped port of each name |
| Delivery.ConfigMapDelivered | internal/controller/reconcile_configmaps.go:17-60 | after a successful run from any store the last ConfigMap entry of a name is in the cluster, with its data |
| Delivery.SecretDelivered | internal/controller/reconcile_secrets.go:17-50 | the same for inline Secrets; without data the Secret is empty |
| Delivery.ExternalSecretDelivered | internal/controller/reconcile_externalsecrets.go:50-179 | the last ExternalSecret entry of a name is there as rendered, without annotations, and targets the Secret the pod reads |
| Delivery.IngressDelivered | internal/controller/reconcile_ingress.go:24-139 | the last domain of an Ingress name decides that Ingress (spelled out by the two RenderedRoutes rows) |
| Delivery.ServicePresentExactly | internal/controller/reconcile_service.go:39-101 | after a successful run the Service is there, controlled by the app, iff a port is exposed; else its name is free |
| Delivery.HpaPresentExactly | internal/controller/reconcile_hpa.go:18-85 | the same for the autoscaler and its switch |
| Delivery.MonitorPresentExactly | internal/controller/reconcile_servicemonitor.go:27-102 | the same for the ServiceMonitor and the scraped ports |
| Recovery.SucceedsIffUnblocked | internal/controller/appdefinition_controller.go:127-178 | a run succeeds iff no object it claims is controlled by another owner |
| Rendered.SucceedsExactly | internal/controller/appdefinition_controller.go:127-178 | a run succeeds iff every object of a claimed name that has a controller has the AppDefinition of this group, kind and name as its controller |
| Recovery.HistoryIndependent | internal/controller/appdefinition_controller.go:127-178 | a successful run from any store leaves the managed ConfigMaps, Secrets, ExternalSecrets, Middlewares and Ingresses exactly as one from an empty cluster |
| Recovery.CrashRecovery | internal/controller/appdefinition_controller.go:127-178 | after any history of runs on other specs, each cut after any call, one whole run succeeds if its names were free at the start and leaves no trace of the history in the managed objects |
| Fixpoint.StepTwice | internal/controller/appdefinition_controller.go:127-178 | every step is idempotent on every object, even with entries that share a name |
| Fixpoint.FinalDeployment | internal/controller/reconcile_deployment.go:26-91 | the final Deployment is the rendered one over the old, keeping its selector, with the hash input of exactly the synced Secrets in the store |
| Fixpoint.SecondRunIsQuiet | internal/controller/appdefinition_controller.go:127-178 | a second run on the same spec succeeds and changes no object, the nudge annotation aside |
| Fixpoint.DeployedConfigExists | internal/controller/appdefinition_controller.go:135-156 | whenever the Deployment is about to be written, every ConfigMap and inline Secret of the spec exists under the app's control |
| Fixpoint.PodSourcesExist | internal/controller/appdefinition_controller.go:135-156 | then every ConfigMap and Secret that the template mounts or injects exists so, unless it is referenced or external |
| Isolation.RunLeavesOthersAlone | internal/controller/reconcile_configmaps.go:42-58 | at every moment of every run, an object the program does not name and the app did not manage is as it was |
| Isolation.PruneDeletesOwnOnly | internal/controller/reconcile_ingress.go:141-166 | whatever object of a pruned kind is gone at any moment of any run had the labels, was controlled by the app and is not named by the spec |
| Isolation.BlockedStaysPut | internal/controller/reconcile_secrets.go:25-47 | a claimed name controlled by somebody else stays unchanged through every run, and every run that claims it fails |
| Survival.ForeignSurvivesExactly | internal/controller/appdefinition_controller.go:127-178 | a successful reconcile leaves an object the app does not control as it was, but for a nudge, iff the spec neither claims its name nor has it replaced or deleted by name; otherwise it is the app's or gone |
| Survival.ControlledSurvivesExactly | internal/controller/reconcile_middleware.go:104-214 | an object that somebody else controls survives a successful reconcile iff the spec does not have it replaced or deleted by name |
| Survival.DeletionLeavesNothing | internal/controller/reconcile_secretstore.go:19-24 | after any history of reconciles of an app, each cut anywhere, collecting what the app controls leaves only what was there before and shared stores and accounts |
| Interleaving.RunAgrees | internal/controller/reconcile_configmaps.go:17-60 | a run fares alike on two stores that agree on what it may change or read, and changes nothing else |
| Interleaving.NonInterference | internal/controller/appdefinition_controller.go:127-178 | two reconciles with separate names and managed objects, interleaved in any way, end as one after the other would, each failing iff it would then |
| Routes.RenderedReferences | internal/controller/reconcile_ingress.go:57-77 | what is read off a rendered annotation is the user's references and one per wanted middleware, nothing else |
| Routes.WantedMiddlewareExists | internal/controller/reconcile_middleware.go:116-176 | after a successful run every wanted Middleware exists under the app's control with the right kind |
| Routes.ManagedMiddleware | internal/controller/reconcile_middleware.go:116-214 | every managed Middleware is one that some domain wants, configured by that domain |
| Routes.ReferencesResolve | internal/controller/reconcile_ingress.go:57-77 | every reference on a managed Ingress that the user did not write names an existing managed Middleware of a kind the domain wants |
| Routes.UsedExactly | internal/controller/reconcile_ingress.go:57-77 | an Ingress refers to the Middleware of (domain, kind) iff it bears the domain's Ingress name and the last domain of that name wants the kind |
| Routes.EveryMiddlewareUsedOnce | internal/controller/reconcile_middleware.go:96-103 | with distinct Ingress names every managed Middleware is referenced by exactly one Ingress |
| Contention.NeverBothReconciled | internal/controller/reconcile_ingress.go:24-139 | two apps of a namespace with domains of one Ingress name: in every interleaving of their reconciles that both end, from any cluster, one fails |
| Contention.SecondFails | internal/controller/reconcile_ingress.go:24-139 | after a successful reconcile of one of them, the other's fails |
| Contention.MiddlewaresChangeHands | internal/controller/reconcile_middleware.go:104-214 | if the failing reconcile gets past its Middlewares, each one both domains want is controlled by its app in the end and no longer by the other |
| Runs.WentMeans | internal/controller/appdefinition_controller.go:127-178 | code that went through a list of operations ends where RunAll does, and failing with every call answered means that RunAll fails |
| Runs.WentThen | internal/controller/appdefinition_controller.go:134-177 | steps done one after the other are a run of the whole, stopping at the first failure |
| Runs.RunReaches | internal/controller/appdefinition_controller.go:134-177 | every list of operations that succeeds can be carried out call by call, from wherever a run stands |
| Rendering.ExposedPorts | internal/controller/reconcile_service.go:20-30 | the nested loop collects exactly the exposed ports, in order |
| Rendering.BuildServicePorts | internal/controller/reconcile_service.go:77-89 | the Service ports are those ports, TCP by default |
| Rendering.BuildEndpoints | internal/controller/reconcile_servicemonitor.go:122-146 | the nested loop with its seen set computes the deduplicated endpoints |
| Rendering.ScrapesShape | internal/controller/reconcile_servicemonitor.go:122-146 | one endpoint per scraped port name, from the first scraped port of the name, and none missing |
| Rendering.BuildMonitorLabels | internal/controller/reconcile_servicemonitor.go:104-120 | the labels are the standard ones overridden by those of the scraped ports in order |
| Rendering.BuildAnnotations | internal/controller/reconcile_ingress.go:45-78 | the annotation map of an Ingress: global, domain, issuer, then the merged chain |
| ApiDiscovery.ResolvePreferred | internal/controller/helpers.go:20-30 | the first version known is found; otherwise the answer for the last version decides between absent and failing |
| ApiDiscovery.ResolveMiddlewareApi | internal/controller/reconcile_middleware.go:41-51 | the current group if known, else the legacy one, else none |
| ReconcileLoops.Reconciler.DeleteListed | internal/controller/reconcile_secrets.go:56-71 | the delete loop, in any order, carries out the rest of a prune: skips what is not controlled or is desired |
| ReconcileLoops.Reconciler.ReconcileConfigMaps | internal/controller/reconcile_configmaps.go:17-60 | carries out the writes and the prune of the ConfigMap step, or stops where such a run does |
| ReconcileLoops.Reconciler.ReconcileSecrets | internal/controller/reconcile_secrets.go:17-73 | the same for inline Secrets, skipping references |
| ReconcileLoops.Reconciler.EnsureServiceAccount | internal/controller/reconcile_secretstore.go:172-192 | creates the account only when absent, owned only when App-scoped |
| ReconcileLoops.Reconciler.ReconcileSecretStore | internal/controller/reconcile_secretstore.go:110-167 | creates account and store only when absent |
| Stores.OrderIrrelevantExactly | internal/controller/reconcile_secretstore.go:19-167 | two apps of a namespace leave the same stores and accounts in either order from every cluster iff stores of one name are shared by both with the same Vault settings, defaults filled in, and no app-scoped account takes the namespace's name |
| Stores.StoreDelivered | internal/controller/reconcile_secretstore.go:107-192 | after a successful reconcile every declared store and account is there, as it was but for a nudge, or as rendered if it was missing |
| ReconcileLoops.Reconciler.ReconcileExternalSecrets | internal/controller/reconcile_externalsecrets.go:50-216 | carries out the replacements and the prune of the ExternalSecret step |
| ReconcileLoops.Reconciler.RetryIfNotReady | internal/controller/reconcile_externalsecret_retry.go:76-108 | stamps an object known not to be Ready whose stamp is missing, unreadable or at least 30 s old, nothing else; pending iff present and not Ready |
| ReconcileLoops.Reconciler.RetryFailedExternalSecrets | internal/controller/reconcile_externalsecret_retry.go:34-71 | carries out the nudges of the store and of every external secret |
| ReconcileLoops.NudgesReport | internal/controller/reconcile_externalsecret_retry.go:34-71 | pending is reported iff some object looked at is present and not Ready; nudging changes no readiness |
| ReconcileLoops.Reconciler.SyncedStream | internal/controller/reconcile_deployment.go:130-172 | the hash input of external secrets is that of the synced Secrets in the store, by sorted name |
| ReconcileLoops.Reconciler.ReconcileDeployment | internal/controller/reconcile_deployment.go:26-91 | carries out the in-place update of the Deployment, keeping an existing selector |
| ReconcileLoops.Reconciler.ReconcileService | internal/controller/reconcile_service.go:39-101 | updates the Service, or deletes it when nothing is exposed |
| ReconcileLoops.Reconciler.MutatePvc | internal/controller/reconcile_pvc.go:45-84 | the mutate function gives the merged claim: annotations added, size only raised, other fields only when new |
| ReconcileLoops.Reconciler.ReconcilePvc | internal/controller/reconcile_pvc.go:19-93 | guard, then create-or-update of the claim |
| ReconcileLoops.Reconciler.BuildMiddlewareSpec | internal/controller/reconcile_middleware.go:216-243 | the switch gives each kind the body of its own field |
| ReconcileLoops.Reconciler.ReconcileMiddlewares | internal/controller/reconcile_middleware.go:104-214 | carries out the replacements and the prune of the Middleware step |
| ReconcileLoops.Reconciler.ReconcileIngress | internal/controller/reconcile_ingress.go:24-166 | carries out the updates and the prune of the Ingress step |
| ReconcileLoops.Reconciler.ReconcileHpa | internal/controller/reconcile_hpa.go:18-85 | updates the autoscaler, or deletes it by name |
| ReconcileLoops.Reconciler.ReconcileServiceMonitor | internal/controller/reconcile_servicemonitor.go:27-102 | replaces the ServiceMonitor, or deletes it by name |
| ReconcileLoops.Reconciler.ReconcileAll | internal/controller/appdefinition_controller.go:127-178 | the steps in order are the program: success ends in RunAll's store, failure with every call answered is RunAll's failure, pending iff an ESO object of the app is not Ready at the end |
| Throttle.StampsAreSpaced | internal/controller/reconcile_externalsecret_retry.go:76-108 | over any history of runs and outside changes, stamps on one SecretStore are at least 30 s apart for any clock, and readings more than 29 s |
| Throttle.NudgesTakeTime | internal/controller/reconcile_externalsecret_retry.go:129-139 | n nudges span at least 30(n-1) s of stamps |
| Throttle.TruncationShortensTheGap | internal/controller/reconcile_externalsecret_retry.go:101-102 | the 29 s bound is tight |
| Throttle.NudgeExactly | internal/controller/reconcile_externalsecret_retry.go:76-139 | a call that nudges an object stamps it iff it is known not to be Ready and its stamp is missing, unreadable or at least 30 s old |
| Throttle.StoreStampedExactly | internal/controller/reconcile_externalsecret_retry.go:34-139 | a successful reconcile with external secrets stamps its SecretStore exactly then and changes nothing else of it |
| Throttle.EveryRunRestamps | internal/controller/reconcile_externalsecrets.go:104-171 | after a successful run an ExternalSecret of the spec is stamped with this run's time iff it is not Ready, whenever it was last stamped |
| Throttle.ExternalSecretsAreNotThrottled | internal/controller/reconcile_externalsecrets.go:162-171 | two runs a second apart both nudge a not-Ready ExternalSecret |
| Watches.EsoReadyStatus | internal/controller/reconcile_externalsecret_retry.go:112-125 | the first Ready condition decides, malformed conditions are skipped |
| Watches.WakesExactly | internal/controller/appdefinition_controller.go:226-245 | a change reaches the reconciler iff it deletes an account, store or external secret, or changes what a store or external secret asks for or whether it is Ready |
| Watches.SelfTriggersExactly | internal/controller/appdefinition_controller.go:228-245 | after a successful run, a run of the unchanged spec makes only changes the predicate drops iff same-named external secrets ask for the same object |
| Watches.MapDependency | internal/controller/appdefinition_controller.go:252-282 | an owned object maps to its owner, a shared one to exactly the Namespace-scoped apps of the namespace that declare it |
| Watches.RecoveryExactly | internal/controller/appdefinition_controller.go:247-282 | the creator of a deleted store or account that still declares it is enqueued iff it was created App-scoped or is not App-scoped now |
| Watches.SharedObjectsSurvive | internal/controller/reconcile_secretstore.go:107-192 | over any runs, app deletions and garbage collections an ownerless store or account stays, unchanged but for its nudge |
| Watches.ScopeDecidesOwner | internal/controller/reconcile_secretstore.go:19-24 | what reconcileSecretStore creates survives its app's collection iff the scope is not App |
| Watches.SyncedSecretsWakeTheirApp | internal/controller/appdefinition_controller.go:284-298 | the labels that ESO is told to set map a synced Secret to this app and no other |
| Disk.RunsHoldClaimOps | internal/controller/reconcile_pvc.go:19-93 | every call any run may make on a claim is a guarded or plain create-or-update |
| Disk.SizeOnlyGrows | internal/controller/reconcile_pvc.go:61-80 | over any history the requested size is the largest of the first and all reconciled sizes; access modes and class stay |
| Disk.ForeignAnnotationsStay | internal/controller/reconcile_pvc.go:49-58 | annotations no spec mentions are never removed or changed by the operator |
| Disk.ProtectNeverCreates | internal/controller/reconcile_pvc.go:22-36 | with protect set and nobody else acting, a missing claim is missing at every moment of the run |
| Disk.ProtectionExactly | internal/controller/reconcile_pvc.go:22-46 | with others acting between its calls, a reconcile of a protected spec creates the missing claim iff its guard was the last call and found the claim |
| Disk.ProtectHasAGap | internal/controller/reconcile_pvc.go:24-46 | for every protected spec whose reconcile would succeed there is one deletion of the claim that makes the operator create it |
| Disk.ClaimIsReconciled | internal/controller/reconcile_pvc.go:45-84 | otherwise a successful run brings the claim to at least the declared size with the declared annotations |
| Status.ConditionList.Set | internal/controller/reconcile_status.go:84-91 | in-place update or append of one condition; the transition time moves iff the status changes |
| Status.ConditionList.Remove | internal/controller/reconcile_status.go:128-130 | every condition of the type is removed, the others keep their order |
| Status.AllChanged | internal/controller/reconcile_status.go:84-203 | a list of changes leaves one condition per type, each as its change says, the others untouched |
| StatusUpdate.Assess | internal/controller/reconcile_status.go:51-71 | Available iff not paused, no error, Deployment found and enough replicas ready, iff Ready is true |
| StatusUpdate.IngressVerdict | internal/controller/reconcile_status.go:132-174 | true only if every domain's own Ingress exists and has an address, and then always if all reads were answered |
| StatusUpdate.ExternalVerdict | internal/controller/reconcile_status.go:212-249 | true only if the kind is served and every ExternalSecret of the spec exists, and then always if all reads were answered; unknown iff discovery fails |
| StatusUpdate.MiddlewareVerdict | internal/controller/reconcile_status.go:283-331 | true only if an API is served and every wanted Middleware exists, and then always if all reads were answered; unknown iff discovery fails |
| StatusUpdate.DiskVerdict | internal/controller/reconcile_status.go:93-130 | true only if the claim exists and is bound, and then always if the read was answered, when it is Protected iff missing and protected |
| StatusUpdate.ChangesReport | internal/controller/reconcile_status.go:84-203 | from any prior status each optional condition is present iff its trigger holds, once, true only if it holds, and whenever it holds if all reads were answered |
| StatusUpdate.UpdateStatusOnce | internal/controller/reconcile_status.go:29-210 | the status is written as a whole or left alone, also when the reply is lost; readyReplicas is what the Deployment reports, or 0 without one; Available iff not paused, no error and those reach the wanted number; every condition is as ChangesReport says |
| StatusUpdate.Reconcile | internal/controller/appdefinition_controller.go:64-123 | under any pattern of unanswered calls: finalizer and deletion rules; a broken reconcile is retried, and if its status is written that is Failed with the message and Ready not true; one that went through ends without error or requeue iff it is paused, or the Deployment has enough ready replicas, nothing of ESO is pending and the last read was answered; every error but a refusal uses up an unanswered call |
| StatusUpdate.ErrorsAreCuts | internal/controller/appdefinition_controller.go:64-123 | while no claimed name is controlled by another owner no reconcile is refused and none makes that change, so at most as many reconciles end in an error as calls go unanswered |
| StatusUpdate.CreatedResourcesAreReported | internal/controller/reconcile_status.go:212-331 | after a successful run, with the kinds served, every object those two conditions count exists |
| Redaction.RejectInlineSecretData | internal/apiserver/handlers.go:244-251 | an error iff some entry carries data, naming the first |
| Redaction.RequireSecretSources | internal/apiserver/handlers.go:253-260 | an error iff some entry has neither reference nor data, naming the first |
| Redaction.PreserveInlineSecretData | internal/apiserver/handlers.go:262-275 | the in-place loops put back stored inline data, the last entry of a name counting |
| Redaction.Sanitize | internal/apiserver/handlers.go:277-283 | the in-place loop hides the data of every entry |
| Redaction.RoundTripExactly | internal/apiserver/handlers.go:244-283 | redact, send back, restore, require and write gives the stored secrets back iff each has one source, no inline data is empty and same names agree |
| Redaction.RedactionHidesData | internal/apiserver/handlers.go:277-283 | lists that differ in data only look the same to a client |
| Redaction.PreservedAddsNothing | internal/apiserver/handlers.go:262-275 | an admitted update holds no inline data but what was stored under the same name |
| ApiServer.Server.Create | internal/apiserver/handlers.go:161-193 | 422, 409 or 201, storing the spec of the request only |
| ApiServer.AdmittedExactly | internal/apiserver/handlers.go:195-233 | a PUT goes on to write iff the object exists, the names in the body are empty or those of the URL, the version sent is the stored one, no entry carries data and every entry has a reference or inline data stored under its name; else 404, 400, 428, 409 or 422 by the first that fails |
| ApiServer.RestoredExactly | internal/apiserver/handlers.go:262-275 | an entry without reference gets the data of the last inline entry stored under its name, nothing else changes |
| ApiServer.Server.ReadAndAdmit | internal/apiserver/handlers.go:195-233 | the checks of the handler decide the same |
| ApiServer.Server.Update | internal/apiserver/handlers.go:195-242 | without interference answered 200 iff acceptable in that sense, and then the spec is replaced; else the code of the first failing check and no change |
| ApiServer.Server.Get | internal/apiserver/handlers.go:53-63 | the stored spec without inline data |
| ApiServer.Server.Delete | internal/apiserver/handlers.go:320-334 | removes the object, 404 when absent |
| ApiServer.GetThenPut | internal/apiserver/handlers.go:195-242 | GET then PUT unchanged is answered 200 with nothing changed iff the secrets make the round trip |
| ApiServer.AnswerReplacesSentVersion | internal/apiserver/handlers.go:218-241 | in every interleaving a 200 answers an acceptable request and replaces exactly the version the client sent, with its inline data put back and its status kept |
| ApiServer.AtMostOneChange | internal/apiserver/handlers.go:218-241 | of two PUTs with one version of one object at most one changes it; after it no other is answered 200 |
| ApiServer.InlineDataIsConserved | internal/apiserver/handlers.go:161-283 | over any run of create, update, delete and status writes, all inline data in the store was there at the start, in the same app under the same name |

## Left out

- SHA-256 and its cut to 16 digits: the model keeps the hash input; an injective digest is a parameter of `ConfigHash.HashTracksData`.
- `sort.Slice` on entries that share a name: the order of equal names is that of one particular sort.
- Bodies of middlewares, probes, affinity, resources, autoscaling limits and other fields that are copied as they are: opaque strings.
- The text form of the stamp (section 5.6 of RFC 3339): a stamp is a number of seconds or unreadable text.
- Discovery changes during a history: `Recovery.CrashRecovery` takes the optional kinds as served; one Middleware group is used throughout, so objects left under the other group are not modelled.
- API server validation and defaulting; namespace and app names are taken to be valid names where a result needs it.
- Informer cache staleness, resource versions of child objects and retry backoff: a retried update is one read-modify-write.
- Which fields count as unchanged for the no-op detection of `CreateOrUpdate`: writing equal contents is no change in the model.
- Condition messages, events, metrics and logs.
- JSON decoding, request size limits, authentication, access reviews, listing and log streaming of the API server: thin wrappers over libraries.
- The user interface, manifests and command-line entry points.
- mapManagedSecretToAppDefinition: modelled as a predicate on labels inside Watches.SyncedSecretsWakeTheirApp.
- Status.AllChanged: prior conditions are taken to have distinct types, which the API server enforces for this list.
- Watches.SelfTriggersExactly: speaks of whole operations; the deletions of one prune are one change each of their object.
- StatusUpdate.Reconcile: that the API server refuses new finalizers on an object being deleted is not part of this model.
- ApiServer.Server.Delete: the read and the delete are one step; the delete has no precondition in the source either.
- Recovery.SucceedsIffUnblocked: writes that the API server rejects as invalid fail a run too, and are not part of this model.
- Throttle.StampsAreSpaced: the read and the patch of one nudge are one call, because the controller reconciles one object at a time; two operators at once are not modelled.
- ConfigHash.DecodeRecovers: values with a further line that is one of the headers or begins with one of the keys and '=' are not covered; some of them are still told apart.
- StatusUpdate.UpdateStatusOnce: a conflict and its retry are one update; what the first four conditions say goes by the spec that was reconciled, as in the source.
