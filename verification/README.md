# The Notebook operator's reconciliation protocol, verified

The Jupyter operator watches `Notebook` resources and keeps four objects for each of them: a Service, a Secret,
a StatefulSet and an Ingress, all named `jupyter-notebook-<name>`. This project models that protocol in Dafny and
proves what it promises over every run: with stale informer caches, writes by others between any two calls, calls
that fail before or after taking effect, four goroutines per sync interleaved in any order, several workers, and
restarts of the controller with a new certificate authority. `dafny verify dfyconfig.toml` checks everything.

## How it is put together

| files | what they hold |
|---|---|
| `basics`, `notebook_types`, `naming` | errors, the Notebook spec with validation and defaults, names and labels |
| `kube` | the API server: a log of versions per key, lister reads, the verbs, and the adversary |
| `calculate`, `builders` | the desired objects, as functions and in the step-by-step form of the source |
| `goroutine` | one reconciler as a machine that makes one API call or one lister read per step |
| `resources` | CreateOrUpdate, Wait and the replacement of a StatefulSet in imperative form, proved equal to the machine |
| `closures` | the body of a goroutine around those functions: reconcile, drop benign errors, wait; and the four of them in list order |
| `interleaving` | four goroutines in any order, and confluence |
| `notebook_heap` | the Notebook struct with its pointers: DeepCopy, Validate, SetDefaults in place |
| `sync`, `controller` | one sync: as a machine, as a whole, and as the imperative `sync` that is proved equal to it |
| `system`, `safety`, `lineage`, `guarantees` | the whole system, its invariants, and the safety theorems |
| `refinement` | a whole sync, as the imperative code performs it, is a run of the system |
| `certificates` | certificates over runs, CA lifetimes included |
| `settling`, `quiescence`, `rounds` | convergence of repeated syncs without interference |
| `desired` | what is stored at rest in terms of the spec alone, and what an edit of the spec brings about |
| `outcomes` | how a sync ends: its error, its phase, and invalid specs |
| `acme`, `reasons` | over runs: the wait for the ACME issuer's secret, and what a deletion needs as its reason |
| `integrity` | how the four stored objects of a settled notebook refer to one another |
| `swallowed` | what a nil error is worth when errors are swallowed |
| `foreign` | when the operator deletes an object that it does not manage |
| `deletion` | the sync of a notebook that is gone |
| `ownership`, `sync_ownership`, `handlers` | owner references, and the event handlers that follow them back |
| `queue`, `worker` | the work queue with its workers, and the loop that takes a key, syncs it and gives it back |

Everything nondeterministic is an explicit argument. A `Move` says what happens around one call: what others write
just before it, how far the lister lags, whether the call fails and whether it took effect, whether a foreground
deletion is already complete, whether a polling loop has run out of attempts. A theorem about all scripts of moves,
all schedules or all sequences of `Choice`s is a theorem about all runs.

The levels are tied together. The imperative functions of `pkg/k8sutil`, and the goroutine bodies around them, are
proved to do what the goroutine machine does against the same script, and the four in list order to do what
`Reconciled` says. `ReconcileIsConfluent` makes list order as good as any interleaving. The imperative `sync` is proved
to have the effect of `SyncOnce`, and `SyncContinuesTheRun` shows that this effect is that of a run of `System`, for
which `safety` and `guarantees` hold.

## What is assumed of the libraries

- Every write to a key makes a new version; a write that would change nothing does not. An Update whose
  ResourceVersion is not the current one is a conflict, one on a missing object is NotFound, and a Create on an
  existing one is AlreadyExists. Each key's counter survives deletion.
- The server stores objects as they are sent, except that it assigns a cluster IP on creation, keeps the deletion mark
  and the status of what it updates, and takes only the phase from a status update. `deep.Equal` is equality.
- A lister returns some past version of the key, and each object of a key has the kind of that key.
- Where it matters, that the server accepts a StatefulSet only if its selector matches its own pods (`SelectsItself`).
- A retry channel ends with one Done message whose error is nil exactly if the last attempt succeeded; an attempt
  either is the last or is not, with no clock.
- The work queue has the client library's ready, dirty, processing and delayed parts. The rate limiter's `Forget`
  affects back-off durations only.
- A freshly signed certificate parses and is signed by the CA that signed it. A certificate records its CA, its signing
  event and its names; each sync signs anew.

## Where the code does not do what one would expect

Each of these is proved, with the exact condition where there is one.

- A notebook without a host is documented to get no ingress (`pkg/apis/jupyter/v1/types.go:53-54`). The code defaults the
  host to the empty string, which its own validation refuses: such a notebook always ends Failed
  (`DefaultsKeepValidityIffHostGiven`, `HostlessEndsFailed`).
- NotFound and AlreadyExists are swallowed, so nil does not mean converged when the cache is stale. For all four kinds,
  the replacement of a StatefulSet and both waits included, it is said exactly when a closure and a slot are nil
  (`NilMeansWrittenOrInVain`, `NilSlot`) and when the object is then as wanted (`ConvergedUnlessInVain`,
  `SettledUnlessInVain`, `StaleCreateReturnsNil`). The Delete inside the replacement of a StatefulSet is wrapped and
  therefore not swallowed (`WrappedNotFoundIsNotSwallowed`).
- The answer of a status update is discarded, so the copy keeps the old ResourceVersion: at most one write of a sync to
  its notebook takes effect (`OneEffectiveWrite`), and a new notebook needs one sync for its missing defaults, if any,
  and two more, to come to rest. The exact number, from any state, is `Needed` (`QuiescentExactlyAfter`).
- For the same reason a new notebook whose first sync fails stays Pending: the write of Failed is a conflict. Any other
  valid and complete notebook is Failed after an undisturbed sync exactly if a foreign object has the name of one that
  it wants (`LiveRoundMeans`).
- Deletion is by name only, so refusing foreign objects covers creation and update alone (`NoLostUpdate`). Whatever the
  cache lag, the interference and the faults, a reconcile deletes a foreign object in exactly two cases: it has the
  name of one that the notebook does not want and is there when the Delete arrives; or it has the name of a wanted
  StatefulSet, and the lister still shows a managed one with another template in its place
  (`ReconcileDeletesForeign`, `StaleReplacementDeletesForeign`). With a current lister and nobody in between, a
  foreign object under a wanted name is refused, and the reconcile fails (`FreshListerIsSafe`, `ForeignObjects`,
  `NilUnlessForeign`).
- A notebook that still exists but has a deletion timestamp loses its resources and is then marked Running, after
  exactly as many syncs as a living one needs (`TerminatingRound`, `TerminatingIsMarkedRunning`).
- A kept certificate is not reissued when the host changes (`HostChangeKeepsCertificate`, `HostChangeGoesUnnoticed`).
- The certificate is issued for the host of the spec, but the Ingress routes the notebook's name in front of it. A
  certificate that was issued for the present host never covers what the Ingress routes, also where it passes TLS
  through to the notebook (`RoutedHostIsNotCertified`, `PassthroughHostIsNotCovered`).
- Final-state-unknown tombstones are dropped by every handler (`OnDeleteObject`, `OnDeleteNotebook`).
- The ACME secret of notebook `a` has the name of the own secret of notebook `a-tls` (`TlsSecretNameClash`). Write
  footprints are disjoint all the same (`FootprintsAreDisjoint`).
- The comment on the TLS strategy names `"false"` (`pkg/apis/jupyter/v1/types.go:71`); the code's constant is `"none"`, and
  the model follows the code.

## Model

| member | source | states |
|---|---|---|
| NotebookTypes.ValidPackageMeans | pkg/apis/jupyter/v1/types.go:198-214 | a package is accepted exactly if it reads "package" or "package=version", for every text |
| NotebookTypes.SubdomainMeans | pkg/apis/jupyter/v1/types.go:188-192 | the pattern for hosts describes dot-separated labels of lower-case letters, digits and inner dashes, at most 253 characters in all |
| NotebookTypes.ValidateMeans | pkg/apis/jupyter/v1/types.go:187-216 | validation passes exactly if a given host is such a name, a given backend has both a service and a port or neither, and each package reads "name" or "name=version"; else it complains of the first of these that fails |
| NotebookTypes.DefaultedIffComplete | pkg/apis/jupyter/v1/types.go:219-245 | defaulting changes a spec exactly if one of the five fields is missing, and is idempotent |
| NotebookTypes.DefaultsKeepValidityIffHostGiven | pkg/apis/jupyter/v1/types.go:228-231 | a defaulted spec is valid exactly if the spec was valid and had a host |
| NotebookTypes.HostlessBecomesInvalid | pkg/apis/jupyter/v1/types.go:187-231 | the smallest notebook that is valid before defaulting and not after |
| Naming.ResourceNameInjective | pkg/k8sutil/k8s.go:24-26 | notebooks with the same resource name have the same name |
| Naming.TlsSecretNameClash | pkg/k8sutil/ingress.go:64-66 | the ACME secret's name is the own secret's name of exactly the notebook with the suffix, never of the notebook itself |
| Naming.MatchLabelsSelectOneNotebook | pkg/k8sutil/k8s.go:41-51 | match labels select a notebook's pods and those of no other notebook |
| Naming.NotebookLabelsAreManaged | pkg/k8sutil/k8s.go:28-51 | what the operator labels it later recognises as managed, and the label names the notebook |
| Calculate.TemplateAndSecretAgree | pkg/k8sutil/statefulset.go:54-100 | the pod names exactly the entries its Secret holds; the Secret is wanted exactly if the pod names any |
| Calculate.PodsAreSelected | pkg/k8sutil/statefulset.go:119-156 | the StatefulSet selects its own pods and no other notebook's; arguments and mounted files go together |
| Calculate.IngressTlsFits | pkg/k8sutil/ingress.go:58-73 | TLS covers the routed host; issuer annotation, passthrough annotation and secret name agree |
| Calculate.ServiceIsForItsNotebook | pkg/k8sutil/service.go:19-44 | the Service is managed, owned by its notebook alone, selects that notebook's pods and no other's, and serves the port the Ingress asks for |
| Calculate.RoutedHostIsNotCertified | pkg/k8sutil/secret.go:33-37 | the host that the Ingress routes is never among the names of the fresh certificate |
| Calculate.WantedMeans | pkg/controller/reconcilers.go:87-119 | without a deletion timestamp a Secret is wanted exactly if the password is non-empty or TLS is not "none", an Ingress exactly if a non-empty host is given, Service and StatefulSet always; with one, nothing |
| Calculate.SecretIs | pkg/k8sutil/secret.go:22-50 | the Secret has the password exactly if one is given and non-empty, certificate and key of one signing event exactly if TLS is not "none", and nothing else |
| Calculate.TemplateRuns | pkg/k8sutil/statefulset.go:23-137 | a template is the calculated one exactly if it has the spec's flavor, packages, GPU and account, and certificate and password arguments, variables and files exactly if asked for |
| Calculate.TemplatesAgree | pkg/k8sutil/statefulset.go:23-137 | two notebooks have equal templates exactly if name, flavor, packages, GPU, service account, having a password and having TLS agree |
| Calculate.IngressRoutes | pkg/k8sutil/ingress.go:22-76 | host, backend, TLS block, secret name and annotations, each on the fields of the spec |
| Builders.BuildSecret | pkg/k8sutil/secret.go:22-50 | filled entry by entry, the Secret is the one the reconciler wants |
| Builders.BuildTemplate | pkg/k8sutil/statefulset.go:23-137 | the same for the pod template, whose arguments, variables and volumes are appended |
| Builders.BuildIngress | pkg/k8sutil/ingress.go:22-76 | the same for the Ingress, whose annotation map is filled in |
| Builders.DeleteObject | pkg/k8sutil/secret.go:84-86 | one deletion by name does to the server what an erasing goroutine does, and returns the same error |
| Goroutine.JoinErrorsNil | pkg/controller/handlers.go:65-82 | joined errors are nil exactly if each is nil or ignored |
| Goroutine.MessagesAre | pkg/controller/handlers.go:65-82 | the joined error has the message of each error that is not ignored, in order, and no other |
| Goroutine.OnlyCertificateIsKept | pkg/k8sutil/secret.go:66-77 | for every stored Secret and CA: apart from certificate and key the adopted data is the calculated one; the two are the stored ones exactly if one is wanted and the stored one is of this CA |
| Goroutine.AdoptionIs | pkg/k8sutil/statefulset.go:172-189 | adoption takes over the cluster IP of a Service, the spec of a StatefulSet, certificate and key of a Secret, of an Ingress nothing, and never metadata; it is refused exactly for a StatefulSet with another template |
| Goroutine.WaitsMean | pkg/controller/reconcilers.go:29-59 | an Ingress waits for its issuer's secret exactly under ACME, a StatefulSet for its replicas, nothing else for anything |
| Resources.CreateOrUpdateService | pkg/k8sutil/service.go:48-64 | server, error and shared object end as in the goroutine machine's reconcile phase against the same script |
| Resources.CreateOrUpdateSecret | pkg/k8sutil/secret.go:54-81 | the same, with the stored certificate kept |
| Resources.KeepStoredCertificate | pkg/k8sutil/secret.go:66-77 | in place, certificate and key are replaced by the stored ones exactly if this CA signed the stored one |
| Resources.CreateOrUpdateIngress | pkg/k8sutil/ingress.go:80-95 | the same for the Ingress |
| Resources.CreateOrUpdateStatefulSet | pkg/k8sutil/statefulset.go:160-190 | the same for the StatefulSet: adoption, or delete, wait and create |
| Resources.WaitForStatefulSetDeleted | pkg/k8sutil/statefulset.go:221-242 | polling ends with nil exactly when the lister has lost the object, else when attempts run out |
| Resources.WaitForStatefulSet | pkg/k8sutil/statefulset.go:193-218 | nil means that the version it got from the lister had as many ready replicas as the shared object asks for |
| Resources.WaitForIngressTlsSecret | pkg/k8sutil/ingress.go:99-122 | polls the issuer's secret and changes nothing else |
| Closures.RunServiceReconciler | pkg/controller/handlers.go:23-45 | reconcile, then benign errors dropped: cluster and error slot are those of the Service goroutine run to its end |
| Closures.RunSecretReconciler | pkg/controller/handlers.go:23-45 | the same for the Secret |
| Closures.RunStatefulSetReconciler | pkg/controller/reconcilers.go:47-59 | the same for the StatefulSet, whose wait reads the object that the reconcile may have overwritten |
| Closures.RunIngressReconciler | pkg/controller/reconcilers.go:29-45 | the same for the Ingress, which under ACME waits for the issuer's secret |
| Closures.RunEraser | pkg/controller/reconcilers.go:42-43 | the same for an object that should not exist |
| Closures.ReconcileInListOrder | pkg/controller/handlers.go:16-53 | builds the four objects and runs the four reconcilers in list order: cluster and joined error are those of `Reconciled` |
| Interleaving.ReconcileReturns | pkg/controller/handlers.go:27-37 | every reconcile closure returns, and the goroutine goes on from what it returned |
| Interleaving.TickProgress | pkg/controller/handlers.go:23-46 | every action of a goroutine uses up a move or brings it nearer its end, so schedules are finite |
| Interleaving.ScheduleKeepsOutcomes | pkg/controller/handlers.go:23-46 | along every schedule, complete or not, each goroutine's outcome stays what it would be alone, and other keys stay |
| Interleaving.RunnersApart | pkg/controller/reconcilers.go:20-27 | the four goroutines of a sync share no key, the ACME wait included |
| Interleaving.Confluence | pkg/controller/handlers.go:16-53 | every complete schedule ends in the same cluster and the same error slots as list order |
| Interleaving.ReconcileIsConfluent | pkg/controller/handlers.go:16-53 | ... and with the same joined error |
| NotebookHeap.Notebook.DeepCopy | pkg/apis/jupyter/v1/zz_generated.deepcopy.go:31-141 | the copy is equal in content and shares no pointer with the original |
| NotebookHeap.Notebook.Validate | pkg/apis/jupyter/v1/types.go:187-216 | returns the first complaint; nil exactly on valid specs |
| NotebookHeap.Notebook.SetDefaults | pkg/apis/jupyter/v1/types.go:219-245 | in place, the spec becomes the defaulted one; true exactly if a field was missing |
| NotebookHeap.Notebook.Prepare | pkg/controller/controller.go:305-309 | the copy gets its defaults and its type information |
| Controller.JoinErrorList | pkg/controller/handlers.go:65-82 | the two nested loops compute the joined error; nil exactly if each is nil or ignored |
| Controller.SetNotebookPhase | pkg/controller/handlers.go:55-63 | no call if the copy already says so; the copy keeps its ResourceVersion whatever the server answers |
| Controller.RunGoroutines | pkg/controller/handlers.go:18-47 | however scheduled, the error slots and the cluster end as in list order |
| Controller.ReconcileNotebookResources | pkg/controller/handlers.go:16-53 | the result does not depend on the schedule |
| Controller.SyncNotebook | pkg/controller/controller.go:275-337 | for every answer of the lister, cluster and error are those of the whole sync; only the server changes, the cached notebook does not |
| Controller.SyncCached | pkg/controller/controller.go:296-337 | the same for a cached notebook, which stays as it is |
| Controller.SyncGone | pkg/controller/controller.go:277-290 | the same for a notebook that is gone |
| Controller.SyncCopy | pkg/controller/controller.go:296-317 | the same for the copied notebook, which is validated and defaulted in place |
| Controller.SyncValid | pkg/controller/controller.go:305-337 | the same for a copy that is valid |
| Controller.SyncPrepared | pkg/controller/controller.go:310-337 | the same from the comparison of the specs on |
| Sync.DefaultingGate | pkg/controller/controller.go:296-325 | the resources of a listed notebook are worked on exactly if it is valid and complete; then every pointer is set and the host is a valid name |
| System.StepOnceOk | pkg/controller/reconcilers.go:20-85 | each step of a goroutine, whatever the lag and fault, writes only its own object and only as the log rules allow |
| Safety.NextKeepsInv | pkg/controller/controller.go:243-337 | every choice keeps the invariant and only adds versions |
| Safety.RunKeepsInv | pkg/controller/controller.go:243-337 | the invariant holds in every reachable state |
| Guarantees.HistoryIsKept | pkg/controller/controller.go:238-337 | runs only add versions |
| Lineage.RunKeepsLineage | pkg/k8sutil/k8s.go:53-55 | in every run, what the operator writes for a notebook is owned by a UID that some version of that notebook had |
| Guarantees.NoLostUpdate | pkg/k8sutil/ingress.go:80-95 | an update replaces exactly the managed version the lister returned, a creation replaces nothing; afterwards the object has the operator's label, that of its notebook, and one owner: its notebook, by kind, name and a UID some version of it had |
| Guarantees.PinnedFieldsStay | pkg/k8sutil/service.go:60-63 | cluster IPs and StatefulSet specs differ between two versions only if the object was deleted or written by others in between |
| Guarantees.NewTemplateOnlyByCreation | pkg/k8sutil/statefulset.go:172-189 | no operator write changes the spec of a StatefulSet that exists |
| Guarantees.PhaseTransitions | pkg/controller/controller.go:320-334 | no operator write moves Running or Failed to Pending; status writes change the phase only, spec writes leave it |
| Guarantees.RunningOnlyAfterSuccess | pkg/controller/controller.go:325-334 | a notebook is set to Running only by a sync whose four reconcilers returned nil |
| Guarantees.ConcludingMeansDone | pkg/controller/handlers.go:47-51 | the slots that decide the final phase are those of four finished goroutines |
| Guarantees.OneEffectiveWrite | pkg/controller/handlers.go:55-63 | no sync has two effective writes to its notebook |
| Guarantees.FootprintsAreDisjoint | pkg/k8sutil/k8s.go:24-26 | the objects of different notebooks are different objects |
| Guarantees.SyncsStayInTheirFootprint | pkg/controller/reconcilers.go:29-85 | in every run, what is written for a notebook lies in its footprint and in no other's |
| Guarantees.WaitRecordsItsAnswer | pkg/k8sutil/statefulset.go:193-204 | a wait for replicas succeeds exactly on the lister's answer, and that is the version it records |
| Guarantees.ReadinessFollowsAdoption | pkg/k8sutil/statefulset.go:172-204 | a successful wait got from the lister a version whose ready replicas are those of the adopted spec, or 1 if the StatefulSet was created |
| Refinement.SyncIsARun | pkg/controller/controller.go:269-337 | every whole sync is a run of the step-by-step sync machine |
| Refinement.SyncContinuesTheRun | pkg/controller/controller.go:243-337 | from every reachable state, a whole sync with its interference leads to a reachable state |
| Refinement.SyncIsSafe | pkg/controller/controller.go:269-337 | so the imperative sync keeps every log in order and only adds to it |
| Certificates.RunKeepsCertInv | pkg/k8sutil/secret.go:54-81 | in every run, whatever others write, the operator's entries renew or keep certificates, never part one from its key, and CA lifetimes follow one another |
| Certificates.CertificateMatchesKey | pkg/k8sutil/secret.go:66-77 | in every run: from a version whose certificate and key are from one signing event, or absent, it stays so as long as nobody else edits the Secret |
| Certificates.CertificateStable | pkg/k8sutil/secret.go:54-81 | in every run, and whatever others did before: while TLS stays on and nobody else edits the Secret, the syncs of one CA lifetime all leave one and the same certificate |
| Certificates.OneChangePerLifetime | pkg/k8sutil/secret.go:54-81 | in such a stretch of any run, of two changes of the certificate the later one is made under a later CA |
| Settling.KeepEnds | pkg/k8sutil/statefulset.go:160-218 | undisturbed, a reconciler that finds its name free or managed leaves what it wants, and writes nothing if that was there |
| Settling.DiscardEnds | pkg/controller/handlers.go:27-37 | undisturbed, an unwanted object is gone afterwards, and NotFound is no error |
| Settling.PurgeEnds | pkg/k8sutil/statefulset.go:180-189 | a StatefulSet with another template is deleted, seen gone and created anew |
| Settling.ForeignEnds | pkg/k8sutil/service.go:57-59 | undisturbed, a reconciler that finds an unmanaged object leaves it untouched and fails |
| Quiescence.ForeignObjects | pkg/controller/reconcilers.go:29-85 | undisturbed, kind by kind: wanted and free or managed, it is settled; wanted and foreign, it is untouched; unwanted, it is deleted by name, whoever manages it |
| Quiescence.NilUnlessForeign | pkg/controller/handlers.go:16-53 | an undisturbed reconcile returns nil exactly if no foreign object has the name of one that the notebook wants |
| Quiescence.FriendlyReconcile | pkg/controller/handlers.go:16-53 | undisturbed, with those names free or managed, the whole reconcile succeeds and settles all four; if all was settled the cluster stays the same |
| Rounds.LiveRound | pkg/controller/controller.go:320-337 | an undisturbed sync settles the resources, moves the phase on, and does nothing if nothing was to do |
| Rounds.RestIsStable | pkg/controller/controller.go:269-337 | at rest, a further sync of this CA lifetime changes nothing |
| Rounds.RestLasts | pkg/controller/controller.go:269-337 | ... nor does any number of them |
| Rounds.EverySyncGetsNearer | pkg/controller/controller.go:269-337 | an undisturbed sync changes nothing exactly at rest; otherwise it lowers (missing defaults, resources not as desired, phase distance) lexicographically, and zero is rest |
| Rounds.QuiescentExactlyAfter | pkg/controller/controller.go:269-337 | from any stored state of a valid notebook with a host, undisturbed syncs are at rest exactly once there have been as many as `Needed` says |
| Rounds.QuiescentAfterThree | pkg/controller/controller.go:269-337 | three or more are always enough: objects as desired, phase Running |
| Rounds.TwoDoNotSuffice | pkg/controller/handlers.go:55-63 | ... and a new notebook that lacks defaults is not at rest after one or two |
| Rounds.FailingRound | pkg/controller/controller.go:298-303 | an undisturbed sync of an invalid notebook returns an error, marks it Failed and touches nothing else |
| Rounds.HostlessEndsFailed | pkg/apis/jupyter/v1/types.go:187-231 | a valid notebook without a host is Failed from the second sync on, and its resources are never touched |
| Desired.SettledMeans | pkg/controller/reconcilers.go:20-119 | all four reconcilers are settled exactly if each object that the spec asks for is stored as the spec asks for it, field by field, no other is stored, and the issuer has done its part |
| Desired.ReconcileBringsWhatIsAsked | pkg/controller/handlers.go:16-53 | an undisturbed reconcile, whatever was stored before, leaves just that: the spec's password, flavor, packages, GPU, account, backend and TLS |
| Desired.RestMeans | pkg/controller/controller.go:269-337 | a system is at rest exactly if the notebook is valid, complete and Running and what its spec asks for is stored |
| Desired.TlsIsServedIffAskedFor | pkg/k8sutil/secret.go:88-94 | in what is stored: unless TLS is "none", the Secret has certificate and key, the pod the two arguments and the two files, the Ingress a TLS block; if it is, none of them; the Secret is there exactly for TLS or a password |
| Desired.EditTakesEffect | pkg/controller/controller.go:269-337 | a notebook at rest that is given any other full spec is at rest again after one undisturbed sync, with what the new spec asks for |
| Desired.ReconcileReplaces | pkg/k8sutil/statefulset.go:160-190 | where the StatefulSet was as one spec asks, an undisturbed reconcile for another one deletes and recreates it exactly if the two ask for different pods, and else writes nothing to it |
| Desired.EditReplacesThePod | pkg/k8sutil/statefulset.go:160-190 | so an edit of flavor, packages, GPU, account, having a password or having TLS makes the next sync replace the StatefulSet, and any other edit leaves it alone |
| Outcomes.ReconcileNil | pkg/controller/handlers.go:16-53 | for every script, a reconcile returns nil exactly if each of the four slots is nil, by the slots' own exact conditions |
| Outcomes.SyncErrorMeans | pkg/controller/controller.go:269-337 | for every answer of the lister and every script, when a sync returns nil: never for an invalid notebook, for one without defaults exactly if they are stored, for a missing one exactly if four deletions are acknowledged, for any other exactly if its four slots are nil |
| Outcomes.FinishedMeans | pkg/controller/controller.go:325-337 | the same for the last step of the sync machine: its error is nil exactly if all four goroutines have ended without one, and a failed phase write does not matter |
| Outcomes.FinishedAtOnce | pkg/controller/controller.go:276-303 | a sync ends without any call exactly if the lister failed, or an invalid notebook is already marked Failed, and returns that error or complaint |
| Outcomes.DoneMeans | pkg/controller/handlers.go:23-45 | a goroutine ends without an error exactly if its closure returned nil or a benign error and it waits for nothing, or its wait has just been answered |
| Outcomes.AcmeSyncNeedsItsSecret | pkg/controller/reconcilers.go:36-40 | the sync of an ACME notebook returns nil only if the lister shows the issuer's secret in time, after the Ingress is written |
| Outcomes.LiveRoundMeans | pkg/controller/controller.go:320-337 | an undisturbed sync of a valid and complete notebook errs exactly if a foreign object has a wanted name; the phase is then Failed, else Running, and Pending for one without a phase; foreign objects stay, everything else is as the spec asks |
| Outcomes.RejectedUntouched | pkg/controller/controller.go:298-303 | for every script: a notebook whose host, backend or packages are not as they should be gets the first of these complaints, and no resource is touched |
| Outcomes.BackendDecides | pkg/apis/jupyter/v1/types.go:193-196 | a backend with both parts or neither is worked on, one with half of them rejected, whatever the script |
| Outcomes.InvalidEndsFailed | pkg/controller/controller.go:298-303 | after any number of undisturbed syncs such a notebook is Failed and its resources are untouched |
| Outcomes.BackendIsRouted | pkg/k8sutil/ingress.go:22-29 | a backend with both parts reaches the stored Ingress in one undisturbed sync |
| Reasons.NothingIsDeletedWithoutReason | pkg/controller/controller.go:277-290 | in every run, a Service, Secret or Ingress is deleted only by a sync that began with a lister's answer that showed the notebook missing, being deleted or, for a Secret, asking for neither a password nor TLS; an error of the lister is no reason |
| AcmeWait.RunKeepsAwaits | pkg/controller/reconcilers.go:36-40 | in every reachable state, the Ingress goroutine of an ACME notebook has the issuer's secret to wait for, and has ended well only if the lister has shown it |
| AcmeWait.RunningOnlyWithIssuedSecret | pkg/controller/controller.go:325-334 | in every run, an ACME notebook that is not being deleted is set to Running only by a sync whose Ingress goroutine ended well, when the lister has shown the "-tls" secret |
| Integrity.ReconcileFitsTogether | pkg/k8sutil/statefulset.go:54-100 | after an undisturbed reconcile, stored template and Secret, Service and pods, Ingress and Service refer to one another correctly, and the stored StatefulSet selects its pods if the one before did |
| Integrity.RestFitsTogether | pkg/controller/controller.go:269-337 | ... and so they do after three or more undisturbed syncs, whatever was stored before |
| Integrity.SettledCertificateIsOurs | pkg/k8sutil/secret.go:66-77 | a settled, paired Secret holds a certificate of the controller's CA with its own key |
| Integrity.HostChangeKeepsCertificate | pkg/k8sutil/secret.go:66-72 | a stored certificate of this CA stays, any other one gives way to the fresh one; so the written one is for the present host exactly if it was reissued or was for that host before |
| Integrity.HostChangeGoesUnnoticed | pkg/k8sutil/secret.go:34-72 | a notebook at rest that is given another host is at rest again after one or more syncs, without any write to its Secret |
| Integrity.PassthroughHostIsNotCovered | pkg/k8sutil/ingress.go:58-69 | at rest, a certificate for the notebook's present host does not cover the host that the Ingress routes |
| Integrity.TerminatingRound | pkg/controller/controller.go:320-334 | one sync of it removes all four objects, foreign ones included, and moves the phase on |
| Integrity.TerminatingIsMarkedRunning | pkg/controller/controller.go:325-334 | in any phase and whatever is stored under its names, a listed notebook with a deletion timestamp is Running with none of its resources left, after the needed number of syncs |
| Swallowed.NilMeansWrittenOrInVain | pkg/controller/handlers.go:27-37 | for all four kinds and whatever is waited for: a reconcile closure returns the error of its last call or what made it give up, and that is nil or swallowed exactly if the call went through, or was refused as AlreadyExists or NotFound |
| Swallowed.ConvergedUnlessInVain | pkg/controller/handlers.go:27-37 | and then the stored object is as wanted exactly if that call was not refused, or the creation ran into an object that already matches |
| Swallowed.NilSlot | pkg/controller/handlers.go:23-45 | the whole goroutine's slot is nil exactly if that held and its wait, from the log that the call left, was answered in time; otherwise it is the error that failed |
| Swallowed.SettledUnlessInVain | pkg/controller/handlers.go:23-45 | the same condition decides about the object at the goroutine's end, for a StatefulSet if others write no more than its status during the wait |
| Swallowed.StaleCreateReturnsNil | pkg/k8sutil/service.go:48-59 | a foreign Service hidden by a stale cache: nil error, nothing converged |
| Swallowed.WrappedNotFoundIsNotSwallowed | pkg/k8sutil/statefulset.go:182-184 | a StatefulSet that vanishes before its replacement fails the sync |
| Foreign.KeepingDeletesForeign | pkg/k8sutil/statefulset.go:169-184 | for every script: a reconciler that keeps an object deletes a foreign one exactly if the lister shows a managed one with another template and the Delete hits a foreign one |
| Foreign.ErasingDeletesForeign | pkg/controller/reconcilers.go:41-43 | for every script: an erasing reconciler deletes a foreign object exactly if its call arrives and finds one |
| Foreign.ReconcileDeletesForeign | pkg/controller/handlers.go:16-53 | ... and so for each of the four names in a whole reconcile |
| Foreign.FreshListerIsSafe | pkg/k8sutil/statefulset.go:161-171 | with a current lister and nobody in between, no foreign object under a wanted name is deleted |
| Foreign.StaleReplacementDeletesForeign | pkg/k8sutil/statefulset.go:180-189 | a foreign StatefulSet that the lister does not show is deleted and replaced, and the closure returns nil |
| Deletion.EraseEnds | pkg/controller/handlers.go:27-37 | a deleting goroutine returns nil exactly if its call was acknowledged or found nothing, and then the object is gone |
| Deletion.DeletionIsComplete | pkg/controller/controller.go:277-290 | the sync of a missing notebook returns nil exactly if all four deletions were acknowledged or found nothing; then all four are gone and nothing else was touched |
| Deletion.RepetitionSucceeds | pkg/controller/controller.go:277-290 | after any attempt, a repetition whose calls do not fail succeeds; after a successful one it changes nothing |
| SyncOwnership.SyncOwns | pkg/apis/jupyter/v1/types.go:160-170 | whatever a sync creates or updates has its notebook as only owner, kind filled in, UID that of the cached notebook |
| Queue.KeyRoundTrip | pkg/controller/controller.go:259-275 | a queue key splits into the namespace and name it was made from |
| Queue.SplitRoundTrip | pkg/controller/controller.go:271-275 | a key that splits is the key of its parts, unless it begins with the slash |
| Queue.MalformedMeans | pkg/controller/controller.go:271-275 | a key is malformed exactly if it has more than one slash |
| Queue.WorkQueue.Add | pkg/controller/controller.go:259-267 | a key is marked once and becomes ready unless it is being processed |
| Queue.WorkQueue.Get | pkg/controller/controller.go:243-247 | the first ready key moves from dirty to processing |
| Queue.WorkQueue.Done | pkg/controller/controller.go:248 | the key is released and becomes ready again if it was marked meanwhile |
| Queue.WorkQueue.Fire | pkg/controller/controller.go:255 | a key whose back-off ends is added like any other; one that is not waiting changes nothing |
| Queue.EndTurn | pkg/controller/controller.go:248-256 | deliveries, AddRateLimited on failure and Done complete a turn of the worker model |
| WorkerLoop.NotebookLister.Get | pkg/controller/controller.go:276 | the cached notebook of that namespace and name, NotFound, or the lister's error |
| WorkerLoop.SyncKey | pkg/controller/controller.go:269-337 | a malformed key fails at once; for any other the lister is asked for its parts, and its answer synced |
| WorkerLoop.HandlersKeysAreSynced | pkg/controller/controller.go:259-275 | a key that a handler has made is never malformed and leads to the sync of its notebook |
| WorkerLoop.MalformedKeyFails | pkg/controller/controller.go:271-275 | a key with more than one slash fails its sync, which touches nothing |
| WorkerLoop.ProcessNextWorkItem | pkg/controller/controller.go:243-257 | one turn: the first ready key is synced, and the queue ends as in a turn of the worker model that fails exactly if the sync does |
| Queue.HappenIsOk | pkg/controller/controller.go:238-267 | every event keeps the queue in order, one worker per key, and every demanded key pending |
| Queue.NoKeyIsSyncedTwiceAtOnce | pkg/controller/controller.go:243-257 | in every interleaving, no two workers hold the same key |
| Queue.NoWorkIsLost | pkg/controller/controller.go:243-267 | a key that was enqueued or whose sync failed stays pending until a sync begun later returns nil |
| Queue.FirstComeFirstServed | pkg/controller/controller.go:243-247 | idle workers get the ready keys in the order of their arrival |
| Queue.ReadyKeysStayAhead | pkg/controller/controller.go:238-267 | through any events, the ready keys stay in their order ahead of later ones until they are taken from the front |
| Queue.TurnMeans | pkg/controller/controller.go:243-257 | after a turn its key is delayed exactly if the sync failed, to be processed again at once exactly if it arrived meanwhile, and no other key is affected but the arrivals |
| Handlers.OnAddNotebook | pkg/controller/handlers.go:84-92 | enqueues the notebook; drops what is not one |
| Handlers.OnUpdateNotebook | pkg/controller/handlers.go:94-107 | enqueues the current notebook; drops the event if either side is not one |
| Handlers.OnDeleteNotebook | pkg/controller/handlers.go:109-117 | enqueues the notebook; drops tombstones |
| Handlers.OnAddObject | pkg/controller/handlers.go:119-142 | enqueues the resolvable controller, also of an object already being deleted |
| Handlers.OnUpdateObject | pkg/controller/handlers.go:144-176 | enqueues the keys of `ChangeKeys`, in that order |
| Handlers.OnDeleteObject | pkg/controller/handlers.go:178-195 | enqueues the resolvable controller; drops tombstones |
| Handlers.OwnerChangeWakesBoth | pkg/controller/handlers.go:144-176 | an update enqueues exactly the cached notebooks that control the object now or, if the controller changed, did before; none if the version is the same |
| Handlers.OwnershipRoundTrip | pkg/controller/controller.go:339-357 | an event of an object a sync has written leads back to its notebook alone, exactly if one of that name and UID is cached |

## Left out

- Generated clients, listers, informers, fakes and REST plumbing: only lister reads and API verbs appear, by contract.
- `New`, `Run`, `initCRD`, `stopableTimer`, `pkg/client`, `pkg/tls` and `cmd`: configuration and process set-up.
- Real time, back-off durations and logging: waits are finitely many attempts.
- Constant parts of the container, images, GPU quantities, RBAC: nothing reads them back; `Annotation` and `Argument`
  enumerate the annotations and arguments that occur.
- The texts of error messages: `Message` keeps their structure, that is, which error wraps which.
- The queue library's internals, the DNS pattern's regular-expression engine, PEM and X.509 parsing: a certificate that
  parses is a value that says which CA signed it.
- `Notebook.Copy` through JSON: the controller does not use it.
- The goroutines of a reconcile are run by a scheduler loop over their machines; that each machine, run to its end, does
  what the imperative goroutine body does is proved per kind, in `closures`.
- Shutting the queue down: a worker is only ever asked to take a key that is ready.
- Restarts of the controller in `Queue`: the queue starts empty and the initial listing delivers every notebook again.
- Quiescence is stated with one fresh cache per sync and helpers that answer each wait; interference and faults are the
  subject of the safety theorems instead.
- DeletionIsComplete: an object is gone when its goroutine's call returns; what others create after that is their
  business.
