# Tenant lifecycle control plane

This project models the control plane that keeps two stores in step, the
`tenants` table and the Kubernetes objects of each tenant, and proves which
facts survive every interleaving of its handlers, every lost request, every
crash and every vanished Pod, and what its calls achieve when nothing goes wrong.

## How it is modelled

The two stores share no transaction, and every `await` on one of them is a place
where other handlers step in and where a call may be lost, before or after it
took effect.

**Values and stores.** `Types`, `Base64` and `Manifests` hold tenants, tokens,
names and manifests; `World` holds the table (with the creation history as a
record of what was issued) and the cluster (with an instance number per object),
and `Apply`, the effect and reply of one call under one choice of the environment.

**Small steps.** `Handlers` writes each handler, each spawned suspension and the
sweeper's endless loop as positions with the calls in flight; the `join!` groups
have several. `Protocol` interleaves any number of them (so also two replicas)
with crashes, vanishing Pods and passing time. A schedule is any function from
numbers to events; events that are not possible change nothing. Over all
schedules: `Agreement`, `Routing` (token agreement, one tenant per user, routing),
`Isolation`, `Justification`, `PendingRows`, `Dependencies`, `Witness`, `Sweeps`,
`IdleBound`, `Spacing`, `Activity`, `Backing`, `Answers`, `Gateway`, `Convergence`,
`ProvisionOrder`, `Instances`.

**Serial calls.** `Serial` runs one handler alone under an oracle that decides
every fate and order (`Drive`), and shows that this is one of the schedules.
`Views`, `Requests` and `SweepForm` give the fault-free calls in closed form;
`Refinement` (the user-to-status machine), `Recovery` and `Fidelity` build on
them; `WithoutKubernetes` and `RowMachine` do the same where Kubernetes is disabled. `Limits`, `SweepLimits` and
`Counterexamples` are about calls that are lost. `Feasible` shows that fault-free runs exist
from everywhere.

**Methods.** `Stores` has the table, the cluster and the network as objects whose
methods update their fields. `K8s`, `Session`, `Routes` and `IdleSweeper` are the
functions of the program over these objects, with its loops, flags, counters and
early exits. Each is proved to leave exactly the stores, the answer and the
number of calls of `Drive` from its position, under every oracle, so the results
about runs and serial calls are results about these methods. The cluster
operations are also specified by functions on sets of objects (`RoundTrips`), and
`Cycles` runs them one after another. An answer of ext-authz is given before its
touch: `AuthTouch` is the position of a handler that has answered and whose touch
is still on its way.

## Assumptions

- One configuration per run; an empty table and cluster at the start.
- Deletion of an object is immediate. The clock is monotone, and the insert and a
  touch read and write it at once. `find_idle_tenants` computes its cutoff at
  the moment of the query.
- A generated tenant id is never one issued before: an insert that would repeat
  one is refused, as one that meets a live row is by the UNIQUE constraints.
- A health check through a tenant's Service may answer no at any time, and yes
  only if Pod and Service exist and the token presented is what the Secret
  decodes to. Without Kubernetes a new tenant is checked at the URL of the
  template, whose answer is arbitrary.
- Making a Kubernetes client and the first call after it fail in the same way for
  wake, suspend and the Pod check, so there they are one call.

## Where the code falls short of what one may expect

The code does not keep four facts one may expect. `Limits` and `SweepLimits` say,
for each call that can end one of them, exactly when it does so when it runs
alone, whatever is lost on the way; `Counterexamples` has inputs from ordinary
worlds.

- A Ready tenant has a Pod. A suspend (`SuspendLosesPodExactly`), a sweep
  (`SweepLosesPodExactly`) or a delete (`DeleteLeavesRowWithoutExactly`) can leave
  one without; a session cannot (`SessionNeverLosesFront`, `FirstSessionMakesAll`).
- A Suspended tenant has no Pod. A session that wakes it can leave one
  (`WakeLeavesPodExactly`); no other session makes a tenant Suspended
  (`SessionsKeepRows`), and suspend, sweep and delete do not leave one
  (`SuspendLeavesTheRest`, `SweepLeavesTheRest`, `DeleteUnderLosses`).
- Every object has a row. A delete can leave orphans (`DeleteLeavesOrphanExactly`);
  no other call removes a row.
- Behind a gateway a Ready tenant has a route. A session after a provisioning run
  that lost it (`SessionLeavesNoRouteExactly`), or a delete
  (`DeleteLeavesRowWithoutExactly`), can leave one without; suspend, sweep and first
  sessions cannot.

ext-authz and status requests only read and touch. When calls interleave, the first
three facts also fail with no call lost: an update to Ready can land after a
suspend (`LateReadyWrite`), a Pod can vanish (`VanishedPod`), and a provisioning run
can create a Pod in the middle of a suspend (`SuspendRacesWithProvisioning`) or
after a delete (`DeleteRacesWithProvisioning`).

`Recovery` gives the exact condition
under which sessions repair a tenant: a Suspended tenant with a Pod, or one with
a Pod but without another object, stays lost. The doc comment of
`provision_tenant` calls it idempotent, which holds; `wake_tenant` is not.

## Model
| member | source | states |
|---|---|---|
| Base64.DecodeEncode | control-plane/src/k8s/manifests.rs:235-238 | decoding the encoding of any token gives the token back (section 4 of RFC 4648) |
| Base64.EncodeDecode | control-plane/src/k8s/manifests.rs:235-238 | conversely, whatever the decoder accepts is the encoding of what it decodes to, so the encoding is canonical |
| Manifests.KeyOf | control-plane/src/k8s/manifests.rs:59-62 | every object name gives back the tenant it was built from, so names of different tenants never collide |
| Manifests.BuildSecret | control-plane/src/k8s/manifests.rs:38-56 | the Secret decodes to exactly the tenant's token |
| Manifests.BuildPod | control-plane/src/k8s/manifests.rs:59-161 | the names written into the Pod are those of the tenant's own Secret (key token) and claim, and it carries the tenant label its Service selects |
| Manifests.BuildRoute | control-plane/src/k8s/manifests.rs:198-233 | the route's hostname is the tenant's public host and its backend is the tenant's own Service |
| Agreement.StoreAgrees | control-plane/src/tenant.rs:104-229 | no store call breaks the agreement of rows, user index and creation record, whatever its fate; the creation record only grows |
| Agreement.CreatesGenuine | control-plane/src/k8s/mod.rs:50-116 | a handler whose snapshot agrees with the creation record, however stale its status, creates only manifests built from the token issued to its tenant; by AlwaysAgrees that is every handler in every run |
| Agreement.AlwaysAgrees | control-plane/src/tenant.rs:122-159 | in every run, rows, objects, handler snapshots and finished answers all agree with the record of creation |
| Routing.IssuedOnce | control-plane/src/tenant.rs:122-159 | what was recorded of a tenant at its creation never changes in any run |
| Routing.TokenAgreement | control-plane/src/tenant.rs:122-196 | token agreement: in every run the row, every handler snapshot, every sweep entry and the decoded Secret of a tenant hold the one token issued at its creation |
| Routing.InjectedTokenReachesPod | control-plane/src/routes.rs:239-272 | the token an ext-authz answer injects is what the Pod of the answered tenant reads from its Secret, even if the Pod is created after the answer |
| Routing.OneTenantPerUser | supabase/migrations/001_tenants.sql:6-13 | in every run each user has at most one row, and a lookup by a row's user finds that row; every object belongs to exactly one issued pair of user and tenant |
| Routing.HostnameInjective | control-plane/src/k8s/manifests.rs:204 | different tenants have different public host names |
| Routing.RouteLeadsHome | control-plane/src/k8s/manifests.rs:163-233 | in a consistent cluster, a route for a tenant's host leads through a Service only to that tenant's own Pod |
| Routing.HostReachesOwnPodOnly | control-plane/src/k8s/manifests.rs:163-233 | in every reachable cluster, a tenant's public host reaches no Pod but its own |
| Isolation.CallsAreLocal | control-plane/src/k8s/mod.rs:119-145 | a call that names one tenant leaves the row and every object, with its instance, of any other tenant as it was |
| Isolation.HandlersAreIsolated | control-plane/src/k8s/mod.rs:199-211 | from the step a handler has read or inserted a tenant's row, none of its steps changes a row or object of another tenant |
| Isolation.SweepTasksAreIsolated | control-plane/src/idle_sweeper.rs:77-95 | in every run, a step of a suspend task changes nothing of any tenant but its own, and awaiting a task changes nothing |
| Isolation.LostInsertCreatesNothing | control-plane/src/session.rs:140-145 | a first session whose insert loses, to a concurrent insert or to a fault, answers 500 and never makes another call |
| Justification.StatusChangesAreJustified | control-plane/src/session.rs:80-137 | every status change in every run comes from a handler with the right reason: Suspended from one that read Ready, Ready from one that read Provisioning or Error or inserted the row, Error only by a handler at its error update, Provisioning after a wake or a reprovisioning |
| Justification.PendingIsNeverReached | control-plane/src/tenant.rs:134-139 | no row is ever Pending in a run from an empty table |
| Justification.ErrorMarkAfterFailure | control-plane/src/session.rs:122-130 | a handler reaches its error update only from a provisioning run in which its last call, or the other call of the same group, has failed |
| Justification.ErrorMeansFailedProvisioning | control-plane/src/session.rs:148-156 | a handler about to write Error has a step earlier in the run at which its own provisioning failed |
| PendingRows.PendingRowStaysPending | control-plane/src/tenant.rs:199-210 | from any consistent table with a Pending row and no handler at work, the row is Pending at every step of every run at which it exists |
| Dependencies.DependenciesHold | control-plane/src/k8s/mod.rs:55-75 | with no DELETE for a tenant, in every interleaved and faulty run: a Pod implies its claim and Secret; Ready or Suspended, in the row or in any stale snapshot, implies claim, Secret and Service |
| Dependencies.InstancesSurvive | control-plane/src/k8s/mod.rs:167-197 | with no DELETE, every object of a tenant but the Pod is never replaced: the same instance stays for ever |
| Dependencies.DataSurvives | control-plane/src/k8s/manifests.rs:142-146 | with no DELETE, a claim that exists at one step exists as the same instance at every later step, and every Pod of the tenant then mounts that instance |
| Witness.HealthyIsComplete | control-plane/src/session.rs:90-97 | a health check is answered only if Pod, Service and Secret coexist and the Secret holds the token presented |
| Witness.ReadyHasWitness | control-plane/src/session.rs:147-175 | every Ready row has such a moment in its own past, after its creation, in every run with deletes and faults |
| Sweeps.SweepIsCompleteAndBounded | control-plane/src/idle_sweeper.rs:33-75 | for every list and interleaving: at most 20 tasks are unfinished, all of the current batch, since every handle of the earlier batches has been counted; no tenant is attempted twice; at the end ceil(total / 20) batches, each tenant attempted once, suspended + failed = total |
| Sweeps.SweepsAreJustified | control-plane/src/tenant.rs:199-217 | the list of every sweep in progress is the answer of its own query: tenants Ready and idle for more than 3600 s at that time |
| Sweeps.SweptTenantWasIdle | control-plane/src/idle_sweeper.rs:33-34 | every tenant a sweep suspends was Ready with last activity strictly older than 3600 s when that sweep queried |
| Sweeps.TouchedIsSpared | control-plane/src/tenant.rs:180-217 | a tenant for which a touch takes effect at time T, even if its reply is lost, is in no answer of a query made in [T, T + 3600] |
| IdleBound.SweepWithinDuration | control-plane/src/idle_sweeper.rs:47-71 | a sweep over at most n tenants that keeps its pace is over ceil(n / 20) batch times after its query was answered, and within q + ceil(n / 20) * m of its beginning |
| IdleBound.IdleTenantIsSelected | control-plane/src/idle_sweeper.rs:10-29 | for any bounds on a sweep's query, on what follows the answer, and on the whole: an untouched tenant is not Ready later than L + 3600 + 300 + rest + whole; the sweep that takes it has begun by L + 3600 + 300 + rest, and its query is answered and lists it one query later |
| IdleBound.IdleTenantIsSuspendedWithin | control-plane/src/idle_sweeper.rs:10-29 | if each sweep takes at most D, an untouched tenant is not Ready later than L + 3600 + 300 + 2D, and the sweep that takes it has begun by L + 3600 + 300 + D |
| IdleBound.IdleTenantIsSuspendedInTime | control-plane/src/idle_sweeper.rs:10-29 | with D = q + ceil(n / 20) * m: an untouched tenant is selected, in the answer of a query, by L + 3600 + 300 + D, and is not Ready later than L + 3600 + 300 + 2D |
| Spacing.SleepLasts | control-plane/src/idle_sweeper.rs:24-29 | in every run a sweep begins no earlier than 300 s after the sweeper's start, or after the end of its sweep before |
| Spacing.SweepsAreBounded | control-plane/src/idle_sweeper.rs:10-29 | between two moments a sweeper begins at most one sweep more than whole intervals of 300 s fit in between |
| Activity.ActivityIsTouchOrInsert | control-plane/src/tenant.rs:122-196 | in every run a row's last activity changes only with a touch of that tenant, to the time of the touch; a new row comes only with an insert, Provisioning, with the generated id and token, active at that time |
| Activity.InsertedIsSpared | supabase/migrations/001_tenants.sql:12 | a tenant whose insert takes effect at time T, even if its reply is lost, is in no answer of a query made in [T, T + 3600] |
| Activity.ExtAuthzRecordsActivity | control-plane/src/routes.rs:239-272 | ext-authz alone, whatever is lost: 500, 401 and 503 change nothing; otherwise the answer, and unless the touch is lost before taking effect the row's last activity is now, every other field and row being as before |
| Activity.SessionRecordsActivity | control-plane/src/session.rs:31-35 | a session of a user with a row, in any configuration and whatever is lost later: once the touch has taken effect the row's last activity is now when the session ends; if the touch is not acknowledged the answer is 500 |
| Activity.FirstSessionRecordsActivity | control-plane/src/session.rs:140-145 | a first session whose insert takes effect leaves the new row's last activity at now, whatever is lost later |
| Answers.AuthRecordsActivity | control-plane/src/routes.rs:255-260 | every handler that ends with an ext-authz answer has a step of its own at which it touched that tenant, and unless that was lost before taking effect the tenant is in no answer of a query within 3600 s of it |
| Answers.SessionRecordsActivity | control-plane/src/session.rs:31-35 | every session that ends with success has a step of its own at which its touch of that tenant was acknowledged, or at which it inserted it, and the tenant is in no answer of a query within 3600 s of it |
| Backing.AnswersAreBacked | control-plane/src/routes.rs:136-272 | every answer of success, in every run, is backed by what its handler itself read and had acknowledged: Ready by a Ready row read, or an answered check and an acknowledged update; 204 by the acknowledged last update, after the deletes; and so on |
| Answers.SessionShowsToken | control-plane/src/routes.rs:109-119 | the token a session answers, in every run: none behind a gateway, else the dev token, else the one issued at the tenant's creation |
| Answers.SessionShowsAddress | control-plane/src/routes.rs:121-131 | the address a session answers, in every run: without a gateway the template with the tenant's id; behind one, with Kubernetes, the scheme and the host name written in the tenant's own route, which leads to no Pod but its own |
| Answers.SessionShowsAddressWithoutCluster | control-plane/src/session.rs:147-167 | behind a gateway without Kubernetes: the gateway address for a row that was read, the template's for one that was inserted |
| Answers.FirstIsReplaced | control-plane/src/routes.rs:129-131 | in a template the first placeholder becomes the tenant's id, and the text after it is treated likewise |
| Answers.NothingToReplace | control-plane/src/routes.rs:129-131 | a template without the placeholder is the address of every tenant |
| Answers.AuthLeadsHome | control-plane/src/k8s/mod.rs:209-211 | the backend of an ext-authz answer is the address and port of the tenant's own Service, which selects no Pod but its own |
| Answers.ObjectsAreAsConfigured | control-plane/src/k8s/manifests.rs:11-233 | in every run each object's names, labels, references, port, image, storage class and gVisor flag are those of the builders and the configuration |
| Gateway.RunsCommute | control-plane/src/routes.rs:109-119 | renaming tokens by any injection that fixes the dev token commutes with every step of every run |
| Gateway.ResponsesIgnoreTokens | control-plane/src/routes.rs:109-119 | behind a gateway two runs that differ in tokens only have the same handlers at every step and give the same answers on every /api path, errors included |
| Gateway.SessionsAreTokenless | control-plane/src/routes.rs:109-112 | behind a gateway no session answer contains a token |
| Convergence.ProvisioningConverges | control-plane/src/k8s/mod.rs:50-116 | whatever failed, concurrent or repeated runs do in between, in any order of calls, one success with no removal in between leaves exactly the objects of the spec |
| Convergence.CreatedMeansAdded | control-plane/src/k8s/mod.rs:66-100 | a successful run reports created exactly if some call of this run added an object, whatever others do between its calls |
| ProvisionOrder.ProvisioningIsOrdered | control-plane/src/k8s/mod.rs:55-100 | whatever others do in between, a run makes the Pod only after it has made or found claim and Secret, Service and route only after the Pod, and succeeds only after every object |
| ProvisionOrder.FailedProvisioningMarksError | control-plane/src/session.rs:122-155 | a session, first or not, whose provisioning loses any call answers 500, and its last call marks the row Error, which it then is unless that call is lost before taking effect |
| Instances.RecreatedIsAnother | control-plane/src/k8s/mod.rs:167-197 | an object that was removed and made again is another instance, so that keeping the instance is what keeps the data |
| Serial.RankDrops | control-plane/src/session.rs:30-186 | every call brings a handler nearer to its end |
| Serial.DriveEnds | control-plane/src/routes.rs:136-236 | run alone, whatever fails, every handler answers and every sweep comes to its end |
| Serial.DriveIsASchedule | control-plane/src/routes.rs:136-236 | what a handler does alone is what some schedule lets it do, so every result about runs covers serial calls |
| Feasible.FaultFreeRunExists | control-plane/src/routes.rs:136-236 | from every world and position a fault-free run exists, with health checks answered or not as wished |
| Fidelity.SessionIsFaithful | control-plane/src/session.rs:30-186 | with fault-free store calls, and any cluster faults, a successful session answers the row's final status; only a row still in Error with a Pod, or without Kubernetes, is called Provisioning |
| Views.SessionOnRow | control-plane/src/session.rs:30-137 | a fault-free session on an existing row in closed form: answer, final status and objects from status, objects and health; nobody else is touched |
| Views.SessionWithoutRow | control-plane/src/session.rs:140-186 | a fault-free first session: a tenant id never issued before, all objects, Ready exactly if the first health check is answered |
| Requests.SuspendOnRow | control-plane/src/routes.rs:174-203 | a fault-free suspend in closed form: 409 unless Ready; 500 and no change without a Pod; otherwise the Pod goes and the row is Suspended |
| Requests.DeleteOnRow | control-plane/src/routes.rs:206-236 | a fault-free delete removes the row and every object of the tenant, in any order of its calls, and nothing else |
| SweepForm.SweepOnWorld | control-plane/src/idle_sweeper.rs:33-95 | a fault-free sweep, in any order of its tasks, suspends exactly the listed tenants that had a Pod, counts the others as failed and leaves them, and touches nobody else |
| Refinement.SerialCallsRefineTheMachine | control-plane/src/routes.rs:136-236 | after any sequence of fault-free session, suspend, delete and sweep calls by any users, answers and statuses are those of the user-to-status machine, the cluster holds exactly the objects the rows call for, and no row is Error or Pending |
| Refinement.OpRefines | control-plane/src/routes.rs:136-236 | each single call, from any exact world, is one move of the machine and keeps the world exact |
| Refinement.ExactCluster | control-plane/src/k8s/mod.rs:50-145 | in an exact world an object exists exactly if its row calls for it, and is as built from that row |
| Refinement.ClusterIsAFunctionOfTheRows | control-plane/src/k8s/mod.rs:50-145 | two exact worlds with the same tenants have the same objects |
| Refinement.SweepOnExact | control-plane/src/idle_sweeper.rs:33-95 | a fault-free sweep of an exact world suspends all idle tenants and fails for none |
| RowMachine.SerialCallsRefineTheRowMachine | control-plane/src/routes.rs:136-236 | the same without Kubernetes: after any sequence of fault-free calls by any users, answers and statuses are those of a user-to-status machine in which nobody is woken, and no object exists |
| WithoutKubernetes.SuspendWithoutCluster | control-plane/src/routes.rs:174-203 | a suspend without Kubernetes, whatever is lost: 404, 409 unless Ready, else only the row's status becomes Suspended unless the update is lost before taking effect, and 204 exactly if it is acknowledged |
| WithoutKubernetes.DeleteWithoutCluster | control-plane/src/routes.rs:206-236 | a delete without Kubernetes, whatever is lost: 404, else only the row goes unless its removal is lost before taking effect, and 204 exactly if it is acknowledged |
| WithoutKubernetes.SessionWithoutCluster | control-plane/src/session.rs:30-103 | a session of a row without Kubernetes, whatever is lost: only the last activity changes; 500 for a Suspended row or a touch that is not acknowledged, else the status, Error shown as Provisioning |
| WithoutKubernetes.FirstSessionWithoutCluster | control-plane/src/session.rs:140-186 | a first session without Kubernetes: the engine at the template's address is asked with the dev token or the tenant's own; the row becomes Ready if it answers and the update takes effect |
| SweepLimits.SweepWithoutCluster | control-plane/src/idle_sweeper.rs:77-95 | a sweep without Kubernetes, whatever is lost: an idle tenant's row becomes Suspended exactly if the query was answered and the update took effect |
| Recovery.RecoversExactly | control-plane/src/session.rs:80-137 | k + 2 fault-free sessions, of which at most k after the first find the engine not ready, end Ready and healthy if and only if the starting state was recoverable (no row; Ready and healthy; Provisioning or Error with no Pod or everything; Suspended with no Pod and the rest) |
| Recovery.NeverRecovers | control-plane/src/k8s/mod.rs:182-191 | the complement is closed: no number of sessions recovers what is not recoverable |
| Cycles.ProvisionThenDeprovision | control-plane/src/k8s/mod.rs:50-150 | the two calls one after the other: without faults the objects are those of deprovisioning alone, and the same as before if the tenant had none; whatever fails, no object of another tenant changes |
| Cycles.SuspendThenWake | control-plane/src/k8s/mod.rs:167-197 | the two calls one after the other: if both go well the objects are as before with the Pod as built from the spec, and exactly as before if it was so built; without faults both go well exactly if there was a Pod; whatever fails, only the Pod can differ |
| Cycles.ProvisionAgain | control-plane/src/k8s/mod.rs:29-116 | provisioning is idempotent and resumes: a run after one that was cut short anywhere ends with the objects of a single run from the start, and after one that went well it creates nothing |
| Stores.TenantStore.FindByUser | control-plane/src/tenant.rs:105-119 | the answer is the user's row or none, and the table does not change |
| Stores.TenantStore.Create | control-plane/src/tenant.rs:122-159 | a new Provisioning row, refused without change if the user has a row or the id was issued; a lost reply may leave the row |
| Stores.TenantStore.UpdateStatus | control-plane/src/tenant.rs:161-178 | only the named row's status changes; a patch that matches no row succeeds |
| Stores.TenantStore.TouchLastActive | control-plane/src/tenant.rs:181-196 | only the named row's last activity changes, to the current time |
| Stores.TenantStore.FindIdleTenants | control-plane/src/tenant.rs:200-218 | the answer lists each Ready row idle for more than 3600 s once, in any order |
| Stores.TenantStore.Delete | control-plane/src/tenant.rs:220-229 | the named row and its index entry go |
| Stores.Cluster.Create | control-plane/src/k8s/mod.rs:31-37 | the object is added under its own key as a new instance, or 409 and no change |
| Stores.Cluster.Delete | control-plane/src/k8s/mod.rs:134-146 | the object goes, or 404 and no change |
| Stores.Cluster.CheckHealth | control-plane/src/routes.rs:95-107 | yes only if Pod, Service and Secret exist and the Secret decodes to the token presented |
| K8s.ProvisionTenant | control-plane/src/k8s/mod.rs:50-116 | follows the handler's position call by call; only missing objects of the spec are added, even on failure; on success the objects are the spec's with existing ones kept, and created tells whether any was added; without faults it succeeds |
| K8s.DeprovisionTenant | control-plane/src/k8s/mod.rs:119-150 | fails only if the client cannot be made; removes only the tenant's objects, and without faults all of them |
| K8s.SuspendTenant | control-plane/src/k8s/mod.rs:167-179 | removes exactly the Pod; without faults it succeeds if and only if the Pod exists |
| K8s.WakeTenant | control-plane/src/k8s/mod.rs:182-197 | adds exactly the Pod of the spec; without faults it succeeds if and only if there is no Pod |
| K8s.PodExists | control-plane/src/k8s/mod.rs:153-164 | without a fault, whether the Pod exists |
| Session.HandleExisting | control-plane/src/session.rs:30-56 | ends with the answer, stores and number of calls of the handler at its touch |
| Session.WakeSuspended | control-plane/src/session.rs:58-78 | the same for a Suspended row after the touch |
| Session.ResolveStatus | control-plane/src/session.rs:80-103 | the same for any other row after the touch |
| Session.ReprovisionIfMissing | control-plane/src/session.rs:105-137 | the same from the Pod check |
| Session.ProvisionNew | control-plane/src/session.rs:140-186 | the same from the insert |
| Routes.CreateSession | control-plane/src/routes.rs:136-152 | the same for the whole request; and faithful to the row if no store call fails |
| Routes.TenantStatus | control-plane/src/routes.rs:155-171 | the user's tenant and status, 404 or 500; nothing changes |
| Routes.SuspendTenant | control-plane/src/routes.rs:174-203 | 204 means the row was Ready, is now Suspended and the Pod is gone; 404 and 409 change nothing |
| Routes.DeleteTenant | control-plane/src/routes.rs:206-236 | 204 means the row is gone, only its objects were removed, and without faults all of them; 404 changes nothing |
| Routes.ExtAuthz | control-plane/src/routes.rs:239-272 | a Ready tenant's own token and backend; 401, 503 and 500 as in the code, without change; a lost touch does not matter |
| IdleSweeper.RunTask | control-plane/src/idle_sweeper.rs:77-95 | one call of a suspension: the Pod first, with Kubernetes, and the row only if that succeeded |
| IdleSweeper.RunBatch | control-plane/src/idle_sweeper.rs:47-71 | one batch with its tasks in any order: every handle is counted once |
| IdleSweeper.Sweep | control-plane/src/idle_sweeper.rs:33-75 | ends as the handler that runs the sweep does; whatever fails, suspended + failed = total over ceil(total / 20) batches, each tenant attempted once; without faults in an exact world it suspends exactly the idle tenants |
| Limits.SuspendUnderLosses | control-plane/src/routes.rs:174-203 | a suspend under every loss: the Pod goes exactly if the row was read as Ready and the deletion took effect; the row becomes Suspended exactly if moreover there was a Pod, its deletion was confirmed and the update took effect; else it stays |
| Limits.SuspendLosesPodExactly | control-plane/src/routes.rs:188-200 | a suspend of a Ready tenant leaves it Ready without a Pod if and only if there was no Pod, or the deletion took effect and its reply or the status update was lost |
| Limits.SuspendLeavesTheRest | control-plane/src/routes.rs:174-203 | a suspend keeps the row, and leaves a Suspended tenant with a Pod, or a Ready one without another object, only if it was so before |
| Limits.WakeLeavesPodExactly | control-plane/src/session.rs:58-69 | a session of a Suspended tenant leaves it Suspended with a Pod if and only if there was one, or the creation took effect and its reply or the status update was lost |
| Limits.DeleteUnderLosses | control-plane/src/routes.rs:206-236 | a delete under every loss and order: an object goes exactly if row and client were reached and its own deletion took effect; the row goes exactly if its removal took effect, else it stays as it was; 204 exactly if lookup, client and row removal go well |
| Limits.DeleteLeavesOrphanExactly | control-plane/src/k8s/mod.rs:134-146 | a delete leaves an object without a row if and only if the object existed, its own deletion was lost before taking effect, and the row was removed |
| Limits.DeleteLeavesRowWithoutExactly | control-plane/src/routes.rs:217-233 | a delete leaves the row as it was, without an object of a kind, if and only if the row's removal did not take effect and there was no such object or its own deletion took effect |
| Limits.SessionLeavesMissingExactly | control-plane/src/session.rs:30-137 | a session of a user with a row leaves the tenant Ready without an object of a kind if and only if there was none and the row was Ready, or was Provisioning or Error with Pod, Service and Secret in place, the check was answered and the update took effect |
| Limits.SessionLeavesNoRouteExactly | control-plane/src/session.rs:80-103 | the same for the route, behind a gateway |
| Limits.SessionNeverLosesFront | control-plane/src/session.rs:80-103 | a session leaves a tenant Ready without a Pod, Service or Secret if and only if it was Ready without it before |
| Limits.FirstSessionMakesAll | control-plane/src/session.rs:140-186 | a first session never makes its tenant Ready without every object that provisioning creates |
| Limits.SessionsKeepRows | control-plane/src/session.rs:30-186 | no session removes a row or makes a tenant Suspended |
| SweepLimits.SweepUnderLosses | control-plane/src/idle_sweeper.rs:33-95 | a sweep under every loss and order, for each tenant idle when it queries: its Pod goes exactly if the query was answered and the deletion took effect; the row becomes Suspended exactly if there was a Pod, its deletion was confirmed and the update took effect; else it stays |
| SweepLimits.SweepLosesPodExactly | control-plane/src/idle_sweeper.rs:77-95 | a sweep leaves an idle tenant Ready without a Pod if and only if there was none, or the deletion took effect and its reply was lost, or the status update was lost before taking effect |
| SweepLimits.SweepLeavesTheRest | control-plane/src/idle_sweeper.rs:77-95 | a sweep keeps every idle tenant's row and its objects but the Pod, and never leaves one Suspended with a Pod |
| SweepLimits.SweepSparesTheRest | control-plane/src/tenant.rs:199-217 | a sweep, whatever is lost, touches no tenant that is not idle when it queries |
| Counterexamples.ReadyWithoutPod | control-plane/src/routes.rs:188-200 | an input for SuspendLosesPodExactly: a suspend that loses its status update answers 500 and leaves the table as it was and every object but the Pod |
| Counterexamples.SuspendedWithPod | control-plane/src/session.rs:62-69 | an input for WakeLeavesPodExactly: a wake that loses its status update answers 500 and leaves the row Suspended with all objects |
| Counterexamples.WokenTooEarlyIsStuck | control-plane/src/k8s/mod.rs:182-191 | every later fault-free session of such a tenant answers 500 and repairs nothing |
| Counterexamples.DeleteLeavesOrphans | control-plane/src/k8s/mod.rs:134-146 | an input for DeleteLeavesOrphanExactly: a delete whose cluster calls are all lost answers 204 and leaves every object without a row |
| Counterexamples.RouteIsLost | control-plane/src/k8s/mod.rs:88-95 | a provisioning run that loses only the route ends at its error update with everything else in place |
| Counterexamples.ReadyWithoutRoute | control-plane/src/session.rs:90-97 | an input for SessionLeavesNoRouteExactly: after such a run the next answered health check makes the tenant Ready, and the session does not create the route |
| Counterexamples.LateReadyWrite | control-plane/src/session.rs:90-97 | with no call lost: two sessions have found the engine healthy, one makes the row Ready, a suspend answers 204, and the other's update leaves the row Ready without a Pod; a schedule from any exact world with a Provisioning row |
| Counterexamples.SuspendRacesWithProvisioning | control-plane/src/session.rs:122-136 | with no call lost: a provisioning run creates the Pod between a suspend's deletion and its status update, which leaves the row Suspended with a Pod |
| Counterexamples.DeleteRacesWithProvisioning | control-plane/src/routes.rs:217-233 | with no call lost: a provisioning run creates the Pod after a delete has removed the row |
| Counterexamples.VanishedPod | control-plane/src/session.rs:86-88 | with no call lost: a Pod that vanishes leaves its row Ready, and a session of a Ready row does not look for the Pod |

## Left out
- JWT checks, JWKS fetching and header parsing: the authenticated user id is an input.
- HTTP, PostgREST and kube plumbing, JSON, tracing and error texts: a call is typed and ends in success, 409, 404 or a fault.
- Environment parsing, CORS, Terraform, Docker and static YAML: configuration.
- Pod fields that no other object refers to (resources, probes, security context, tolerations, mounts): only names, labels, references, selectors, ports, image, storage class and the gVisor flag are kept.
- Scheduling, finalizers and graceful termination of Pods: the health check stands for them.
- Generating ids and tokens, and their lengths: fresh values chosen by the environment.
- `hex::encode`, `Display` and serde of the status, and checks of constants: they would add easy members only.
- The sweeper's endless loop as a method: it is the small-step sweeper of `Handlers`; `IdleSweeper.Sweep` is one round of it.
- The conditions of `Limits` and `SweepLimits` for interleaved runs: they are stated for one call alone; what holds under interleaving is `Dependencies`, `Witness` and `Justification`.
- Handler methods under interleaving: the methods run alone; interleaved runs are those of `Protocol`, of which a method's run is one (`Serial.DriveIsASchedule`).
- A panic of a suspension task: it would be counted as failed, as a task whose call fails is.
- Dropping a request when its client goes away is the crash event of `Protocol`; timeouts of single calls are lost calls.
- Recovery.RecoversExactly: assumes no dev token, because with one the health check of an existing row presents a token its engine does not accept.
