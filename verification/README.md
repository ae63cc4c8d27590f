# Model of the ExternalDNS end-to-end harness

The repository provisions Azure infrastructure, deploys ExternalDNS and nginx on a cluster, and runs
tests that annotate services and wait for DNS records. This project models the parts of it whose
correctness does not show in any one function, and proves what they keep over all runs.

Every SDK or `kubectl` call is one step of an outside world that answers as it likes: it grants, it
refuses, it breaks off, and where the code can end the process it may do that too. Concurrent code is
a step system: a schedule is any list of events (which task moves, what it is answered), an event
that is not possible when its turn comes is skipped, and so a lemma about all schedules is a lemma
about all interleavings and all answers.

| module | source | what it covers |
|---|---|---|
| `Provisioning`, `ProvisioningSafety`, `ProvisionRun` | `infra/provision.go` | one `infra.Provision`: seven phases that fork tasks, share `ret`, `vnetId`, `subnetId` and an error group, and join. First as a step system with its invariant, then its whole-run theorems, then as a class that updates its fields and refines the step system |
| `Infras` | `infra/provision.go` | all infrastructures at the same time |
| `Vnet` | `clients/vnet.go` | concurrent `NewVnet` calls over package-level variables, one read or write at a time |
| `StableWait` | `clients/aks.go` | `waitStable`: a checker per object, Jobs that evolve meanwhile, log files |
| `Text`, `ResourceId` | used by `config.go`, `convert.go` | splitting, joining, letter case; resource ids |
| `ZoneConfig` | `pkgResources/config/config.go` | the zone-id classifier and the `Config` object |
| `Convert` | `infra/convert.go` | saving and loading provisioned infrastructure |
| `Manifests`, `ExternalDnsConfig` | `pkgResources/pkgManifests/` | the Kubernetes objects for ExternalDNS and the configurations that are deployed |
| `Polling` | `tests/`, `suites/` | the waiting loops against an arbitrary clock |
| `Annotations` | `tests/testingResources.go` | annotating and clearing, command by command |
| `TestRun` | `suites/`, `tests/run.go`, `cmd/test.go` | the whole test run |

## Results worth knowing

- Provisioning is safe although one error group serves three phases: no phase starts before every
  earlier task has been granted everything, so neither an index nor the cluster can be missing
  (`NeverCrashes`, `PhaseBarrier`). A successful run issues exactly the role assignments it should
  (`RolesExact`) and returns nil exactly when every answer was a grant and both vnet ids are
  non-empty (`EndExact`). Every run ends (`RunsEnd`), and so do all of them together
  (`ProvisionEnds`).
- `NewVnet` is safe under concurrency exactly when all callers pass the same subscription, group and
  location (`SafeExactlyWhenAgreed`); the built-in list does. A call that returns has sent its vnet
  and its subnet request, in that order and nothing else (`ReturnedSent`).
- What all runs return together lists what each run itself created and nothing older (`ResultsOwn`),
  and the error that is returned is the first (`FirstToBreak`, `FirstToFail`).
- All calls of `waitStable` that return nil leave one whole log per Job exactly when no two Jobs of
  the list have the same name, in whatever namespaces they are (`WholeExactlyWhenDistinct`): of two
  Jobs of the same name the second to finish leaves its own text, and the call returns nil all the
  same. Infrastructure errors of the query
  for `failed` are swallowed and cost one more round each (`CheckerEnds`, `WaitEnds`).
- The classifier accepts exactly the lists that are pairwise consistent per class (`ClassifyExact`),
  in whatever letter case the zone types are spelled (`AnyCase`, `UsualSpelling`).
  Its empty-string sentinel is sound only because the id parser never returns an empty subscription
  or group; `EmptySubscriptionSlipsThrough` shows what happens otherwise.
- Saving and loading is the identity exactly on records that repeat what their canonical ids say
  (`SaveLoadExact`), and always stable from the second time on (`LoadSaveStable`).
- Nothing in `WaitForExternalDns` fetches the deployment again, so it can only succeed at once, and
  its last error is unreachable (`WaitForExternalDns`).
- The record poller looks at the first page that has any records; a record that comes later is
  missed (`LateRecordMissed`). A record whose name is the zone with its final dot is found
  (`RecordFound`).
- The two ExternalDNS deployments carry the names that the two validators wait for
  (`ExampleArguments`).
- A test run whose cleanups succeed keeps both services clean before and after every test, whatever
  the tests return (`RunAll`). `suites.All` puts two empty suites first (`All`), which changes
  nothing (`FlattenBlanks`).

Where the code and its comments disagree, the model follows the code: the comment at
`cmd/test.go:23` promises the errors of failed tests, but `Ts.Run` discards them
(`tests/run.go:95-103`), and `cmd/test.go:57` ignores the error of the setup.

## Model

| member | source | states |
|---|---|---|
| Provisioning.ExecInv | infra/provision.go:23-181 | every interleaving with every answer keeps the invariant: tasks are those the code forks, each follows its closure, past phases are complete, shared variables hold what the calls returned, errors belong to broken tasks, the log of each task is its own story |
| Provisioning.StepInv | infra/provision.go:42-181 | one event (a call, an answer, a return of Wait) keeps that invariant |
| Provisioning.NoPanic | infra/provision.go:71-76 | in a state that meets the invariant no closure indexes an empty zone list or uses a missing cluster |
| ProvisioningSafety.NeverCrashes | infra/provision.go:69-181 | no run, under any interleaving, ever crashes |
| ProvisioningSafety.PhaseBarrier | infra/provision.go:42-164 | when an entry of a phase is logged, every task of every earlier phase has made all its calls and had them granted, although `resEg` is reused after Wait |
| ProvisioningSafety.RolesExact | infra/provision.go:101-164 | a successful run assigns exactly the private DNS role per private zone, the DNS role per public zone and the network role on vnet and subnet, for its own cluster's principal, and no other role, for any number of zones |
| ProvisioningSafety.ResourcesConnected | infra/provision.go:35-99 | the run created its group and the two zones that `ret` lists; the private zone is linked to the vnet that this run made, with the link granted, the cluster is in its subnet, ExternalDNS and nginx are deployed for the zones that `ret` names, and `ret` names both services |
| ProvisioningSafety.EndExact | infra/provision.go:65-67 | a run returns only after all its tasks; it returns nil exactly when every answer was a grant and both the vnet id and the subnet id are non-empty, and returns those ids; otherwise the error is that of a refused task or of an empty id, and `ret` comes with it only for the two deployments |
| ProvisioningSafety.StepWork | infra/provision.go:42-181 | every possible event uses up some of the work that is left |
| ProvisioningSafety.RunsEnd | infra/provision.go:42-181 | the number of effective events of any schedule is bounded before the run starts; until the run has ended any task that is still running can move next, with any answer, and Wait returns exactly when there is none |
| ProvisioningSafety.FirstToBreak | infra/provision.go:65-67 | a run that fails returns the error of the first task to break, whatever the others do after it |
| ProvisioningSafety.HaltsExactly | infra/provision.go:71-74 | the process ends exactly when NewVnet calls log.Fatal; any other failure is an error of its task |
| ProvisionRun.Run.constructor | infra/provision.go:28-45 | a fresh run is the initial state of the step system |
| ProvisionRun.Run.Issue | infra/provision.go:47-160 | a closure going on to its next call, giving up or panicking is a step of the step system, with the whole new state |
| ProvisionRun.Run.Store | infra/provision.go:52-88 | which shared variables an answer overwrites, refusals included |
| ProvisionRun.Run.Answer | infra/provision.go:47-160 | an answer to a closure is a step of the step system, with the whole new state |
| ProvisionRun.Run.AfterWait | infra/provision.go:65-67 | what the main goroutine does when Wait returns is the join of the step system |
| ProvisionRun.Run.Do | infra/provision.go:42-181 | one event keeps the state reachable and reduces the work left |
| ProvisionRun.Run.Provision | infra/provision.go:23-181 | under an arbitrary scheduler the run ends without a crash; unless the process was ended it succeeds exactly when all answers were grants and both ids are non-empty; success means the roles are exact and the resources connected, an error is a refusal or an empty id |
| Infras.ProvisionExact | infra/provision.go:184-216 | it returns after every run has ended; without error exactly when all succeeded, and then slot i is the result of run i; otherwise no results and the error of a run that failed |
| Infras.ResultsOwn | infra/provision.go:28-181 | each result lists exactly one public and one private zone, whose ids were the answers to this run's own two calls; the two deployments name these zones, the services are `nginx-svc-ipv4` and `nginx-svc-ipv6`, and the roles are assigned on these zones, the run's own vnet and subnet and nothing else |
| Infras.FirstToFail | infra/provision.go:193-213 | the error that is returned is that of the first goroutine to return one |
| Infras.NeverStuck | infra/provision.go:184-216 | until it returns or the process ends, some event can take place: in some run, at the end of some goroutine, or at the return of Wait; each run can take any step of its own whatever the others do |
| Infras.ProvisionEnds | infra/provision.go:184-216 | over any interleaving the number of events that take place is bounded by the work of the n runs, the end of each goroutine and the return of Wait |
| Infras.ExecInv | infra/provision.go:190-209 | the invariant of the slots and the error over all interleavings of all runs |
| Vnet.SafeExactlyWhenAgreed | clients/vnet.go:14-111 | for any number of concurrent calls, every create request carries its caller's own arguments in every interleaving exactly when all callers agree |
| Vnet.ReturnedSent | clients/vnet.go:26-55 | in every interleaving a call that returned its ids has sent exactly a vnet request and then a subnet request, and one that returned an error has sent nothing; with agreement both carry its own arguments |
| Vnet.AloneSucceeds | clients/vnet.go:26-111 | a call by itself whose answers are all successes sends these two requests with its own arguments and returns |
| Vnet.EndsExactly | clients/vnet.go:36-52 | the process ends exactly when making the factory, the vnet or the subnet fails; no client is used before it is made, in any interleaving |
| Vnet.Overwritten | clients/vnet.go:26-84 | if two callers differ, some interleaving sends a request with another caller's arguments |
| Vnet.BuiltInInfrasSafe | infra/infras.go:10-32 | infrastructures with one group and location, as the built-in list, are safe for any subscription: each that returns has sent its vnet and its subnet into that group, and the vnet for that location |
| Vnet.ExecInv | clients/vnet.go:26-55 | with agreement, every written variable holds everybody's value throughout every interleaving |
| Vnet.ReadsBack | clients/vnet.go:57-63 | what a caller's request is made of: the variables as they are when it reads them |
| StableWait.WaitStableExact | clients/aks.go:246-345 | it waits for every checker and returns nil exactly when each did; then every Job is complete and, with distinct names, each log file is the text of one fetch of this run; an error is that of a failed checker |
| StableWait.FirstToFail | clients/aks.go:340-342 | the error that is returned is that of the first checker to fail |
| StableWait.VerdictsSound | clients/aks.go:301-328 | at every point of every run, nil is said only of complete Jobs and `failed` only of failed ones |
| StableWait.JobVerdict | clients/aks.go:280-333 | a Job's checker ends exactly by a failed removal of the old log, or by quiet rounds, a decisive answer and one log fetch; verdict and log file follow from these |
| StableWait.VerdictsDecided | clients/aks.go:253-338 | under any interleaving each checker ends as its own answers decide: one command for workloads and pods, none for other kinds, the verdict above for Jobs |
| StableWait.WholeExactlyWhenDistinct | clients/aks.go:283-299 | all calls that return nil leave one whole log for each Job exactly when no two Jobs have the same name; the same for the checkers that have succeeded at any time before the return |
| StableWait.Clobber | clients/aks.go:283-299 | for any list with two Jobs of one name, a run that returns nil with the first Job's log lost |
| StableWait.FinishOne | clients/aks.go:265-335 | three commands that succeed end any checker well, and a Job's log file is then their output |
| StableWait.AsIfAlone | clients/aks.go:252-338 | a Job's checker and its file are what it makes of its own answers when nothing else runs |
| StableWait.CheckerEnds | clients/aks.go:301-328 | once its Job has ended a checker makes at most four more moves, and two more per swallowed error |
| StableWait.WaitEnds | clients/aks.go:246-345 | until the call returns some checker can move or Wait can return, and no checker waits for another; once every Job has ended at most four moves per object are left, the return, and two more moves per swallowed error |
| StableWait.ExecInv | clients/aks.go:252-345 | the invariant of verdicts, log files and the error over all interleavings |
| StableWait.LogFileInjective | clients/aks.go:283 | different Job names have different log files |
| StableWait.JobChecker.GetLogs | clients/aks.go:288-299 | a fetch appends its output whatever the exit code, what was written if writing fails, and nothing if no answer came or the file did not open; it succeeds exactly with exit code 0 |
| StableWait.JobChecker.Run | clients/aks.go:280-333 | the loop as written computes the checker of the step system |
| StableWait.JobChecker.LastLogs | clients/aks.go:313-332 | the one fetch at the end of each path and the verdict after it |
| Text.SplitJoin | pkgResources/config/config.go:115 | splitting undoes joining for parts without the separator |
| Text.JoinSplit | pkgResources/config/config.go:115 | joining undoes splitting for every string |
| Text.SplitFree | pkgResources/config/config.go:115 | parts do not contain the separator |
| Text.LowerExact | pkgResources/config/config.go:126 | a string's lower case is a word of small letters exactly when each character is the letter at its place or a capital form of it |
| Text.FoldExact | pkgResources/config/config.go:122 | strings are equal under folding exactly when they have the same letters but for their case |
| Text.TrimExact | suites/basic.go:184 | trimming takes the character off both ends, all of it and nothing else; the result is the only string so described |
| ResourceId.ParsePrint | infra/convert.go:14 | parsing a printed resource gives it back |
| ResourceId.ParseExact | infra/convert.go:14 | what parses and to what: nine segments in their order, with the three keywords in any letter case |
| ResourceId.PrintParse | infra/convert.go:26 | printing a parsed id gives it back exactly when its keywords are in the usual letter case |
| ZoneConfig.ClassifyExact | pkgResources/config/config.go:110-163 | a list is accepted exactly when every id is a public or private network zone, read letter by letter without regard to case, and the ids of a class agree pairwise; the result is the order-preserving partition |
| ZoneConfig.AnyCase | pkgResources/config/config.go:122-147 | an id with the provider and a zone type in any ASCII letter case is accepted into the class of that type; an ASCII type that differs from both beyond its case is refused as a wrong type |
| ZoneConfig.UsualSpelling | pkgResources/config/config.go:122-147 | ids of type `dnsZones` and `privateDnsZones` are accepted, whatever their subscription, group and zone |
| ZoneConfig.ZoneTested | pkgResources/config/config.go:122-136 | what the loop tests is what the letters say, and no id is of both types |
| ZoneConfig.AddErrors | pkgResources/config/config.go:117-163 | which error an id gets: not parsed, wrong provider, wrong type, mixed subscriptions or mixed groups, each exactly when it is the first test to fail |
| ZoneConfig.AddExact | pkgResources/config/config.go:116-148 | one turn of the loop accepts exactly what keeps the list acceptable |
| ZoneConfig.ErrorPrefix | pkgResources/config/config.go:115-150 | an error names the first id that makes the list unacceptable and leaves the configuration of the ids before it |
| ZoneConfig.PermutationInvariant | pkgResources/config/config.go:115-163 | permuting the ids changes neither acceptance nor, up to order, the configuration |
| ZoneConfig.RoundTrip | pkgResources/config/config.go:110-151 | joining the accepted private and public ids and parsing again gives the same configuration |
| ZoneConfig.EmptySubscriptionSlipsThrough | pkgResources/config/config.go:153-163 | an empty subscription defeats the sentinel: two inconsistent ids are accepted in one order and refused in the other |
| ZoneConfig.ParseProper | pkgResources/config/config.go:117 | the parser for canonical ids never returns an empty subscription or group |
| ZoneConfig.Config.ParseAndValidateZoneIDs | pkgResources/config/config.go:110-151 | whatever the configuration was, it becomes the classification of the list; accepted exactly when acceptable |
| ZoneConfig.Config.AddZone | pkgResources/config/config.go:116-148 | the body of the loop, branch by branch, on the fields of the configuration |
| ZoneConfig.Config.Validate | pkgResources/config/config.go:67-108 | it succeeds exactly when the flags are set and the list, if any, is accepted; otherwise the error is that of the first flag, in the code's order, that is not set, each flag named, or that of the list; an interval that is not positive becomes three minutes; what it changes and what it leaves |
| ZoneConfig.FaultFound | pkgResources/config/config.go:68-95 | there is no fault exactly when every flag is set; a fault is that of the first flag that is not |
| Convert.SaveZones | infra/convert.go:24-34 | for any id parser, every zone saved in order, or the first one whose id does not parse |
| Convert.SavePrivateZones | infra/convert.go:36-43 | for any id parser, every private zone saved in order, or the first one whose id does not parse |
| Convert.Loadable | infra/convert.go:13-62 | for any id parsers, saving succeeds exactly when every id parses; otherwise the error is the first in the order cluster, group, zones, private zones |
| Convert.ToLoadable | infra/convert.go:65-75 | for any id parsers, the list is saved element by element or the error names the first element that does not parse |
| Convert.ToProvisioned | infra/convert.go:78-88 | loading keeps length and order and never fails |
| Convert.FromLoadable | infra/convert.go:91-113 | what one saved value loads to |
| Convert.SaveLoadExact | infra/convert.go:13-113 | saving and loading gives everything back exactly when every record repeats what its canonical id says |
| Convert.SaveLoadKeeps | infra/convert.go:45-112 | for any id parsers, everything not derived from an id comes back whatever the spelling of the ids |
| Convert.SavedExact | infra/convert.go:45-60 | what is saved stands under its own name, each zone in its place, for any id parsers |
| Convert.LoadSaveStable | infra/convert.go:13-113 | a loaded value saves without error to what it was loaded from |
| Convert.GroupRoundTrip | clients/resourcegroup.go:37-42 | the same round trip for the id of a resource group |
| Convert.ParseGroupExact | infra/convert.go:19 | what parses as the id of a group, and to what |
| Manifests.BuildFilters | pkgResources/pkgManifests/external_dns.go:225-233 | the loop builds one filter per zone id that parses, in order |
| Manifests.FiltersExact | pkgResources/pkgManifests/external_dns.go:225-233 | the filters are those of the ids that parse, one for each, in the order of the list |
| Manifests.ObjectsExact | pkgResources/pkgManifests/external_dns.go:60-69 | the five objects of a configuration: kinds, namespaces, the name for its provider (`external-dns` or `external-dns-private`), the binding, the mounted settings and the arguments, each in its place |
| Manifests.AddLabels | pkgResources/pkgManifests/external_dns.go:118-121 | each object gets the provider's labels on top of its own, in place |
| Manifests.SetOwners | pkgResources/pkgManifests/external_dns.go:98-101 | each object gets the owners and keeps the rest, in place |
| Manifests.ExternalDnsResourcesFromConfig | pkgResources/pkgManifests/external_dns.go:106-124 | five fresh objects as specified for one configuration |
| Manifests.BuildObjects | pkgResources/pkgManifests/external_dns.go:107-116 | the five fresh objects that the builders return, before labels and owners |
| Manifests.Append | pkgResources/pkgManifests/external_dns.go:94-96 | one turn of the loop appends the fresh objects of one configuration and leaves the others alone |
| Manifests.CollectObjects | pkgResources/pkgManifests/external_dns.go:86-96 | the namespace, if it may be missing, and the objects of each configuration |
| Manifests.ExternalDnsResources | pkgResources/pkgManifests/external_dns.go:86-104 | the specified list, built in fresh distinct objects |
| Manifests.OwnersLast | pkgResources/pkgManifests/external_dns.go:98-101 | setting owners at the end equals building with owners |
| Manifests.FromConfigsAt | pkgResources/pkgManifests/external_dns.go:94-96 | which object stands at which index, for any number of configurations |
| Manifests.KeysDistinct | pkgResources/pkgManifests/external_dns.go:126-247 | no two objects share kind, namespace and name exactly when no two configurations share a resource name |
| Manifests.ResourcesClosed | pkgResources/pkgManifests/external_dns.go:86-299 | five objects per configuration and a namespace exactly when it is not kube-system; every reference resolves inside the list, pods carry what they select and the checksum of the config they mount, every object carries exactly the managed-by label and, unless it is the namespace, the name label with its own name; its owner is the given deployment or there is none |
| ExternalDnsConfig.PathPrinted | pkgResources/pkgManifests/external_dns_config.go:26-48 | the printed path is the resource id of the zone |
| ExternalDnsConfig.OneFilter | pkgResources/pkgManifests/external_dns_config.go:20-59 | each path comes back from the deployment builder as one filter with the zone's own name |
| ExternalDnsConfig.OwnClass | pkgResources/pkgManifests/external_dns_config.go:20-59 | each path is the id of a zone of its own kind, and the two together are accepted with each in its own class |
| ExternalDnsConfig.PathsAccepted | pkgResources/config/config.go:110-151 | any comma list of such paths for one subscription and group is accepted, each path in its own class and order |
| ExternalDnsConfig.ExampleDeployed | infra/provision.go:242-265 | what is deployed: ten objects with distinct identities, all references resolved, no namespace, no owners; the first five are named `external-dns` and the others `external-dns-private` |
| ExternalDnsConfig.ExampleArguments | pkgResources/pkgManifests/external_dns_config.go:62-76 | each deployment watches its own provider and exactly its own zone, and mounts a configuration for the run's tenant, subscription, group and identity; the one for the public zone is the deployment in kube-system that the public validator waits for, the other that of the private one |
| Polling.WaitForExternalDns | tests/testingResources.go:103-151 | nil exactly when the one fetched deployment has an available replica; otherwise it gives up at the first reading of the clock after the deadline, after at most N/2 + 1 sleeps on any clock; which error when nothing or no JSON came; the last error is unreachable |
| Polling.TimePassed | tests/testingResources.go:130-141 | k sleeps of two seconds take at least 2k seconds on any clock |
| Polling.Examine | suites/basic.go:182-200 | the first record that matches or has no address decides: found, panicked, or not created if there is none; the type is looked at first; a record matches when its name without the dots at its ends is the zone and its first address is the service's |
| Polling.JudgedOnce | suites/basic.go:182-200 | a page with records has exactly one of these verdicts |
| Polling.AwaitRecord | suites/basic.go:135-202 | at most N/2 + 1 polls on any clock; not ready, no credentials, timed out without a page in time, or ended by the first page that is not empty, with that page's verdict |
| Polling.EndsOnce | suites/basic.go:135-202 | each case has exactly one outcome; success exactly when ExternalDNS is ready, there are credentials, and the first page with records comes in time and holds the record |
| Polling.OutcomesExact | suites/basic.go:139-180 | when the poller ends without success: not ready, no credentials, ended by a broken page, timed out, each in terms of the deadline and the pages |
| Polling.RecordFound | suites/basic.go:182-198 | both validators find a record whose name is the zone with its final dot and whose first address is the service's, on the first page with records, if that comes in time and the records before it have addresses |
| Polling.FoundIsThere | suites/basic.go:182-198 | what is found is a record for the zone, with dots at its ends at most, whose first address of the type looked for is the service's, on a page asked for no later than the deadline and after pages without records only |
| Polling.ValidateRecord | suites/basic.go:135-202 | the public validator is that poller for the public deployment |
| Polling.ValidatePrivateRecords | suites/privatedns_tests.go:113-178 | the private validator is that poller for the private deployment |
| Polling.LateRecordMissed | suites/basic.go:173-180 | a record that comes after a page with other records is never found |
| Annotations.AnnotateThenClear | tests/testingResources.go:41-100 | annotating with entries that leave last-applied alone, however far it gets, does not change what clearing leaves |
| Annotations.ClearAfterAttempt | tests/testingResources.go:63-100 | nor does an earlier clearing that broke off |
| Annotations.OnlyLastApplied | tests/testingResources.go:92-98 | the final count is one exactly when there was a last-applied entry |
| Annotations.Cluster.Command | tests/testingResources.go:173-228 | one command: an effect if it reports success, possibly one if it reports failure, on one service only |
| Annotations.Cluster.AnnotateService | tests/testingResources.go:41-59 | for every order of the keys: all entries set, or a stop at the first failure with some of them set |
| Annotations.Cluster.RemoveMarks | tests/testingResources.go:74-85 | for every order of the keys: all but last-applied removed, or a stop at the first failure |
| Annotations.Cluster.ClearAnnotations | tests/testingResources.go:63-100 | nil exactly when no command failed and there was a last-applied entry, which alone is left, with its value, under the key that kubectl uses |
| TestRun.Assemble | suites/all.go:14-29 | the result is as many empty suites as there are suites, followed by them |
| TestRun.All | suites/all.go:12-30 | two empty suites, then the public and the private one: the four tests, each once, in order |
| TestRun.FlattenBlanks | suites/all.go:19 | the empty suites add nothing to the run |
| TestRun.Runner.SetObjectsForTesting | tests/run.go:35-73 | what every global holds on success and after a failure; services have the names asked for; the zones are the last of each list |
| TestRun.Runner.ValidateAndDelete | suites/basic.go:69-84 | a pass means the record came for the right zone, type, deadline and address; a missing service or address panics |
| TestRun.Runner.AnnotateFor | suites/basic.go:54-113 | which services a test annotates, with what |
| TestRun.Runner.MarkingExact | suites/basic.go:60-107 | each test's services and annotations by name: hostname for the zone of its kind, and for the private tests the two internal ones |
| TestRun.Runner.CheckedExact | suites/basic.go:69-110 | each test's deployment, record type, zone, deadline and address |
| TestRun.Runner.RunTest | suites/basic.go:54-132 | a test that passes has annotated its services for its zone and seen the record; whatever it returns, last-applied entries stay |
| TestRun.Runner.Clear | suites/basic.go:26-31 | a cleanup whose error is ignored; a successful one leaves the service clean |
| TestRun.Runner.RunFn | suites/basic.go:19-52 | on both exits the cleared services cover the annotated ones, so clean services are clean again |
| TestRun.Runner.RunSuite | tests/run.go:75-104 | every test runs, whatever the others return; the suite returns nil; services are clean before and after every test if the cleanups succeed |
| TestRun.Runner.RunAll | cmd/test.go:56-67 | the whole command: clean services before and after each of the four tests if the cleanups succeed, no error for any outcome of the tests, and a failed setup never gets to the end |

## Left out

- `azure.ParseResourceID` and `arm.ParseResourceID` are library functions: saving and loading of lists are proved for any parsers, and the classifier for every parser that never returns an empty subscription or group; round trips and printed paths use a parser for ids of nine segments (five for groups) with keywords in any letter case. Round trips of ids with more segments are not modelled.
- ToProvisioned and Provisioned have an error result in the code that no path returns; it is not modelled.
- Concurrent runs meet only in the variables of `NewVnet`, which module Vnet covers; Provisioning lets `NewVnet` return any pair of ids, so its results hold whatever the other runs do.
- A call and its answer are two steps, and an error group keeps the first error that is recorded; storing the answer and recording the error belong to the step of the answer.
- ProvisioningSafety.RolesExact: the zone lists may start with zones already in them, so that the loops are covered for any number of zones; the code starts with none.
- Vnet.SafeExactlyWhenAgreed: reads and writes of shared variables are interleaved one at a time; weaker memory orders of the Go memory model are not modelled.
- StableWait.JobChecker.Run: the loop need not end in the code; the method takes its answers as a list and stops where they run out. CheckerEnds says when the loop does end.
- A Job that has ended stays ended, and `kubectl wait` answers truthfully when it gets through; nothing is claimed otherwise.
- Deploy: zipping the manifests, writing `manifests.zip` and `kubectl apply` are one call that is granted or refused.
- Errors of constructing SDK clients that call `log.Fatal` end the process; in the record pollers they are not told apart from missing credentials.
- TestRun.Runner.SetObjectsForTesting: the service that comes back has the name asked for, and the cluster has a name; the API itself is not modelled.
- The annotations are changed by nobody else during a run. Record deletion and what ExternalDNS does with records are not modelled, and nothing is claimed about final DNS contents.
- Container specs other than names, labels, references, arguments and the mounted configuration; SHA-256 is any function with results of 64 characters.
- Unicode letter case is exact only where the other side is an ASCII constant, which is all that the code compares with.
- `FilterNames`, command-line flags, logging, GitHub output, JSON files, credentials and the programs under `manifests/embedded` would add only easy members.
