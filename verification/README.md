# A model of the authentik operator

The operator drives a remote authentik server to the state that a Kubernetes resource declares: an Application, its
Provider, the Outpost of a Proxy Provider, and one PolicyBinding per access rule. It does so by several API calls, none
of which is atomic with the next, and it may crash between any two of them. An Application without Bindings is public,
so that the order of the calls is a matter of access control.

This project models the reconcile protocol and the server, and proves what the protocol keeps at every moment, over
whole runs, and over runs that fail and are tried again.

## How it is modelled

- `Server` is the authentik server as a class: its stored maps are fields, its validation and cascades are the bodies of
  its methods, and its constraints are `Valid`. A ghost history holds every write request with the Bindings and Outposts
  right after it, so that "at every moment of a run" is a statement about the history.
- Every call may fail before it takes effect, and so may every write of the status. A crash is such a failure after
  which only the written status is known: `Resources.Resource` keeps the status in memory apart from the written one.
- `Ownership` holds the markers, the role that carries them, the replica that may create the role first, and the cache
  of the marker list. Other replicas that add markers are covered by `Sound`; `Exact` says that nobody else changes
  markers, which the results about whole reconciles assume. `Collector` runs the collector with reconciles of any
  replica before its steps, and with objects created and deleted even between the two requests of a step; `Sweeps` runs
  a reconcile with steps of the collector before each of its parts.
- The Binding engine is spread over `Matching` (the two greedy passes), `BindingPlan` (what a plan promises),
  `BindingHistory` (safety of a history), `BindingWrites` (the write loop), `BindingSteps` (reading, adopting,
  deleting), `Bindings` (the whole pass), and `BindingRuns` (passes that crash and are tried again). How many Bindings
  such passes create is in `BindingTally` (counting, for one class of equal rules), `BindingAttempts` (the stored
  Bindings follow the counting), and `BindingWaste` (the condition is exact in every state of the server).
- `Patch` holds the Diff functions and the server's side of a PATCH, `Desired` the requests made from a spec. `Specified`
  says field by field what a spec asks of a stored object, without any of them: what the spec gives, and what was there
  before where it gives nothing.
- `Providers`, `Outposts`, `Adoption`, `Applications`, and `Reconciler` follow the files of the controller, with the
  steps of one reconcile in `Reconciler` and several reconciles in a row in `ReconcileRuns`. `Frames` says what the
  steps of one resource leave alone, `Neighbours` what that means for another resource, also when one is deleted, and
  `Turns` what it means for resources that are reconciled in turns. `Release` is the deletion, `Conflict` the arbitration
  between resources with the same slug, `Resolver` the references, and `Operator` puts conflict check, resolution, and
  reconcile together.

Identifiers are natural numbers, and 0 stands for the empty string. The enumerations of the spec are those of the API.

What the CRD guarantees is taken as given (`api/v1alpha1/authentikapplication_types.go`): a Provider cannot be removed
once it is set (line 26), the slug is immutable (line 32), a Provider is of exactly one type (line 113), which cannot
change (line 114), a Proxy Provider has exactly one mode (line 150), `clientID` excludes `clientIDKey` (line 431), rules
and `public` exclude each other (lines 464 and 465), a rule has exactly one subject (line 500), and a reference has
exactly one key (lines 521 to 563).

## Main results

The rest of the table below leads up to these.

1. Access control, at every moment. `Bindings.ReconcileBindings`, `BindingRuns.ReconcileUntilDone`: between any two
   requests, on every exit, and over passes that crash and are tried again, no rule that had a Binding loses it, from the
   first deletion on every rule has one, no step empties the target, and no step disables a Binding. Without prune, no
   Binding that the operator does not manage goes away.
2. Matching. `Matching.ExactMatchesOptimal`, `Matching.MatchesOptimal`, `Matching.NoAssignmentIsBetter`: the greedy
   passes match as many rules as any assignment could.
3. Creations under crashes. `BindingTally.RecoverableExactly`, `BindingWaste.RecoverableStates`,
   `BindingRuns.ReconcileUntilDone`: exactly when interrupted passes create no more Bindings than one uninterrupted pass.
4. Convergence. `Patch.OAuth2Converges`, `Patch.ProxyConverges`, `Patch.BindingConverges`, and their `DiffExact` and
   `DiffLeast` partners: a Diff is empty exactly in the desired state, is applied to it, and sends no field in vain.
   `Desired.ProxyRepairAccepted`: exactly which repairs of a Proxy Provider the server accepts. `Specified.ProxyAsked`,
   `Specified.OAuth2Asked`, `Specified.ApplicationAsked`, `Specified.BindingAsked`: the desired state is the one that the
   spec gives, field by field, with every field that it omits left alone; `Reconciler.Reconcile` and
   `ReconcileRuns.ReconcileUntilDone` reach it, and leave nothing else on any exit.
5. The fixed point. `ReconcileRuns.ReconcileNext`, `ReconcileRuns.ExportKeepsDone`, `Operator.ReconcileNext`: in the
   state that a successful reconcile leaves, the next one sends nothing that writes, also after credentials were exported.
6. One Provider. `Providers.ReconcileProvider`, `ReconcileRuns.ReconcileUntilDone`: over any number of attempts, crashes
   included, one Provider is created and every later attempt takes it.
7. Adoption. `Reconciler.ReconcileObjects`: a reconcile that adopts sends nothing but a missing link.
   `Reconciler.Reconcile`: short of a failed call, an unclaimed Application is taken if and only if `spec.adopt` lets
   it, and the run stops for the reason otherwise. `ReconcileRuns.ResumeAfterLostRecord`: exactly when it goes on after
   the record of a new Application was lost. `ReconcileRuns.ReconcileUntilDone`: once recorded, it is never turned away.
8. Outposts. `Outposts.MoveUntilDone`, `ReconcileRuns.ReconcileUntilDone`: a move that crashes anywhere keeps the
   Provider in some Outpost, ends in the new one, and has left the one recorded at the start.
9. Deletion. `Release.ReleaseUntilDone`: attempts that crash anywhere end where an uninterrupted deletion ends, and the
   markers of exactly the recorded objects are gone. `Release.EndLeavesNothing`, `Release.EndOfApplication`,
   `Release.EndKeepsOthers`: what that end is, object by object. `Neighbours.InPlaceIsReleased`: nothing that a reconcile
   put in place is left.
10. Markers. `Collector.Collect`: whatever others attach and detach meanwhile, the collection takes exactly the markers
    it counts, all of objects that are gone for good, brings none back that was detached, and when it goes through no
    object that was missing at the start is marked. `Sweeps.ReconcileAmid`: a reconcile does not notice its steps.
11. Conflicts. `Conflict.WinnerIsOldest`: exactly who wins a slug. `Conflict.Cluster.Run`, `Operator.Reconcile`: at most
    one live resource per slug holds a record at any time, and the others request nothing from authentik.
12. The whole, from the spec. `Resolver.Resolve`: all or nothing, with exactly the failing references listed in order.
    `Operator.Reconcile`: on every exit the rules that the directory gives for the spec were served safely; on success
    every rule has its recorded Binding, every object has what the spec gives, and every key in it is the one that the
    reference in that place identifies.
13. Neighbours. `Reconciler.Reconcile`, `Neighbours.ReconcileBeside`: a reconcile changes no object of another resource,
    so that what one resource has in place survives every retry and crash of another one, exactly unless the two have
    recorded the same Provider. `Neighbours.ReleaseBeside`: it survives a deletion exactly unless both recorded the same
    object.
14. Turns. `Turns.ReconcileInTurns`: resources reconciled in any order, with failures and crashes anywhere, are all in
    place together once the last turn of each went through.

## Results that differ from what one might expect

- A Proxy Provider in mode proxy can be created but, once it drifts, mostly not repaired: the server checks the PATCH
  body alone, which then lacks the internal host. `Desired.ProxyRepairAccepted` says exactly which repairs the server
  accepts, and `ReconcileRuns.ReconcileUntilDone` that one refused for the mode keeps every reconcile from succeeding.
- Interrupted passes can create more Bindings than one uninterrupted pass when rules are equal. For n equal rules, of
  which managed Bindings serve c, and s unmanaged Bindings of their subject and negate, this is excluded exactly when
  n <= 1, c >= n, s >= 2n-1-c, or c == n-1 and s >= n-1: `BindingTally.RecoverableExactly` over runs, and
  `BindingWaste.RecoverableStates` for every state of the server. Distinct rules are always recoverable
  (`BindingAttempts.DistinctRulesRecover`); `BindingWaste.EqualRulesCreateThree` has two equal rules that get three.
- One pass, too, can leave a spare Binding unadopted and create another one for equal rules, because unmanaged Bindings
  are offered to rules that already have a managed one: `BindingPlan.AdoptionLeaves` counts what one adoption leaves.
- A crash right after the creation of the Application leaves it unrecorded and unmarked, so that `spec.adopt` decides
  about it: `ReconcileRuns.ResumeAfterLostRecord`. Under Never the operator does not take up what it created itself.
- A credentials Secret with one key for both values breaks the fixed point, because the client secret then overwrites
  the client ID: `ReconcileRuns.ExportKeepsDone` has the condition, `ReconcileRuns.OneKeyUndoes` the family that fails.
- Two resources that have recorded the same Provider can never both be in place, however often they are reconciled:
  `Neighbours.NotBothInPlace`, `Neighbours.ReconcileBeside`. While one of them is linked to it, the other one's reconcile
  never goes through: `Turns.SharingFails`.
- After an export, a Provider without a client secret leaves a Secret that the next reconcile cannot read:
  `Operator.NextResolves`, `Operator.ReconcileNext`.
- An Application that was moved to another slug survives the deletion of its resource: `Release.EndLeavesNothing`.
- The server accepts an outside PATCH that leaves a Binding with two subjects; `Patch.PartialUpdateKeepsOneSubject` says
  exactly which do not. The results about Bindings therefore start from Bindings with one subject each, which the
  operator's own writes preserve.

## Model

| member | source | states |
|---|---|---|
| Patch.SameSet | internal/authentik/patch.go:228-241 | two lists are the same set exactly when every element of the second is in the first and both have equally many distinct elements |
| Patch.KeysOf | internal/authentik/patch.go:244-255 | the identity of a redirect URI is its URL, matching mode, and type, where a missing type is authorization |
| Patch.ComputeDiffRedirects | internal/authentik/patch.go:258-274 | redirect URIs are sent exactly when the two lists differ as sets of identities |
| Patch.ApplicationDiffExact | internal/authentik/patch.go:37-58 | no PATCH is sent exactly when every managed field of the Application has its value |
| Patch.ApplicationConverges | internal/authentik/patch.go:37-58 | an accepted PATCH reaches every managed value, leaves every unmanaged field alone, and leaves nothing to send |
| Patch.ApplicationDiffLeast | internal/authentik/patch.go:37-58 | no body that reaches the desired Application can leave out a field that the Diff sends |
| Patch.ProxyDiffExact | internal/authentik/patch.go:63-95 | no PATCH is sent exactly when every managed field of the Proxy Provider has its value |
| Patch.ProxyConverges | internal/authentik/patch.go:63-95 | an accepted PATCH of a Proxy Provider converges and keeps the unmanaged fields and the property mappings |
| Patch.ProxyDiffLeast | internal/authentik/patch.go:63-95 | besides the mode, no body that reaches the desired Proxy Provider can leave out a field that the Diff sends |
| Patch.ProxyPatchAccepted | internal/authentik/fake/fake.go:404-409 | for every drift: the mode check accepts the repair if and only if the mode is a forward one, or the internal host itself drifts to a non-empty one |
| Desired.ProxyRepairAccepted | internal/authentik/patch.go:63-95 | for every desired Proxy Provider and every drift of it: the server accepts the repair if and only if, in mode proxy, the internal host is not empty and is itself what drifted, and no other Provider has the name when that drifted |
| Patch.OAuth2DiffExact | internal/authentik/patch.go:99-134 | no PATCH is sent exactly when every managed field of the OAuth2 Provider has its value, lists as sets |
| Patch.OAuth2Converges | internal/authentik/patch.go:99-134 | an accepted PATCH of an OAuth2 Provider converges and keeps the unmanaged fields |
| Patch.OAuth2DiffLeast | internal/authentik/patch.go:99-134 | no body that reaches the desired OAuth2 Provider can leave out a field that the Diff sends |
| Patch.BindingDiffExact | internal/authentik/patch.go:139-176 | no PATCH is sent exactly when every managed field of the Binding has its value |
| Patch.BindingConverges | internal/authentik/patch.go:139-176 | the body always carries a target and exactly one subject, and the accepted PATCH converges; the subject fields change together or not at all |
| Patch.BindingDiffLeast | internal/authentik/patch.go:139-176 | besides target and subject, no body that reaches the desired Binding can leave out a field that the Diff sends |
| Patch.PartialUpdateKeepsOneSubject | internal/authentik/fake/fake.go:848-902 | an outside PATCH that the server accepts keeps one subject in the stored Binding if and only if its body names the field of the stored subject |
| Matching.FindUnused | internal/controller/bindings.go:262-271 | an unused Binding that fits the rule, and none only when every fitting one is used |
| Matching.Assign | internal/controller/bindings.go:254-272 | one greedy pass keeps earlier matches, serves rules of a class in order, and leaves a rule unmatched only when no fitting Binding is unused |
| Matching.MatchBindings | internal/controller/bindings.go:251-276 | the two passes give a best assignment: injective, by subject, and with no fitting Binding left unused by an unmatched rule |
| Matching.ExactMatchesOptimal | internal/controller/bindings.go:248-276 | per subject and negate, exactly min(#rules, #Bindings) rules get a Binding of their own class |
| Matching.MatchesOptimal | internal/controller/bindings.go:248-276 | per subject, exactly min(#rules, #Bindings) rules get a Binding |
| Matching.NoAssignmentIsBetter | internal/controller/bindings.go:248-276 | no assignment by subject makes more exact matches for a class, or more matches for a subject |
| Matching.InexactMatchIsSpare | internal/controller/bindings.go:248-276 | a Binding given to a rule of another negate is not needed: every rule of its own class holds another one exactly |
| Server.Authentik.constructor | internal/authentik/fake/fake.go:75-96 | an empty server meets its constraints |
| Server.Authentik.CreateApplication | internal/authentik/fake/fake.go:249-280 | refused for a taken slug or a Provider that is missing or attached; otherwise stored under a new pk |
| Server.Authentik.PatchApplication | internal/authentik/fake/fake.go:282-336 | applies exactly the present fields under the same constraints |
| Server.Authentik.DeleteApplication | internal/authentik/fake/fake.go:339-354 | removes the Application and every Binding on it, and no marker |
| Server.Authentik.AssignedApplicationSlug | internal/authentik/fake/fake.go:381-388 | the slug of the Application that uses the Provider, if any |
| Server.Authentik.FindProxyProvidersByName | internal/authentik/fake/fake.go:427-437 | every Proxy Provider with the name |
| Server.Authentik.FindOAuth2ProvidersByName | internal/authentik/fake/fake.go:606-616 | every OAuth2 Provider with the name |
| Server.Authentik.CreateProxyProvider | internal/authentik/fake/fake.go:439-478 | refused by the mode check or for a taken name, which the history tells apart; otherwise stored with the defaults of the server |
| Server.Authentik.PatchProxyProvider | internal/authentik/fake/fake.go:480-548 | refused by the mode check on the body alone or for a taken name; otherwise applies the present fields |
| Server.Authentik.CreateOAuth2Provider | internal/authentik/fake/fake.go:618-659 | refused for a taken name or client ID; otherwise stored, with random credentials where the body has none; no two Providers share a client ID |
| Server.Authentik.PatchOAuth2Provider | internal/authentik/fake/fake.go:661-741 | refused for a taken name or client ID; otherwise applies the present fields |
| Server.Authentik.DeleteProvider | internal/authentik/fake/fake.go:391-400 | removes the Provider and detaches it from Applications and Outposts |
| Server.Authentik.ListPolicyBindings | internal/authentik/fake/fake.go:807-818 | every Binding of the target once, by ascending order |
| Server.Authentik.CreatePolicyBinding | internal/authentik/fake/fake.go:820-846 | refused unless the body has exactly one subject and a free order; otherwise stored |
| Server.Authentik.PatchPolicyBinding | internal/authentik/fake/fake.go:848-902 | the body is checked alone, but omitted fields keep their stored value; a body without a target is a server error |
| Server.Authentik.DeletePolicyBinding | internal/authentik/fake/fake.go:904-912 | removes one Binding |
| Server.Authentik.SetOutpostProviders | internal/authentik/fake/fake.go:944-960 | replaces the whole list, refused for a Provider that does not exist |
| Server.Authentik.FindRolesByName | internal/authentik/fake/fake.go:974-984 | every role with the name, each once |
| Server.Authentik.CreateRole | internal/authentik/fake/fake.go:986-997 | refused for a taken name |
| Server.Authentik.AssignObjectPermission | internal/authentik/fake/fake.go:1035-1055 | refused for an object that does not exist, which is how a deleted object is detected; a new permission takes the next pk, a repeated one changes nothing |
| Server.Authentik.UnassignObjectPermission | internal/authentik/fake/fake.go:1057-1067 | removes the permission of one role on one object |
| Server.Authentik.ListRoleObjectPermissions | internal/authentik/fake/fake.go:1075-1090 | the objects of one role |
| Server.Authentik.ListObjectPermissionRoles | internal/authentik/fake/fake.go:1094-1116 | exactly the roles with a permission on the object, each with permissions that are not narrowed to it |
| Server.DetachValid | internal/authentik/fake/fake.go:391-400 | after the cascade of a Provider deletion the links of the Applications are one to one to existing Providers again |
| Server.ReplaceValid | internal/authentik/fake/fake.go:282-336 | an Application keeps the constraints under a new slug and an attachable Provider |
| Ownership.OneRolePerName | internal/ownership/marker.go:130-143 | with unique role names the lookup by name is never ambiguous |
| Ownership.Marker.FindRole | internal/ownership/marker.go:130-143 | the role with the name, or none when there is none |
| Ownership.Marker.OtherReplica | internal/ownership/marker.go:117-127 | another replica creates the role at the worst moment, and no marker changes |
| Ownership.Marker.FindOrCreateRole | internal/ownership/marker.go:110-128 | yields the role with the name also when another replica creates it first; creates none when there is one; changes no marker |
| Ownership.Marker.EnsureRole | internal/ownership/marker.go:99-108 | remembers the current role and returns the one remembered before |
| Ownership.Marker.Role | internal/ownership/marker.go:146-155 | the remembered role, found or created the first time |
| Ownership.Marker.Mark | internal/ownership/marker.go:158-167 | adds exactly one marker, and refuses exactly objects that do not exist |
| Ownership.Marker.MarkIfExists | internal/ownership/marker.go:172-186 | tells whether the object exists, and adds its marker only then |
| Ownership.Marker.OtherReplicaMarks | internal/ownership/marker.go:158-167 | another replica adds at most one marker |
| Ownership.Marker.Unmark | internal/ownership/marker.go:189-198 | removes exactly one marker |
| Ownership.Marker.IsManaged | internal/ownership/marker.go:203-223 | true exactly when the role of the operator has a permission on this very object |
| Ownership.Marker.ListManaged | internal/ownership/marker.go:252-266 | exactly the marker set |
| Ownership.MarkerCache.Reread | internal/controller/markers.go:53-74 | the new list is the marker set; the callback runs exactly when the remembered role was another one, also when the list cannot be read |
| Ownership.MarkerCache.RefreshRole | internal/controller/markers.go:53-66 | the role is looked up again before the list is read, and the callback runs exactly when it is another one than the remembered one |
| Ownership.MarkerCache.RefreshLocked | internal/controller/markers.go:49-75 | a refreshed list equals the marker set, and the list is kept exactly while it is younger than the interval |
| Ownership.MarkerCache.Contains | internal/controller/markers.go:78-86 | never answers from an old list, and exactly when nobody else changes markers |
| Ownership.MarkerCache.IsManaged | internal/controller/markers.go:90-105 | exact even while other replicas add markers |
| Ownership.MarkerCache.Ensure | internal/controller/markers.go:108-122 | adds the marker to the server and to the list; sends nothing when it is there |
| Ownership.MarkerCache.Remove | internal/controller/markers.go:125-133 | removes the marker from the server and from the list, which stays exact |
| Ownership.Traffic.ChangeObjects | internal/authentik/fake/fake.go:249-960 | a create, delete, or PATCH request by anyone brings no object back whose pk was issued before |
| Ownership.Traffic.PatchObjects | internal/authentik/fake/fake.go:282-336 | nor does a PATCH of an Application, a Provider, a Binding, or an Outpost alone |
| Ownership.Traffic.DeleteObjects | internal/authentik/fake/fake.go:339-400 | nor does a deletion with what the server deletes along |
| Ownership.Traffic.Act | internal/authentik/fake/fake.go:249-960 | nor does any number of them |
| Ownership.MarkerCache.RemoveIfOrphaned | internal/controller/markers.go:163-178 | with objects created, changed, and deleted between its two requests: removes at most the marker of an object that is gone for good by then, adds none, skips an object that was detached meanwhile, and leaves a listed marker only of an object that exists |
| Ownership.MarkerCache.Drop | internal/controller/markers.go:173-177 | after the probe failed: the marker goes from the server and from the list, and the object does not come back meanwhile |
| Collector.Interference.Act | internal/controller/markers.go:147-153 | reconciles of any replica and the traffic keep the list sound, attach and detach only what they may, and mark no object that is gone |
| Collector.CollectStep | internal/controller/markers.go:151-160 | with anything running before and within it: what disappeared was detached by the others or is the marker that the step took, whose object is gone; what appeared was attached by the others, and nothing that they detached is back; a listed marker of a missing object is taken |
| Collector.CollectListed | internal/controller/markers.go:150-161 | the loop: all markers that it took are of objects gone for good, and of those missing at the start only the ones it has not reached are marked |
| Collector.CollectNext | internal/controller/markers.go:151-160 | one more object of the list, after any number of them |
| Collector.TurnsChain | internal/controller/markers.go:150-161 | what happens to the marker set in consecutive steps adds up |
| Collector.Collect | internal/controller/markers.go:137-161 | whatever the others may attach and detach meanwhile: the result counts the markers that the collection took, all of objects that are gone for good; every other marker that disappeared was detached by the others, none that they detached is back, and every new one is theirs; when it goes through, no object missing at the start is marked; alone, it leaves exactly the markers of existing objects |
| Collector.Sweep | internal/controller/markers.go:163-178 | any steps of the collector while nobody else acts take only markers of missing objects |
| Desired.CreatedApplicationSettled | internal/controller/desired.go:102-135 | a created Application needs no repair, with or without its link |
| Desired.CreatedProxyProviderSettled | internal/controller/desired.go:147-205 | a created Proxy Provider needs no repair, and is accepted exactly when a reverse proxy has an internal host |
| Desired.CreatedOAuth2ProviderSettled | internal/controller/desired.go:209-295 | a created OAuth2 Provider needs no repair, also with creation defaults and random credentials |
| Desired.ExportedCredentials | internal/controller/credentials.go:74-81 | what is read back from an exported Secret: the credentials of the Provider with two keys, and the client secret in both places with one |
| Desired.CreatedBindingSettled | internal/controller/desired.go:329-355 | a created Binding has one subject, the class of its rule, and needs no repair |
| Desired.SettledBinding | internal/controller/desired.go:297-343 | a Binding needs no repair exactly when it is on the target, of the class of the rule, and has an explicit negate |
| Specified.ApplicationAsked | internal/controller/desired.go:102-135 | field by field, without the desired object: an Application conforms and keeps its unmanaged fields if and only if every field that the spec gives has that value and every other one the value it had |
| Specified.CreatedApplicationAsked | internal/controller/desired.go:102-135 | the same of the Application that the server stores for the create request, where a field that the spec omits has the default of the server |
| Specified.ProxyAsked | internal/controller/desired.go:147-205 | the same of a Proxy Provider, for each of the three modes: name, the three flows each in its place, certificate, both hosts, cookie domain, paths, basic auth, and validities |
| Specified.CreatedProxyAsked | internal/controller/desired.go:147-205 | the same of a created Proxy Provider, which is named after the slug unless the spec names it |
| Specified.LinesReadBack | internal/controller/desired.go:173-175 | the unauthenticated paths are the lines of one text: reading its lines gives them back unless one of them breaks a line itself |
| Specified.OAuth2Asked | internal/controller/desired.go:209-295 | the same of an OAuth2 Provider: scopes and grant types as sets, redirect URIs by their meaning, both keys, credentials, and validities each in its place |
| Specified.CreatedOAuth2Asked | internal/controller/desired.go:209-295 | the same of a created OAuth2 Provider, with the creation defaults for scopes and signing key and random credentials where the spec gives none |
| Specified.RedirectsAsked | internal/controller/desired.go:245-254 | redirect URIs agree if and only if each one asked for is there and each one there is asked for, matched strictly and for authorization unless the spec says otherwise |
| Specified.BindingAsked | internal/controller/desired.go:297-343 | a Binding with one subject needs no repair if and only if it is on the target, has the negate of the rule, and the subject that the rule names |
| Specified.ClassMeans | internal/controller/bindings.go:248-276 | a Binding is of the class of a rule if and only if it has its subject and denies exactly when the rule does |
| Specified.SecretAsked | internal/controller/credentials.go:74-81 | what is exported, key by key: the client secret if there is one, and the client ID unless the spec gives it |
| Specified.AskedTwice | internal/controller/provider.go:72-107 | what two runs for the same spec leave of the Providers is what one would: given fields as given, others as before the first |
| Specified.SlugAskedTwice | internal/controller/application.go:37-107 | the same of the Application under the slug |
| BindingPlan.CombinedFits | internal/controller/bindings.go:66-79 | managed matches completed with exact unmanaged ones: an inexact Binding is managed, and every rule of its own class has an exact managed one |
| BindingPlan.AdoptionLeaves | internal/controller/bindings.go:70-79 | how many equal rules adoption leaves for creation, and that it is as few as possible if and only if one of the two kinds of Bindings is absent or covers all |
| BindingTally.CoveredIsMatched | internal/controller/bindings.go:251-276 | how many rules of a class the managed Bindings serve, counted from the stored Bindings alone, is what the greedy passes match |
| BindingTally.RecoverableExactly | internal/controller/bindings.go:66-120 | for a class of n equal rules, c of them covered, and s unmanaged Bindings of the class: no run of interrupted passes creates more than one pass if and only if n <= 1, c >= n, s >= 2n-1-c, or both c == n-1 and s >= n-1 |
| BindingAttempts.AttemptAdopting | internal/controller/bindings.go:70-79 | a pass that stops while it adopts is an attempt of the counting model, in every class |
| BindingAttempts.AttemptWriting | internal/controller/bindings.go:81-107 | a pass that stops anywhere in the write loop is an attempt, which created the new Bindings of the class and lost track of at most one |
| BindingAttempts.AttemptPassed | internal/controller/bindings.go:109-120 | a pass that made its last write created what each class needed, and every rule is covered |
| BindingAttempts.DistinctRulesRecover | internal/controller/bindings.go:66-120 | pairwise distinct rules are recoverable from every state |
| BindingAttempts.OpenShrinks | internal/controller/bindings.go:66-120 | while every class is recoverable, each created Binding closes a class that needed one, for good |
| BindingAttempts.PassesAreRuns | internal/controller/bindings.go:66-120 | seen from any class, the passes over the stored Bindings are a run of the counting model, and keep its bound |
| BindingWaste.RecoverableStates | internal/controller/bindings.go:56-120 | in every state of the server, and for every assignment that the operator may choose: a class is recoverable if and only if no stop makes the Bindings created and those still needed more than one uninterrupted pass creates |
| BindingWaste.EqualRulesCreateThree | internal/controller/bindings.go:91-105 | two equal rules and no Binding: one pass needs two creations, and there is a stop after which they become three |
| BindingPlan.ProgressKeepsRules | internal/controller/bindings.go:81-107 | between any two writes of the loop every rule that had a Binding has one, and no Binding left the target |
| BindingPlan.SettledClasses | internal/controller/bindings.go:81-120 | the recorded Bindings carry exactly the multiset of subjects and negates of the rules |
| BindingPlan.SettledPlan | internal/controller/bindings.go:251-276 | in a settled state every rule gets a Binding that needs no patch and every managed Binding is used, in whatever order they are listed |
| BindingHistory.PhasesAreSafe | internal/controller/bindings.go:52-54 | writing before deleting is safe at every moment: no rule loses its Binding, from the first deletion on every rule has one, no step empties the target, none changes order, enabled, timeout, or failure result of a Binding, and every new Binding is enabled |
| BindingHistory.WritesAreSafe | internal/controller/bindings.go:52-54 | a pass that stops while writing is as safe |
| BindingHistory.SettingsThroughout | internal/controller/bindings.go:278-288 | in a safe run a Binding that is there from one moment to another has at both the same order, enabled, timeout, and failure result |
| BindingWrites.RepairAccepted | internal/controller/bindings.go:278-288 | the server accepts the repair of a planned Binding, which keeps one subject, its target, and its order |
| BindingWrites.SyncBinding | internal/controller/bindings.go:278-288 | patches a Binding exactly when it needs it, reaches the class of the rule, and leaves every field alone that the rule does not ask for, order, enabled, timeout, and failure result among them |
| BindingWrites.CreateFor | internal/controller/bindings.go:91-105 | the created Binding has one subject, a free order, the class of the rule, and is enabled; a new marker means that its UUID is recorded |
| BindingWrites.RecordAndMark | internal/controller/bindings.go:98-105 | records before marking, wherever it stops |
| BindingWrites.WriteOne | internal/controller/bindings.go:82-107 | one rule: whatever fails, the state is one that the write loop passes through |
| BindingWrites.WriteBindings | internal/controller/bindings.go:81-107 | all rules in their order; new Bindings come behind every existing one with a gap of 10 each, within 32 bits; nothing is sent when nothing differs |
| Resources.Union | internal/controller/bindings.go:303-308 | the value is added once |
| BindingSteps.Claims | internal/controller/bindings.go:230-243 | managed exactly when recorded or marked, and marked afterwards |
| BindingSteps.SplitManaged | internal/controller/bindings.go:222-246 | the split by recorded or marked, and the largest order, at least 0 |
| BindingSteps.ReadBindings | internal/controller/bindings.go:56-65 | lists and splits the Bindings of the target; sends nothing in a settled state |
| BindingSteps.Adopt | internal/controller/bindings.go:70-79 | marks exactly the unmanaged Bindings that it adds to the plan, and leaves rules with a managed match alone |
| BindingSteps.PlanPass | internal/controller/bindings.go:56-79 | everything before the first write: the plan fits what was read |
| BindingSteps.DeleteBinding | internal/controller/bindings.go:291-300 | the Binding goes first and then its marker; one that is gone counts as deleted |
| BindingSteps.DeleteUnneeded | internal/controller/bindings.go:109-116 | deletes exactly the managed Bindings that are not kept, with their markers |
| BindingSteps.HandleUnmanaged | internal/controller/bindings.go:128-169 | prune deletes every remaining Binding; otherwise the UUIDs of all are reported, which stops a public Application |
| Bindings.Remaining | internal/controller/bindings.go:122-123 | the unmanaged Bindings that were not adopted |
| Bindings.UnmanagedAfterCleanup | internal/controller/bindings.go:118-124 | without prune, a Binding that was not managed at the start of the pass is still there, on its target and with its subject and negate |
| Bindings.DeleteAndRecord | internal/controller/bindings.go:109-120 | records the kept UUIDs after the deletions |
| Bindings.FinishUnmanaged | internal/controller/bindings.go:118-124 | what follows the recording: the Bindings that were neither managed nor adopted are pruned or reported, safe wherever it stops |
| Bindings.FinishPass | internal/controller/bindings.go:109-124 | what follows the write loop, safe wherever it stops |
| Bindings.ExecutePass | internal/controller/bindings.go:81-124 | writing and then finishing, safe wherever it stops |
| Bindings.ReconcileBindings | internal/controller/bindings.go:55-124 | on every exit: safe at every moment, other targets untouched, one subject per Binding, settings that no rule asks for unchanged, without prune no unmanaged Binding gone, no refused request while orders fit 32 bits, and in every class an attempt of the counting model; on success exactly one recorded, marked, conforming Binding per rule and the rest unmanaged, reported, and untouched, or pruned; a settled state sends nothing |
| BindingRuns.SafeRunsChain | internal/controller/bindings.go:52-54 | a safe run that continues a safe run is safe as a whole |
| BindingRuns.Crash | internal/controller/authentikapplication_controller.go:114-128 | after a crash only the written status is known |
| BindingRuns.RepeatedNext | internal/controller/bindings.go:52-54 | one more pass after passes that stopped anywhere: all of them are one safe run, a run of passes, and within the bound on creations |
| BindingRuns.ReconcileUntilDone | internal/controller/bindings.go:66-107 | with failures and crashes after any request or status update, all attempts together are one safe run; from a recoverable tally of a class they create no more of it than one pass; when every class is recoverable, creations and open classes together never exceed the open classes at the start; success leaves one managed Binding per rule |
| Resources.Resource.PatchStatus | internal/controller/authentikapplication_controller.go:226-235 | writes the status only when it differs from the last written one |
| Providers.Get | internal/controller/provider.go:190-196 | a Provider of the type with the slug of the Application that uses it |
| Providers.ExistsAsOtherType | internal/controller/provider.go:291-301 | whether the pk is that of a Provider of the other type |
| Providers.FindByName | internal/controller/provider.go:267-277 | every Provider of the type with the name |
| Providers.Create | internal/controller/provider.go:279-289 | the created Provider has every managed value, and the default of the server or of the operator in every other field; refused only for the name, the mode, or the client ID |
| Providers.Sync | internal/controller/provider.go:234-257 | patches exactly when a managed field differs, touches no other Provider and no unmanaged field of this one, converges when accepted, and fails when the server does not accept the repair |
| Providers.FindCandidate | internal/controller/provider.go:141-150 | a Provider with the name that no other Application uses, and none exactly when there is none |
| Providers.OneSelected | internal/controller/provider.go:112-151 | in every state of the server the search has at most one Provider to take |
| Providers.FindProvider | internal/controller/provider.go:112-151 | recorded, else attached, else by name: the one Provider to take, or none exactly when there is none; a mismatch only for a Provider of the other type |
| Providers.FreeNameIsNotTaken | internal/controller/provider.go:109-111 | without a Provider to take and with the name free of others, the creation is not refused for its name |
| Providers.CreateMissing | internal/controller/provider.go:82-88 | the new Provider has every managed value, and is the one that every later search takes; its name is refused only when it was not free |
| Providers.FindOrCreate | internal/controller/provider.go:72-88 | creates exactly when there is none to take |
| Providers.RecordProvider | internal/controller/provider.go:92-101 | records the pk before attaching the marker |
| Providers.RecordAndSync | internal/controller/provider.go:92-106 | the Provider is not patched before it is recorded and marked, keeps its unmanaged fields, and stays the one to take wherever this stops |
| Providers.ReconcileProvider | internal/controller/provider.go:72-107 | created at most once, and wherever the attempt stops, the next one takes the same Provider, and every Provider is as it was or as asked, with its unmanaged fields kept; a conforming one gets no request but for markers, one that cannot be repaired fails the attempt, and a refused creation is about its name only when the name was not free |
| Providers.ArrangedChain | internal/controller/provider.go:72-107 | what a creation and a repair in a row do to the Providers is what one of them may do |
| Providers.ArrangedAsAsked | internal/controller/provider.go:72-107 | what the Provider part does is what the spec asks for, field by field, for the handler of the spec |
| Outposts.MoveStep | internal/controller/outpost.go:28-33 | one request of a move keeps other Providers, their order, and the membership in some Outpost |
| Outposts.RemoveProvider | internal/controller/deletion.go:191-198 | the other Providers keep their order |
| Outposts.LeaveByUuid | internal/controller/deletion.go:182-188 | an Outpost that is gone is skipped |
| Outposts.Join | internal/controller/outpost.go:36-46 | joins at the end of the list unless it is there, and changes no other Outpost |
| Outposts.Leave | internal/controller/outpost.go:48-53 | leaves the recorded Outpost while it stays in the new one |
| Outposts.ReconcileOutpost | internal/controller/outpost.go:34-56 | joins first and leaves afterwards; ends in the new Outpost, out of the recorded one; on every exit only these two may change; an error keeps the record for the retry |
| Outposts.MoveUntilDone | internal/controller/outpost.go:25-33 | attempts that fail or crash anywhere are one move that ends in the new Outpost and out of the recorded one |
| Adoption.FieldDiffs | internal/controller/adoption.go:154-172 | lists exactly the fields that change, in the order of their names |
| Adoption.ApplicationPatchNamesField | internal/controller/adoption.go:190-193 | the fields that the patch of an Application changes are exactly those that are managed and differ, and there is one, so a mismatch is never taken for a match |
| Adoption.ProxyPatchNamesField | internal/controller/adoption.go:194-196 | the same for a Proxy Provider, whose patch also carries a mode for validation only |
| Adoption.OAuth2PatchNamesField | internal/controller/adoption.go:194-196 | the same for an OAuth2 Provider |
| Adoption.ProviderDiffs | internal/controller/provider.go:180-187 | lists exactly the managed fields that differ, and none exactly when the Provider has every managed value |
| Adoption.AttachedProvider | internal/controller/adoption.go:218-236 | the attached Provider of the type of the spec, none, or a mismatch exactly for one of the other type |
| Adoption.AdoptApplication | internal/controller/adoption.go:176-213 | adopted exactly when nothing speaks against it, and otherwise refused for the first reason in the order unmanaged, mismatched, different, with nothing written; the diff lists exactly the managed fields of Application and Provider that differ |
| Applications.RecordApplication | internal/controller/application.go:66-73 | records the pk before attaching the marker |
| Applications.MarkAgain | internal/controller/application.go:54-58 | a lost marker of a recorded Application is attached again |
| Applications.MayTake | internal/controller/application.go:59-68 | an unrecorded Application is taken when it is marked; otherwise, short of a failed call, exactly when spec.adopt lets it, and refused for the reason that keeps it from being adopted |
| Applications.ObserveApplication | internal/controller/application.go:37-74 | a managed Application is taken without consulting spec.adopt, and an unmanaged one, short of a failed call, exactly when nothing speaks against adopting it; a stop writes nothing but possibly the role, and a refusal for differences lists exactly the fields that differ |
| Applications.RepairApplication | internal/controller/application.go:98-107 | repairs exactly what differs, under the same pk; the Application is then as the spec asks, with every other field as it was |
| Applications.CreateApplication | internal/controller/application.go:79-96 | created as the spec asks, recorded, and marked, in this order; at most one Application changes |
| Frames.OnlyOwnChain | internal/controller/authentikapplication_controller.go:142-165 | steps that take the same Provider, or new ones, together change no object of another resource |
| Frames.MovedAndLeft | internal/controller/outpost.go:28-56 | after a move the new Outpost is recorded only once the former one was left |
| Frames.KeptThenStill | internal/controller/authentikapplication_controller.go:142-165 | a step on the Application or its Bindings after one on the Provider: the records of Application, slug, and Outpost, and the objects of others, stay over both |
| Reconciler.ExportCredentials | internal/controller/credentials.go:65-93 | creates the Secret with the credentials of the Provider, and never overwrites one |
| Reconciler.DoneIsInPlace | internal/controller/authentikapplication_controller.go:131-165 | in place is, field by field and without the desired objects: Provider in its Outpost, Application linked to it, and one Binding per rule have what the spec gives, are recorded, and marked |
| Reconciler.TakeProvider | internal/controller/authentikapplication_controller.go:143-147 | the Provider of a resource that has one: created at most once, a recorded one that is there stays recorded, it ends as the spec asks with its other fields kept, and no other Provider changes |
| Reconciler.FinishProviderPart | internal/controller/authentikapplication_controller.go:148-157 | a Proxy Provider ends in its Outpost and out of the recorded one; credentials are exported exactly when they are asked for and the Secret did not exist |
| Reconciler.ReconcileProviderPart | internal/controller/authentikapplication_controller.go:143-158 | Provider and Outpost are in place on success; the search survives any stop |
| Reconciler.ReconcileApplicationPart | internal/controller/authentikapplication_controller.go:159-162 | the Application is in place on success, and the Provider stays in place |
| Reconciler.ReconcileBindingsPart | internal/controller/authentikapplication_controller.go:163-164 | the Bindings come last and leave Provider and Application in place; unmanaged ones are reported, and stop a public Application |
| Reconciler.ReconcileTaken | internal/controller/authentikapplication_controller.go:142-162 | Provider, Outpost, and Application, in this order |
| Reconciler.TakeOver | internal/controller/authentikapplication_controller.go:138-141 | short of a failed call, an Application that is not managed is taken and marked if and only if nothing speaks against adopting it, and otherwise the run stops for that reason, which costs nothing but possibly the role |
| Reconciler.ReconcileObjects | internal/controller/authentikapplication_controller.go:131-162 | a reconcile that adopts under IfMatch sends nothing for the attached Provider and the Application but a missing link, which is all that changes of the Application; an unclaimed Application gets past adoption, short of a failed call, if and only if spec.adopt lets it, and is otherwise left unmarked with the reason as the error; no object of another resource changes; a Provider that cannot be repaired fails the reconcile; losing the slug sends nothing |
| Reconciler.ReconcileRest | internal/controller/authentikapplication_controller.go:163-165 | the Bindings after the objects: what was decided about the Application stays, and no object of another resource changes |
| Reconciler.ReconcileSteps | internal/controller/authentikapplication_controller.go:131-165 | success means everything is in place; in place means nothing is sent; the rules are served safely and counted wherever it stops; an unclaimed Application is decided about as spec.adopt says; no object of another resource changes |
| Reconciler.Finish | internal/controller/authentikapplication_controller.go:168-196 | the adoption diff is kept only as the reason to stop, and the error of the steps wins |
| Reconciler.Reconcile | internal/controller/authentikapplication_controller.go:114-165 | one reconcile with resolved references: safe for the rules at every moment, at most one Provider creation and the same Provider from then on, everything in place on success; on every exit Provider and Application are as they were or as the spec asks, field by field; an unclaimed Application is taken, short of a failed call, if and only if spec.adopt lets it; every Application under another slug, Binding on another target, other Provider, and its membership in Outposts stays as it was |
| ReconcileRuns.ExportKeepsDone | internal/controller/credentials.go:62-81 | after an export the next reconcile finds everything in place if and only if what it reads back is what the Provider has: always with two keys, and with one key for both credentials only when the client secret is empty or equal to the client ID |
| ReconcileRuns.OneKeyUndoes | internal/controller/credentials.go:62-81 | one key for both credentials, with a client secret that is neither empty nor the client ID, undoes what was in place |
| ReconcileRuns.ReconcileNext | internal/controller/authentikapplication_controller.go:131-165 | in the state that a success leaves, the next reconcile sends nothing that writes and fails only by an unavailable call or unmanaged Bindings, also when its goal differs by the exported credentials, unless both have one key |
| ReconcileRuns.LostRecordIsAdoptable | internal/controller/adoption.go:174-213 | an Application that exists without a record, as its creation stored it, and its Provider match the spec, so that adoption depends on spec.adopt alone |
| ReconcileRuns.CreateAndCrash | internal/controller/application.go:79-96 | a creation that crashes anywhere leaves the Application recorded, or there without a record, as its creation stored it, or not at all |
| ReconcileRuns.ResumeAfterLostRecord | internal/controller/application.go:37-96 | the run after the record of a new Application was lost: short of a failed call the Application is taken if and only if spec.adopt is IfMatch or Force; under Never it is never marked, and the run stops as unmanaged |
| ReconcileRuns.RunsNext | internal/controller/authentikapplication_controller.go:114-165 | one more reconcile extends what all runs so far did to the Bindings, also when the Application appears only in this one |
| ReconcileRuns.ConfinedNext | internal/controller/authentikapplication_controller.go:114-165 | one more reconcile changes no object of another resource, turns no recorded Application away, leaves Provider and Application as at the start or as the spec asks, and records an Outpost only after the one recorded at the start was left |
| ReconcileRuns.ReconcileAgain | internal/controller/authentikapplication_controller.go:114-197 | one more attempt, which may stop anywhere, keeps what holds over all attempts so far |
| ReconcileRuns.ReconcileUntilDone | internal/controller/authentikapplication_controller.go:114-197 | with failures and crashes anywhere, all reconciles together create the Provider at most once, take that Provider from then on, and are never refused for its name when it was free; every rule is served safely all along, with the bound on creations; no object of another resource changes; Provider and Application are as at the start or as the spec asks, with every field that it omits as at the start; the attempts end with the result, and only the last one can have gone through; once the Application is recorded no attempt is turned away from it, so that the result is no refusal when it was recorded at the start; on success a Proxy Provider has left the Outpost recorded at the start; a Provider that cannot be repaired keeps every one of them from succeeding |
| Neighbours.LinkedIsTaken | internal/controller/provider.go:112-151 | the search takes the Provider that the Application of another resource is linked to if and only if it has recorded it, too, and asks for its type |
| Neighbours.NotBothInPlace | internal/authentik/fake/fake.go:249-280 | two resources never both have the same Provider in place, because a Provider is linked to one Application |
| Neighbours.StaysIn | internal/controller/authentikapplication_controller.go:131-165 | what another resource has in place survives any change of the own objects of this one |
| Neighbours.ReconcileBeside | internal/controller/authentikapplication_controller.go:114-197 | however often one resource is reconciled, with failures and crashes anywhere, what another resource with another slug has in place stays so unless both recorded the same Provider; once a reconcile goes through, it stayed so if and only if they had not |
| Neighbours.ReleasedBeside | internal/controller/deletion.go:80-127 | a deletion that stops anywhere leaves in place what another resource asks for, unless both recorded the same object |
| Neighbours.InPlaceIsReleased | internal/controller/deletion.go:80-154 | whatever a resource has in place is gone at the end of its deletion: the Application, which the recorded slug finds, every Binding on it, and the Provider with its membership in Outposts |
| Neighbours.ReleaseBeside | internal/controller/deletion.go:58-76 | however often a release is tried, what another resource has in place stays so unless both recorded the same Binding, Application, or Provider; once the release goes through, if and only if they did not |
| Turns.SharingFails | internal/authentik/fake/fake.go:249-280 | a resource that has recorded the Provider of an Application linked to it does not get it in place, and keeps the record |
| Turns.StandsNext | internal/controller/authentikapplication_controller.go:114-165 | the turn of one resource leaves every settled one in place, or linked to a Provider that an unsettled one has recorded, too |
| Turns.TakeTurn | internal/controller/authentikapplication_controller.go:114-197 | one turn, with a crash anywhere, keeps what holds of all settled resources |
| Turns.ReconcileInTurns | internal/controller/authentikapplication_controller.go:114-197 | resources with different slugs, reconciled in any order and any number of times, with failures and crashes anywhere: whose last turn went through is in place at the end, unless one whose last turn did not has recorded the same Provider; once the last turn of every one went through, all are in place together |
| Sweeps.SweepBetween | internal/controller/markers.go:150-178 | steps of the collector between two parts of a reconcile take only markers of objects missing from its start, and leave in place what is |
| Sweeps.SameTally | internal/controller/bindings.go:222-246 | what is managed counts the same when only markers of missing Bindings differ |
| Sweeps.TakeOverAmid | internal/controller/authentikapplication_controller.go:131-141 | the adoption, after steps of the collector |
| Sweeps.ProviderAmid | internal/controller/authentikapplication_controller.go:142-158 | the Provider part, after steps of the collector |
| Sweeps.ApplicationAmid | internal/controller/authentikapplication_controller.go:159-162 | the Application part, after steps of the collector |
| Sweeps.BindingsAmid | internal/controller/authentikapplication_controller.go:163-165 | the Bindings part, after steps of the collector |
| Sweeps.ReconcileAmid | internal/controller/authentikapplication_controller.go:114-165 | a reconcile with steps of the collector before each part promises what it promises alone: rules served safely, one Provider creation, objects as they were or as asked, adoption if and only if spec.adopt lets it, everything in place on success, other resources left alone; what is in place gets no request but for markers |
| Operator.OneResolution | internal/reference/resolver.go:139-172 | the references of a spec have one resolution, and a change of the Secret changes nothing but the credentials in it |
| Operator.SameResolution | internal/reference/resolver.go:139-172 | a spec is resolved in one way only |
| Operator.GoalInPlace | internal/controller/authentikapplication_controller.go:134-165 | what the reconcile is given to do is in place if and only if what the spec asks for is |
| Operator.InPlacePointsTo | internal/reference/resolver.go:139-172 | what is in place holds the flows, certificates, keys, scopes, Outpost, credentials, and subjects that the references of the spec identify, each in its field |
| Operator.BroughtIsAnswered | internal/controller/authentikapplication_controller.go:134-165 | what a reconcile brings about is what the spec and the directory ask for, on every exit |
| Operator.Proceed | internal/controller/authentikapplication_controller.go:114-165 | the winner goes on, and a resource that does not win stops with a conflict and no request |
| Operator.FinishUnresolved | internal/controller/authentikapplication_controller.go:168-196 | unresolved references change nothing in the status but the adoption diff |
| Operator.ReconcileWinner | internal/controller/authentikapplication_controller.go:134-165 | unless every reference matches exactly one object, nothing is requested from authentik; otherwise what the spec asks for is brought about, held against the spec and the directory alone |
| Operator.Reconcile | internal/controller/authentikapplication_controller.go:114-165 | conflict check, resolution, and reconcile: a conflict is reported exactly when the resource does not win its slug, and always while another live resource holds the record; then nothing is requested; on every exit of the winner the rules that the directory gives for the spec were served safely and nothing changed but to what the spec asks; on success every field of Provider, Application, and Bindings has the value of the spec, one recorded Binding per rule, and every key is the one that a reference of the spec identifies; the slug stays recorded together with the Application; the cluster keeps one record per slug, and what is in place gets no request |
| Operator.ReconcileNext | internal/controller/authentikapplication_controller.go:114-165 | the fixed point of the whole: in the state that a success leaves, the next reconcile wins its slug and requests nothing that writes, with the references resolved and the Secret read again, if the Secret existed or does not have one key for both credentials; it fails only by an unavailable call or unmanaged Bindings, or because the Provider has no credentials to read back |
| Operator.NextResolves | internal/reference/resolver.go:284-314 | after an export every reference has one match if and only if the Secret has what is read back |
| Release.EndLeavesNothing | internal/controller/deletion.go:80-143 | the end of a deletion has no recorded Binding or Provider and no Binding of the deleted Application, and every other Binding; an Application with the recorded pk is left exactly when it moved to another slug; none under another pk is taken |
| Release.EndKeepsOthers | internal/controller/deletion.go:80-143 | what a deletion leaves is as it was, but for the Provider in the lists of the Outposts |
| Release.EndOfApplication | internal/controller/deletion.go:130-143 | an Application goes exactly under the recorded slug, or that of the spec, with the recorded pk; any other stays, and loses at most its link to the Provider |
| Release.ReleasedAreCovered | internal/controller/deletion.go:115-119 | the objects released are exactly the recorded Bindings, the recorded Application, and the recorded Provider under the type of the spec |
| Release.ApplicationStepKeepsEnd | internal/controller/deletion.go:130-143 | deleting the Application, with its Bindings, does not change the end |
| Release.ProviderStepKeepsEnd | internal/controller/deletion.go:146-154 | deleting the Provider, with its links and memberships, does not change the end |
| Release.OutpostStepKeepsEnd | internal/controller/deletion.go:158-178 | leaving an Outpost does not change the end |
| Release.EndReached | internal/controller/deletion.go:80-127 | where every recorded object is gone, the end is reached |
| Release.EndTwice | internal/controller/deletion.go:80-127 | releasing what was released changes nothing |
| Release.DeleteApplication | internal/controller/deletion.go:130-143 | the Application under the slug goes exactly when its pk is the recorded one |
| Release.LeaveOutpost | internal/controller/deletion.go:158-178 | leaves the one Outpost that the spec means; one that cannot be found, or not uniquely, is skipped |
| Release.DeleteProvider | internal/controller/deletion.go:146-154 | the Provider and every reference to it are gone on success |
| Release.RemoveMarkers | internal/controller/deletion.go:115-119 | removes exactly the markers of the objects |
| Release.DeleteObjects | internal/controller/deletion.go:85-113 | stops anywhere without changing the end, and reaches it on success |
| Release.ReleaseObjects | internal/controller/deletion.go:80-127 | retain changes nothing but markers; delete reaches the end before any marker goes; on success the markers of exactly the recorded objects are gone |
| Release.ReleaseUntilDone | internal/controller/deletion.go:58-76 | attempts that fail or crash anywhere end where an uninterrupted release ends; when they are used up, that end is still the same, and only recorded markers are gone |
| Conflict.OrderIsTotal | internal/controller/conflict.go:50-62 | the order of distinct candidates is antisymmetric, and equal only to itself |
| Conflict.OrderIsTransitive | internal/controller/conflict.go:50-62 | the order is transitive, ties by namespace and name included |
| Conflict.StringAntisymmetric | internal/controller/conflict.go:58-61 | the comparison of strings is antisymmetric and decides equality |
| Conflict.StringTransitive | internal/controller/conflict.go:58-61 | the comparison of strings is transitive |
| Conflict.CompareIsSmaller | internal/controller/conflict.go:58-61 | the comparison puts one string before another if and only if it is a proper prefix, or has the smaller character where they first differ |
| Conflict.CompareIsBeats | internal/controller/conflict.go:46-65 | one candidate comes before another if and only if it alone is recorded, or neither or both are and it is older, or as old with the smaller namespace, or in the same namespace with the smaller name |
| Conflict.WinnerIsOldest | internal/controller/conflict.go:43-62 | a candidate wins if and only if it is recorded when any is, and is the oldest among those that are like it, ties going to the smaller namespace and then the smaller name |
| Conflict.OneWinner | internal/controller/conflict.go:43-45 | every resource agrees on the winner, in whatever order it lists the candidates |
| Conflict.RecordedBeatsNewcomer | internal/controller/conflict.go:43-45 | no newcomer wins against a recorded Application pk, even an older one |
| Conflict.ConflictWinner | internal/controller/conflict.go:46-65 | the candidate that beats every other one, by record, age, namespace, and name |
| Conflict.ExactlyOnePasses | internal/controller/conflict.go:67-89 | exactly one live resource of a slug passes the check |
| Conflict.Cluster.CheckConflict | internal/controller/conflict.go:68-89 | passes exactly when the resource beats every other live one of its slug, by record, age, namespace, and name |
| Conflict.Cluster.OwnerStays | internal/controller/conflict.go:43-62 | no resource wins while another live one holds the record of the slug |
| Conflict.OwnerWins | internal/controller/conflict.go:43-62 | the live resource that holds the record of its slug wins it |
| Conflict.Cluster.Record | internal/controller/conflict.go:68-89 | a record that only the winner changes leaves at most one live record per slug |
| Conflict.Cluster.Reconcile | internal/controller/conflict.go:68-89 | only the winner changes its record, and nobody wins against another live record |
| Conflict.Cluster.Run | internal/controller/authentikapplication_controller.go:284-289 | over any serialized run at most one live resource per slug holds a record, and none is displaced while it holds it |
| Resolver.Find | internal/reference/resolver.go:476-486 | every object with the key, each once |
| Resolver.IdentifiedBy | internal/reference/resolver.go:431-486 | a reference by UUID identifies the object of its kind with it, and one by name the only object of its kind with the name |
| Resolver.UserIdentifiedBy | internal/reference/resolver.go:330-350 | the same for a User, by pk or by username |
| Resolver.OneMatch | internal/reference/resolver.go:445-486 | a reference is no failure if and only if it identifies an object |
| Resolver.ResolveByString | internal/reference/resolver.go:445-486 | the one match, or one collected failure with the number of matches |
| Resolver.ResolveNamed | internal/reference/resolver.go:431-441 | nil exactly when omitted or not resolved |
| Resolver.ResolveUser | internal/reference/resolver.go:330-350 | no pk outside 1 to 2147483647 reaches the 32-bit conversion; it counts as not found |
| Resolver.ConversionWouldWrap | internal/reference/resolver.go:333-337 | the conversion alone would take a larger pk for another User |
| Resolver.ResolveFlows | internal/reference/resolver.go:219-238 | each flow is its one match |
| Resolver.ResolveProxy | internal/reference/resolver.go:240-251 | certificate and Outpost are their one match, the embedded Outpost by default |
| Resolver.ResolveScopes | internal/reference/resolver.go:257-267 | each scope is its one match |
| Resolver.ReadKey | internal/reference/resolver.go:299-306 | the value of a key of the Secret, or one collected failure |
| Resolver.ResolveCredentials | internal/reference/resolver.go:284-314 | a missing Secret is no failure, a missing key is |
| Resolver.ResolveOAuth2 | internal/reference/resolver.go:253-280 | every reference of an OAuth2 Provider, in order |
| Resolver.ResolveRule | internal/reference/resolver.go:316-328 | the one subject of the rule |
| Resolver.ResolveRules | internal/reference/resolver.go:158-164 | the rules by index |
| Resolver.ResolvedRuleIsValid | internal/reference/resolver.go:316-328 | a resolved rule has exactly one subject that exists |
| Resolver.Resolve | internal/reference/resolver.go:139-172 | all or nothing: resolved exactly when every reference has one match, and otherwise exactly the failing ones in order with their counts |
| Resolver.NoFailures | internal/reference/error.go:73-88 | nothing is collected exactly when every reference has one match |
| Resolver.FailuresAreMissingOrAmbiguous | internal/reference/error.go:36-39 | every listed failure is a reference of the spec with no match or several |
| Resolver.ReasonOf | internal/reference/error.go:62-71 | any missing reference decides the reason |

## Left out

- Patch.ProxyConverges: holds for an accepted PATCH; `Desired.ProxyRepairAccepted` says which ones the server accepts.
- BindingSteps.HandleUnmanaged: the report lists UUIDs; the subject described next to each of them is not modelled.
- Reconciler.Reconcile: assumes that nobody else changes markers or the role during the run (`Sweeps.ReconcileAmid` lets the collector act), that the list of resources with the slug is up to date, and that nobody edits the same objects meanwhile; the conflict check and the resolved references are inputs here, which `Operator.Reconcile` supplies.
- Operator.ReconcileNext: assumes that nothing but the operator changed the objects, the references, and the Secret in between.
- ReconcileRuns.ReconcileUntilDone: keeps one goal for all attempts.
- Turns.ReconcileInTurns: a turn is a whole reconcile, and no resource is deleted in between; `Neighbours.ReleaseBeside` is about a deletion.
- ReconcileRuns.CreateAndCrash: assumes that the recorded pks were issued by the server, so that the new Application cannot carry a recorded one.
- Sweeps.ReconcileAmid: the collector acts before each part of the reconcile, not between the requests of one part, and no other replica attaches markers meanwhile.
- Release.ReleaseObjects: assumes that the recorded Provider is not one of the other type, and that the marker list is exact.
- Ownership.MarkerCache.Reread: the callback after the role was recreated is counted; queueing every resource in it is not modelled.
- Providers.Create: the lookup of the creation defaults can fail, but the defaults themselves are an input.
- A request whose reply is lost while the operator goes on: every request either takes effect and is answered, or does neither.
- The owner reference of the Secret with the credentials, and the finalizer.
- Events, log lines, conditions, messages, and the hash of the spec.
- The values shown in an adoption diff and their redaction; the diff is the list of fields.
- HTTP, TLS, tokens, metrics, paging, error bodies, retries with backoff, and the version check.
- Watches, predicates, queues, and the wiring of the manager; reconciles are serialized, and the collector interleaves with them.
- Stale caches of the Kubernetes API.
- The tables that rename enumeration values, and identifiers as text.
