/**
 Several reconciles of one resource in a row: the fixed point, resumption after a lost record, and retries after failures
 and crashes.
 */
module ReconcileRuns {
  import opened Base
  import opened Api
  import opened Patch
  import opened Matching
  import opened Server
  import opened Ownership
  import opened Desired
  import opened Specified
  import opened Resources
  import opened BindingPlan
  import opened BindingAttempts
  import opened BindingHistory
  import opened BindingSteps
  import opened BindingRuns
  import opened Providers
  import opened Applications
  import opened Frames
  import opened Reconciler

  // ---------- the fixed point ----------

  predicate AsksForCredentials(goal: Goal) {
    goal.spec.provider.Some? && goal.spec.provider.value.kind.OAuth2Spec? && goal.spec.provider.value.kind.credentials.Some?
  }

  function WithCredentials(goal: Goal, credentials: Credentials): Goal {
    goal.(resolved := goal.resolved.(oauth2 := goal.resolved.oauth2.(credentials := Some(credentials))))
  }

  /** The goal of the next reconcile when nothing but the credentials Secret changed; none when a key is missing in it. */
  function Reread(goal: Goal, data: Option<map<string, string>>): Option<Goal> {
    if !AsksForCredentials(goal) then Some(goal)
    else
      var read := ReadCredentials(goal.spec.provider.value.kind.credentials.value, data);
      if read.None? then None else Some(WithCredentials(goal, read.value))
  }

  /** The Provider has these credentials; an empty client ID is not managed. */
  predicate HasCredentials(provider: OAuth2Provider, credentials: Credentials) {
    && provider.clientSecret == Some(credentials.clientSecret)
    && (credentials.clientId != "" ==> provider.clientId == Some(credentials.clientId))
  }

  /**
   After an export the next reconcile asks for the exported credentials. It finds everything in place if and only if what
   it reads back is what the Provider has, which is always so with two keys, and with one key for both only when the
   client secret is empty or equal to the client ID.
   */
  lemma ExportKeepsDone(goal: Goal, server: Authentik, marked: set<Object>, status: Status, again: Goal)
    requires goal.Valid() && Reread(goal, None) == Some(goal) && AsksForCredentials(goal) && Done(goal, server, marked, status)
    requires status.providerPk.Some? && status.providerPk.value in server.oauth2Providers
    requires var spec := goal.spec.provider.value.kind.credentials.value;
             Reread(goal, Some(ExportedSecret(spec, server.oauth2Providers[status.providerPk.value]))) == Some(again)
    ensures var provider, spec := server.oauth2Providers[status.providerPk.value], goal.spec.provider.value.kind.credentials.value;
            && again.Valid()
            && (Done(again, server, marked, status) <==> HasCredentials(provider, again.resolved.oauth2.credentials.value))
            && (!OneKey(spec) ==> Done(again, server, marked, status))
            && (OneKey(spec) && provider.clientSecret.Some? ==>
                  (Done(again, server, marked, status) <==>
                   provider.clientSecret == Some("") || provider.clientId == provider.clientSecret))
  {
    var pk := status.providerPk.value;
    var provider, spec := server.oauth2Providers[pk], goal.spec.provider.value.kind.credentials.value;
    ExportedCredentials(spec, provider);
    SameBesideCredentials(goal, again, provider);
    hide Settled, ApplicationConforms, Owned, OAuth2Conforms, DesiredOAuth2Provider, ReadCredentials, ExportedSecret;
    assert ProviderDone(again, server, marked, status) <==> OAuth2Conforms(again.Handler().value.oauth2Desired, provider);
    assert ApplicationDone(again, server, marked, status) && BindingsDone(again, server, marked, status);
  }

  /** One key for both credentials, with a client secret that is neither empty nor the client ID, undoes what was in place. */
  lemma OneKeyUndoes(goal: Goal, server: Authentik, marked: set<Object>, status: Status, again: Goal)
    requires goal.Valid() && Reread(goal, None) == Some(goal) && AsksForCredentials(goal) && Done(goal, server, marked, status)
    requires status.providerPk.Some? && status.providerPk.value in server.oauth2Providers
    requires var provider, spec := server.oauth2Providers[status.providerPk.value], goal.spec.provider.value.kind.credentials.value;
             && Reread(goal, Some(ExportedSecret(spec, provider))) == Some(again) && OneKey(spec)
             && provider.clientSecret.Some? && provider.clientSecret.value != "" && provider.clientId != provider.clientSecret
    ensures again.Valid() && !Done(again, server, marked, status)
  {
    hide Done, Reread, ExportedSecret, OneKey, AsksForCredentials;
    ExportKeepsDone(goal, server, marked, status, again);
  }

  lemma SameBesideCredentials(goal: Goal, again: Goal, provider: OAuth2Provider)
    requires Reread(goal, None) == Some(goal) && AsksForCredentials(goal)
    requires again.resolved.oauth2.credentials.Some? && again == WithCredentials(goal, again.resolved.oauth2.credentials.value)
    requires again.resolved.oauth2.credentials.value.secretExists
    requires var spec := goal.spec.provider.value.kind.credentials.value;
             spec.clientId.Some? ==> again.resolved.oauth2.credentials.value.clientId == spec.clientId.value
    requires OAuth2Conforms(goal.Handler().value.oauth2Desired, provider)
    ensures OAuth2Conforms(again.Handler().value.oauth2Desired, provider) <==>
              HasCredentials(provider, again.resolved.oauth2.credentials.value)
    ensures var spec := goal.spec.provider.value.kind.credentials.value;
            spec.clientId.Some? && spec.clientId.value != "" ==> provider.clientId == spec.clientId
  {}

  /**
   The fixed point: in the state that a reconcile without an error leaves, the next one sends nothing that writes, and
   fails only by an unavailable call or unmanaged Bindings. Its goal is read again from the credentials Secret, which the
   first one may have created, unless that has one key for both credentials.
   */
  method ReconcileNext(markers: MarkerCache, s: Resource, secret: CredentialsSecret, goal: Goal, again: Goal,
                       ghost before: Option<map<string, string>>)
    returns (res: Result<()>)
    requires markers.marker.server.Valid() && markers.Exact() && goal.Valid() && AllSingle(markers.marker.server.bindings)
    requires Reread(goal, before) == Some(goal) && Reread(goal, secret.data) == Some(again)
    requires Done(goal, markers.marker.server, markers.marker.Marked(), s.base)
    requires Exported(goal, markers.marker.server.oauth2Providers, s.base.providerPk, before, secret.data)
    requires goal.Exports() ==> !OneKey(goal.CredentialsSpec())
    modifies s, secret, markers, markers.marker, markers.clock, markers.marker.server
    ensures markers.marker.server.history == old(markers.marker.server.history)
    ensures res.Err? ==> res.error == Unavailable || res.error == Stop(UnmanagedBindings)
    ensures res.Ok? ==> s.base == s.status && Done(again, markers.marker.server, markers.marker.Marked(), s.base)
  {
    hide ValidBindings, ValidApplications, ValidLinks, ValidProviders, ValidOutposts, ValidRoles, MarkedBy, Done, SearchFor,
      CatalogOf, NameRefused, AcceptedCalls, AllSingle, NotAdopted, Served, ValidRules, Recovers, Stuck, ManagedKeys, Kept,
      Exported, ReadCredentials;
    NextGoal(goal, markers.marker.server, markers.marker.Marked(), s.base, before, secret.data);
    res := Reconcile(markers, s, secret, again, true);
  }

  lemma SameRules(goal: Goal, data: Option<map<string, string>>)
    requires goal.Valid()
    ensures Reread(goal, data).Some? ==> Reread(goal, data).value.Valid()
  {}

  /** What the first reconcile put in place is what the next one asks for. */
  lemma NextGoal(goal: Goal, server: Authentik, marked: set<Object>, status: Status, before: Option<map<string, string>>,
                 now: Option<map<string, string>>)
    requires goal.Valid() && Reread(goal, before) == Some(goal) && Done(goal, server, marked, status)
    requires Exported(goal, server.oauth2Providers, status.providerPk, before, now)
    ensures Reread(goal, now).Some? ==> Reread(goal, now).value.Valid()
    ensures Reread(goal, now).Some? && (goal.Exports() ==> !OneKey(goal.CredentialsSpec())) ==>
              Done(Reread(goal, now).value, server, marked, status)
  {
    SameRules(goal, now);
    if goal.Exports() && Reread(goal, now).Some? {
      hide Done, ExportedSecret, OneKey;
      ExportKeepsDone(goal, server, marked, status, Reread(goal, now).value);
    }
  }

  // ---------- a lost record ----------

  /**
   The Application was created with its link, and the status that survived does not record it. What was known of the
   Provider is in known.
   */
  ghost predicate RecordLost(goal: Goal, marker: Marker, base: Status, known: Status)
    reads marker.server`applications, marker.server`bindings, marker.server`proxyProviders, marker.server`oauth2Providers,
          marker.server`outposts, marker.server`roles, marker.server`grants
  {
    && Unclaimed(marker, goal.spec.slug, base) && ProviderDone(goal, marker.server, marker.Marked(), known)
    && ApplicationConforms(DesiredApplication(goal.spec, None), marker.server.applications[goal.spec.slug])
    && marker.server.applications[goal.spec.slug].provider == NullableOf(goal.Link(known))
  }

  /** The Provider that the new Application is linked to is attached, and has every managed value. */
  lemma LostRecordIsAdoptable(goal: Goal, marker: Marker, base: Status, known: Status)
    requires marker.server.Valid() && RecordLost(goal, marker, base, known)
    ensures RefusalFor(goal, marker.server) == if PatchValue(goal.spec.adopt, Never) == Never then Some(Unmanaged) else None
  {
    hide ApplicationConforms, DesiredApplication, Handler.Conforms, HandlerOf, ValidBindings, ValidApplications, ValidLinks,
      ValidOutposts, ValidRoles, MarkedBy;
    if goal.spec.provider.Some? {
      assert known.providerPk.value !in goal.Handler().value.OtherKeys(marker.server);
    }
  }

  /** Creates the Application and crashes: it is there without a record of it, unless it is recorded or was not created. */
  method CreateAndCrash(markers: MarkerCache, s: Resource, goal: Goal)
    requires markers.marker.server.Valid() && markers.Exact() && goal.spec.slug !in markers.marker.server.applications
    requires ProviderDone(goal, markers.marker.server, markers.marker.Marked(), s.status)
    requires Issued(s.base, markers.marker.server.sequence)
    modifies s, markers, markers.marker, markers.clock, markers.marker.server`applications, markers.marker.server`roles,
             markers.marker.server`sequence, markers.marker.server`grants, markers.marker.server`history
    ensures markers.marker.server.Valid() && markers.Exact() && s.status == s.base
    ensures goal.spec.slug in markers.marker.server.applications ==>
              || Recorded(goal.spec.slug, markers.marker.server.applications, s.base)
              || RecordLost(goal, markers.marker, s.base, old(s.status))
  {
    hide ValidBindings, ValidApplications, ValidLinks, ValidProviders, ValidOutposts, ValidRoles, MarkedBy, ApplicationConforms,
      DesiredApplication, MarksGrow, ProviderDone, Issued, Managed, MarkerCache.Exact, OnlyApplicationWrites;
    LinkOfDone(goal, markers.marker.server, markers.marker.Marked(), s.status);
    var created := CreateApplication(markers, s, goal.spec, goal.Link(s.status));
    MarksStay(old(markers.marker.Marked()), markers.marker.Marked());
    ProviderStillDone(goal, markers.marker.server, old(markers.marker.Marked()), markers.marker.Marked(), old(s.status),
                      old(s.status));
    Crash(markers, s);
  }

  /**
   The next run does not know the Application that was created, and short of a failed call it gets past adoption if and
   only if spec.adopt is IfMatch or Force; under Never it stops as unmanaged.
   */
  method ResumeAfterLostRecord(markers: MarkerCache, s: Resource, secret: CredentialsSecret, goal: Goal, ghost known: Status)
    returns (res: Result<()>)
    requires markers.marker.server.Valid() && markers.Exact() && goal.Valid() && AllSingle(markers.marker.server.bindings)
    requires RecordLost(goal, markers.marker, s.base, known)
    modifies s, secret, markers, markers.marker, markers.clock, markers.marker.server
    ensures var taken := old(ApplicationObject(markers.marker.server.applications[goal.spec.slug])) in markers.marker.Marked();
            if PatchValue(goal.spec.adopt, Never) == Never then !taken && (res == Err(Unavailable) || res == Err(Stop(Unmanaged)))
            else res != Err(Stop(Unmanaged)) && (taken || res == Err(Unavailable))
  {
    hide ValidBindings, ValidApplications, ValidLinks, ValidProviders, ValidOutposts, ValidRoles, MarkedBy, Done, SearchFor,
      CatalogOf, NameRefused, AcceptedCalls, AllSingle, Served, ValidRules, Recovers, Stuck, ManagedKeys, Kept, Exported,
      RefusalFor, NotAdopted, SceneOf, Relocated, OnlyMarkerWrites, ProviderDone, ApplicationConforms, DesiredApplication,
      Goal.Valid, MarkerCache.Exact, Goal.Link, Managed;
    ghost var base, seen := s.base, markers.marker.Marked();
    LostRecordIsAdoptable(goal, markers.marker, s.base, known);
    res := Reconcile(markers, s, secret, goal, true);
    if res == Err(Stop(Unmanaged)) {
      UnmanagedByNever(goal, markers, base, seen);
    }
  }

  lemma UnmanagedByNever(goal: Goal, markers: MarkerCache, base: Status, marked: set<Object>)
    requires NotAdopted(goal, markers, Stop(Unmanaged), base, marked)
    ensures PatchValue(goal.spec.adopt, Never) == Never
  {
  }

  lemma MarksStay(before: set<Object>, after: set<Object>)
    requires MarksGrow(before, after, ApplicationModel)
    ensures before <= after
  {}

  // ---------- retries ----------

  /**
   What all runs so far did to the Bindings. Without an Application nothing happened; with one, every rule was served
   safely all along, the runs are passes over its Bindings, and when every class was recoverable at the start, the
   Bindings created and the classes still open are together no more than the classes open at the start.
   */
  ghost predicate RunsServed(goal: Goal, applications: map<string, Application>, moments: seq<Moment>, start: Moment,
                             now: Moment, history: seq<Write>, begin: nat)
    requires goal.Valid()
  {
    && begin <= |history|
    && if goal.spec.slug in applications then
         Repeated(goal.resolved.rules, applications[goal.spec.slug].pbmUuid, start, moments, now, history, begin)
       else now == start && moments == [start] && KeepsBindings(history[..begin], history, start.bindings)
  }

  lemma RunsStart(goal: Goal, applications: map<string, Application>, start: Moment, history: seq<Write>)
    requires goal.Valid()
    ensures RunsServed(goal, applications, [start], start, start, history, |history|)
  {
    assert history[..|history|] == history;
    if goal.spec.slug in applications {
      NoneRepeated(goal.resolved.rules, applications[goal.spec.slug].pbmUuid, start, history);
    }
  }

  /** Without an Application, a run so far is a run over the Bindings of any target that did nothing. */
  lemma RunsBefore(goal: Goal, moments: seq<Moment>, start: Moment, now: Moment, history: seq<Write>, begin: nat, target: Key)
    requires goal.Valid() && AllSingle(start.bindings) && begin <= |history|
    requires now == start && moments == [start] && KeepsBindings(history[..begin], history, start.bindings)
    ensures Repeated(goal.resolved.rules, target, start, moments, now, history, begin)
  {
    SinglesOf(start.bindings, target);
    QuietIsSafe(history[..begin], history, start.bindings, target, goal.resolved.rules);
    PassesStart(goal.resolved.rules, target, start);
    NotCreated(history[..begin], history, start.bindings);
  }

  /** One more run. */
  lemma RunsNext(goal: Goal, applications: map<string, Application>, later: map<string, Application>, moments: seq<Moment>,
                 start: Moment, now: Moment, next: Moment, history: seq<Write>, longer: seq<Write>, begin: nat)
    requires goal.Valid() && AllSingle(start.bindings) && history <= longer
    requires RunsServed(goal, applications, moments, start, now, history, begin)
    requires OtherSlugsStay(goal.spec.slug, applications, later)
    requires Served(goal, later, now.bindings, now.managed, next.bindings, next.managed, longer, |history|)
    ensures RunsServed(goal, later, if goal.spec.slug in later then moments + [next] else [start], start, next, longer, begin)
  {
    if goal.spec.slug in later {
      var rules, target := goal.resolved.rules, later[goal.spec.slug].pbmUuid;
      if goal.spec.slug !in applications {
        RunsBefore(goal, moments, start, now, history, begin, target);
      }
      RepeatedNext(rules, target, start, moments, now, next, history, longer, begin, false);
    } else {
      hide AllSingle;
      assert longer[..begin] == history[..begin] && longer[..|history|] == history;
      KeepsBindingsChain(history[..begin], history, longer, start.bindings);
      assert Before(longer, begin, start.bindings, |longer|) == start.bindings;
    }
  }

  // ---------- what the retries leave alone ----------

  /** An attempt: what it started from, and how it ended. */
  datatype Trial = Trial(scene: Scene, res: Result<()>)

  predicate AsksForProxy(goal: Goal) {
    goal.spec.provider.Some? && goal.spec.provider.value.kind.ProxySpec?
  }

  /** The Outpost recorded is the one recorded at the start, or the new one, and then the Provider to take has left the former. */
  predicate LeftBehind(goal: Goal, was: Option<Key>, scene: Scene, selection: set<Key>) {
    AsksForProxy(goal) ==>
      || scene.base.outpostUuid == was
      || (&& scene.base.outpostUuid == Some(goal.resolved.proxy.outpost)
          && (was.Some? && was.value != goal.resolved.proxy.outpost && was.value in scene.outposts ==>
                forall p :: p in selection ==> p !in scene.outposts[was.value].providers))
  }

  /** Once the Application is recorded, spec.adopt never turns the operator away from it. */
  predicate NeverTurnedAway(slug: string, trials: seq<Trial>, now: Scene) {
    && (forall i, j :: 0 <= i <= j < |trials| && Recorded(slug, trials[i].scene.applications, trials[i].scene.base) ==>
          && Recorded(slug, trials[j].scene.applications, trials[j].scene.base)
          && trials[j].res != Err(Stop(Unmanaged)) && trials[j].res != Err(Stop(StopReason.AdoptionDiff)))
    && (forall i :: 0 <= i < |trials| && Recorded(slug, trials[i].scene.applications, trials[i].scene.base) ==>
          Recorded(slug, now.applications, now.base))
  }

  /** Providers and Application are as they were, or as the resource asks. */
  ghost predicate SceneAsAsked(goal: Goal, start: Scene, now: Scene) {
    && OnlyAsAsked(goal, start.proxies, start.oauth2s, now.proxies, now.oauth2s)
    && SlugAsAsked(goal.spec, start.applications, now.applications)
  }

  lemma SceneAskedTwice(goal: Goal, a: Scene, b: Scene, c: Scene)
    requires SceneAsAsked(goal, a, b) && SceneAsAsked(goal, b, c)
    requires goal.spec.slug in a.applications ==> goal.spec.slug in b.applications
    ensures SceneAsAsked(goal, a, c)
  {
    hide ProvidersAsAsked, SlugAsAsked;
    SlugAskedTwice(goal.spec, a.applications, b.applications, c.applications);
    AskedTwice(goal.spec, goal.resolved.flows, goal.resolved.proxy, goal.resolved.oauth2, goal.resolved.defaults, a.proxies,
               a.oauth2s, b.proxies, b.oauth2s, c.proxies, c.oauth2s);
  }

  lemma NothingAskedYet(goal: Goal, scene: Scene)
    ensures SceneAsAsked(goal, scene, scene)
  {
    SameAsAsked(goal, scene.proxies, scene.oauth2s);
    SameSlug(goal.spec, scene.applications);
  }

  /** What a run made of the objects of the scene that it started from. */
  lemma AskedOfScene(goal: Goal, scene: Scene, marker: Marker, status: Status)
    requires OnlyAsAsked(goal, scene.proxies, scene.oauth2s, marker.server.proxyProviders, marker.server.oauth2Providers)
    requires SlugAsAsked(goal.spec, scene.applications, marker.server.applications)
    ensures SceneAsAsked(goal, scene, SceneOf(marker, status, status))
  {
    hide OnlyAsAsked, SlugAsAsked;
  }

  /**
   What all runs so far left alone: the objects of others, what the spec does not give of its own, the record of the
   Application with its slug, and the Outpost that was left.
   */
  ghost predicate RunsConfined(goal: Goal, taken: set<Key>, selection: set<Key>, trials: seq<Trial>, start: Scene, now: Scene) {
    && OnlyOwn(goal.spec.slug, goal.resolved.proxy.outpost, taken, start, now)
    && SceneAsAsked(goal, start, now)
    && LeftBehind(goal, start.base.outpostUuid, now, selection)
    && NeverTurnedAway(goal.spec.slug, trials, now) && (BothNamed(goal.spec.slug, start) ==> BothNamed(goal.spec.slug, now))
    && (if trials == [] then now == start else trials[0].scene == start)
  }

  lemma ConfinedStart(goal: Goal, taken: set<Key>, start: Scene)
    ensures RunsConfined(goal, taken, taken, [], start, start)
  {
    NothingAskedYet(goal, start);
    NothingChanged(goal.spec.slug, goal.resolved.proxy.outpost, taken, start);
  }

  /** One more run. */
  lemma ConfinedNext(goal: Goal, search: Search, before: Search, after: Search, created: nat, refused: bool, more: nat,
                     again: bool, trials: seq<Trial>, start: Scene, now: Scene, next: Scene, run: Result<()>)
    requires RunsConfined(goal, search.selection, before.selection, trials, start, now)
    requires Recovers(search, before, start.Providers(), created, refused)
    requires Recovers(before, after, now.Providers(), more, again)
    requires Kept(goal.spec.slug, goal.resolved.proxy.outpost, before.selection, now, next) && SceneAsAsked(goal, now, next)
    requires now.status == now.base && next.status == next.base
    requires forall u :: u in now.outposts ==> Elements(now.outposts[u].providers) <= now.Providers()
    requires AsksForProxy(goal) && next.base.providerPk.Some? && next.base.providerPk.value in next.proxies ==>
               after.selection == {next.base.providerPk.value}
    requires Recorded(goal.spec.slug, now.applications, now.base) ==>
               run != Err(Stop(Unmanaged)) && run != Err(Stop(StopReason.AdoptionDiff))
    ensures RunsConfined(goal, search.selection, after.selection, trials + [Trial(now, run)], start, next)
  {
    hide SceneAsAsked;
    SceneAskedTwice(goal, start, now, next);
    OnlyOwnChain(goal.spec.slug, goal.resolved.proxy.outpost, search.selection, before.selection, start, now, next);
    LeftNext(goal, start.base.outpostUuid, now, next, before.selection, after.selection);
    TurnedNext(goal.spec.slug, trials, now, next, run);
  }

  lemma LeftNext(goal: Goal, was: Option<Key>, now: Scene, next: Scene, selection: set<Key>, later: set<Key>)
    requires LeftBehind(goal, was, now, selection)
    requires Kept(goal.spec.slug, goal.resolved.proxy.outpost, selection, now, next) && next.status == next.base
    requires later == selection || later !! now.Providers()
    requires forall u :: u in now.outposts ==> Elements(now.outposts[u].providers) <= now.Providers()
    requires AsksForProxy(goal) && next.base.providerPk.Some? && next.base.providerPk.value in next.proxies ==>
               later == {next.base.providerPk.value}
    ensures LeftBehind(goal, was, next, later)
  {
    hide OtherSlugsStay, OtherTargetsStay, OthersStay;
    var uuid := goal.resolved.proxy.outpost;
    if was.Some? && was.value != uuid && was.value in next.outposts {
      forall p | p in later && p in next.outposts[was.value].providers ensures p in selection {
        assert p in Elements(now.outposts[was.value].providers);
      }
    }
  }

  lemma TurnedNext(slug: string, trials: seq<Trial>, now: Scene, next: Scene, run: Result<()>)
    requires NeverTurnedAway(slug, trials, now)
    requires Recorded(slug, now.applications, now.base) ==>
               && Recorded(slug, next.applications, next.base)
               && run != Err(Stop(Unmanaged)) && run != Err(Stop(StopReason.AdoptionDiff))
    ensures NeverTurnedAway(slug, trials + [Trial(now, run)], next)
  {
    hide Recorded;
  }

  /** A recorded Application is managed, so spec.adopt is not consulted. */
  lemma StaysManaged(goal: Goal, markers: MarkerCache, now: Scene, taken: set<Key>, next: Scene, run: Result<()>)
    requires Kept(goal.spec.slug, goal.resolved.proxy.outpost, taken, now, next)
    requires next.applications == markers.marker.server.applications
    ensures Recorded(goal.spec.slug, now.applications, now.base) ==>
              forall error, marked :: !NotAdopted(goal, markers, error, now.base, marked)
  {}

  lemma MembersExist(marker: Marker, status: Status)
    requires marker.server.Valid()
    ensures var scene := SceneOf(marker, status, status);
            && scene.Providers() == marker.server.Providers()
            && scene.proxies == marker.server.proxyProviders && scene.oauth2s == marker.server.oauth2Providers
            && forall u :: u in scene.outposts ==> Elements(scene.outposts[u].providers) <= scene.Providers()
  {}

  /** A recorded Proxy Provider that exists is the one to take. */
  lemma SelectedIsRecorded(goal: Goal, marker: Marker, status: Status)
    ensures AsksForProxy(goal) && status.providerPk.Some? && status.providerPk.value in SceneOf(marker, status, status).proxies ==>
              SearchFor(goal, CatalogOf(marker.server), status.providerPk).selection == {status.providerPk.value}
  {
    if AsksForProxy(goal) && status.providerPk.Some? && status.providerPk.value in marker.server.proxyProviders {
      SelectionCases(goal.Handler().value, marker.server, goal.Name(), goal.spec.slug, status.providerPk);
    }
  }

  // ---------- the retries ----------

  /** What all runs since entry |begin| of the history did, from the scene and the moment that they started from. */
  ghost predicate Retried(goal: Goal, search: Search, begin: seq<Write>, start: Moment, first: Scene, moments: seq<Moment>,
                          trials: seq<Trial>, markers: MarkerCache, s: Resource)
    requires goal.Valid()
    reads markers.marker.server, s`base
  {
    var server, now := markers.marker.server, SearchFor(goal, CatalogOf(markers.marker.server), s.base.providerPk);
    && begin <= server.history && first.Providers() <= server.Providers()
    && Recovers(search, now, first.Providers(), AcceptedCalls(server.history, |begin|, CreateProviderCall),
                NameRefused(server.history, |begin|))
    && RunsServed(goal, server.applications, moments, start, Now(markers, s), server.history, |begin|)
    && RunsConfined(goal, search.selection, now.selection, trials, first, SceneOf(markers.marker, s.base, s.base))
  }

  lemma NothingRetried(goal: Goal, markers: MarkerCache, s: Resource)
    requires goal.Valid()
    ensures var server, scene := markers.marker.server, SceneOf(markers.marker, s.base, s.base);
            Retried(goal, SearchFor(goal, CatalogOf(server), s.base.providerPk), server.history, Now(markers, s), scene,
                    [Now(markers, s)], [], markers, s)
  {
    hide SearchFor, RunsServed, RunsConfined, Recovers, AcceptedCalls, NameRefused, CatalogOf, ManagedKeys, MarkedBy;
    var search := SearchFor(goal, CatalogOf(markers.marker.server), s.base.providerPk);
    ConfinedStart(goal, search.selection, SceneOf(markers.marker, s.base, s.base));
    RunsStart(goal, markers.marker.server.applications, Now(markers, s), markers.marker.server.history);
    NothingTried(search, markers.marker.server.Providers(), markers.marker.server.history);
  }

  /** One more run. */
  method ReconcileAgain(markers: MarkerCache, s: Resource, secret: CredentialsSecret, goal: Goal, ghost search: Search,
                        ghost begin: seq<Write>, ghost start: Moment, ghost first: Scene, ghost moments: seq<Moment>,
                        ghost trials: seq<Trial>)
    returns (run: Result<()>, ghost later: seq<Moment>)
    requires markers.marker.server.Valid() && markers.Exact() && goal.Valid() && AllSingle(markers.marker.server.bindings)
    requires AllSingle(start.bindings) && Retried(goal, search, begin, start, first, moments, trials, markers, s)
    modifies s, secret, markers, markers.marker, markers.clock, markers.marker.server
    ensures markers.marker.server.Valid() && markers.Exact() && AllSingle(markers.marker.server.bindings)
    ensures Retried(goal, search, begin, start, first, later, trials + [Trial(old(SceneOf(markers.marker, s.base, s.base)), run)],
                    markers, s)
    ensures run.Ok? ==>
              && s.base == s.status && Done(goal, markers.marker.server, markers.marker.Marked(), s.base)
              && (goal.spec.provider.Some? ==>
                    s.base.providerPk.Some? && SearchFor(goal, CatalogOf(markers.marker.server), s.base.providerPk).selection
                      == {s.base.providerPk.value})
    ensures old(Stuck(goal, CatalogOf(markers.marker.server), s.base.providerPk)) ==>
              run.Err? && Stuck(goal, CatalogOf(markers.marker.server), s.base.providerPk)
  {
    hide ValidBindings, ValidApplications, ValidLinks, ValidProviders, ValidOutposts, ValidRoles, MarkedBy, Done, SearchFor,
      NameRefused, AcceptedCalls, AllSingle, NotAdopted, Served, ValidRules, Recovers, Stuck, ManagedKeys, Exported, CatalogOf,
      RunsServed, MarkerCache.Exact, Goal.Valid, RunsConfined, SceneOf, Kept, RefusalFor, Unclaimed, AdoptionDecides, Relocated,
      OtherSlugsStay, Recorded, OnlyAsAsked, SlugAsAsked, SceneAsAsked;
    var server := markers.marker.server;
    ghost var history, before, now, scene :=
      server.history, SearchFor(goal, CatalogOf(server), s.base.providerPk), Now(markers, s),
      SceneOf(markers.marker, s.base, s.base);
    MembersExist(markers.marker, s.base);
    run := Reconcile(markers, s, secret, goal, true);
    AskedOfScene(goal, scene, markers.marker, s.base);
    ghost var after, next := SearchFor(goal, CatalogOf(server), s.base.providerPk), SceneOf(markers.marker, s.base, s.base);
    SelectedIsRecorded(goal, markers.marker, s.base);
    StaysManaged(goal, markers, scene, before.selection, next, run);
    ConfinedNext(goal, search, before, after, AcceptedCalls(history, |begin|, CreateProviderCall), NameRefused(history, |begin|),
                 AcceptedCalls(server.history, |history|, CreateProviderCall), NameRefused(server.history, |history|), trials,
                 first, scene, next, run);
    RunRecovers(search, before, after, first.Providers(), scene.Providers(), history, server.history, |begin|);
    TargetStays(goal.spec.slug, goal.resolved.proxy.outpost, before.selection, scene, next);
    RunsNext(goal, scene.applications, server.applications, moments, start, now, Now(markers, s), history, server.history, |begin|);
    later := if goal.spec.slug in server.applications then moments + [Now(markers, s)] else [start];
    if run.Ok? {
      TakenIsRecorded(goal, server, markers.marker.Marked(), s.base);
    }
  }

  /**
   Tries until a reconcile goes through or the attempts are used up, with failures and crashes anywhere in between. All
   attempts together create the Provider at most once, every later one takes that Provider again, none is refused for its
   name, no access right is lost, and nothing of another resource changes. Once the Application is recorded, no attempt is
   turned away from it, and the Outpost recorded at the start is left before another one is recorded. A Provider that the
   server does not let the operator repair keeps every attempt from going through.
   */
  method ReconcileUntilDone(markers: MarkerCache, s: Resource, secret: CredentialsSecret, goal: Goal, attempts: nat)
    returns (res: Result<()>, ghost moments: seq<Moment>, ghost trials: seq<Trial>)
    requires markers.marker.server.Valid() && markers.Exact() && goal.Valid() && AllSingle(markers.marker.server.bindings)
    modifies s, secret, markers, markers.marker, markers.clock, markers.marker.server
    ensures markers.marker.server.Valid() && markers.Exact() && AllSingle(markers.marker.server.bindings)
    ensures Retried(goal, old(SearchFor(goal, CatalogOf(markers.marker.server), s.base.providerPk)),
                    old(markers.marker.server.history), old(Now(markers, s)), old(SceneOf(markers.marker, s.base, s.base)),
                    moments, trials, markers, s)
    ensures Tried(trials, res, attempts)
    ensures old(Recorded(goal.spec.slug, markers.marker.server.applications, s.base)) ==>
              res != Err(Stop(Unmanaged)) && res != Err(Stop(StopReason.AdoptionDiff))
    ensures res.Ok? ==>
              && s.base == s.status && Done(goal, markers.marker.server, markers.marker.Marked(), s.base)
              && (goal.spec.provider.Some? ==>
                    s.base.providerPk.Some? && SearchFor(goal, CatalogOf(markers.marker.server), s.base.providerPk).selection
                      == {s.base.providerPk.value})
    ensures res.Ok? && AsksForProxy(goal) ==>
              LeftOutpost(old(s.base).outpostUuid, goal.resolved.proxy.outpost, markers.marker.server.outposts, s.base.providerPk)
    ensures old(Stuck(goal, CatalogOf(markers.marker.server), s.base.providerPk)) ==> res.Err?
  {
    hide ValidBindings, ValidApplications, ValidLinks, ValidProviders, ValidOutposts, ValidRoles, MarkedBy, Done, SearchFor,
      AllSingle, Stuck, ManagedKeys, CatalogOf, MarkerCache.Exact, Goal.Valid, Retried, SceneOf, Recorded;
    var server := markers.marker.server;
    ghost var start, first, search, begin :=
      Now(markers, s), SceneOf(markers.marker, s.base, s.base), SearchFor(goal, CatalogOf(server), s.base.providerPk),
        server.history;
    moments, trials := [start], [];
    NothingRetried(goal, markers, s);
    res := Err(Unavailable);
    for attempt := 0 to attempts
      invariant server.Valid() && markers.Exact() && AllSingle(server.bindings)
      invariant Retried(goal, search, begin, start, first, moments, trials, markers, s)
      invariant old(Stuck(goal, CatalogOf(server), s.base.providerPk)) ==> Stuck(goal, CatalogOf(server), s.base.providerPk)
      invariant res.Err? && |trials| == attempt && Tried(trials, res, attempt)
    {
      ghost var scene := SceneOf(markers.marker, s.base, s.base);
      res, moments := ReconcileAgain(markers, s, secret, goal, search, begin, start, first, moments, trials);
      trials := trials + [Trial(scene, res)];
      if res.Ok? {
        LeftAtLast(goal, search, begin, start, first, moments, trials, markers, s);
        break;
      }
      if * {
        Crash(markers, s);
      }
    }
    NotTurnedAway(goal, search, begin, start, first, moments, trials, markers, s, res, attempts);
  }

  /** The attempts end with the result, which only the last one can have gone through with. */
  predicate Tried(trials: seq<Trial>, res: Result<()>, attempts: nat) {
    && |trials| <= attempts && (res.Err? ==> |trials| == attempts)
    && (if trials == [] then res == Err(Unavailable) else trials[|trials| - 1].res == res)
    && (forall i :: 0 <= i < |trials| - 1 ==> trials[i].res.Err?)
  }

  lemma NotTurnedAway(goal: Goal, search: Search, begin: seq<Write>, start: Moment, first: Scene, moments: seq<Moment>,
                      trials: seq<Trial>, markers: MarkerCache, s: Resource, res: Result<()>, attempts: nat)
    requires goal.Valid() && Retried(goal, search, begin, start, first, moments, trials, markers, s) && Tried(trials, res, attempts)
    ensures Recorded(goal.spec.slug, first.applications, first.base) ==>
              res != Err(Stop(Unmanaged)) && res != Err(Stop(StopReason.AdoptionDiff))
  {
    hide SearchFor, RunsServed, Recovers, AcceptedCalls, NameRefused, CatalogOf, ManagedKeys, MarkedBy, OnlyOwn, LeftBehind,
      Goal.Valid, SceneOf;
  }

  /** The Provider is not in the Outpost that was recorded, unless that is the one it belongs to. */
  predicate LeftOutpost(was: Option<Key>, uuid: Key, outposts: map<Key, Outpost>, pk: Option<Key>) {
    was.Some? && was.value != uuid && was.value in outposts && pk.Some? ==> pk.value !in outposts[was.value].providers
  }

  lemma LeftAtLast(goal: Goal, search: Search, begin: seq<Write>, start: Moment, first: Scene, moments: seq<Moment>,
                   trials: seq<Trial>, markers: MarkerCache, s: Resource)
    requires goal.Valid() && Retried(goal, search, begin, start, first, moments, trials, markers, s)
    requires Done(goal, markers.marker.server, markers.marker.Marked(), s.base)
    requires goal.spec.provider.Some? ==>
               s.base.providerPk.Some? && SearchFor(goal, CatalogOf(markers.marker.server), s.base.providerPk).selection
                 == {s.base.providerPk.value}
    ensures AsksForProxy(goal) ==>
              LeftOutpost(first.base.outpostUuid, goal.resolved.proxy.outpost, markers.marker.server.outposts, s.base.providerPk)
  {
    hide SearchFor, RunsServed, Recovers, AcceptedCalls, NameRefused, CatalogOf, ManagedKeys, MarkedBy, OnlyOwn, NeverTurnedAway,
      ApplicationDone, BindingsDone, Handler.Conforms, Goal.Valid;
    if AsksForProxy(goal) {
      assert s.base.outpostUuid == Some(goal.resolved.proxy.outpost);
      assert s.base.providerPk.value in SearchFor(goal, CatalogOf(markers.marker.server), s.base.providerPk).selection;
    }
  }

  lemma NothingTried(search: Search, known: set<Key>, history: seq<Write>)
    ensures Recovers(search, search, known, AcceptedCalls(history, |history|, CreateProviderCall), NameRefused(history, |history|))
  {
    NothingCreated(history, history);
  }

  lemma RunRecovers(search: Search, before: Search, after: Search, known: set<Key>, providers: set<Key>, history: seq<Write>,
                    longer: seq<Write>, start: nat)
    requires history <= longer && start <= |history| && known <= providers
    requires Recovers(search, before, known, AcceptedCalls(history, start, CreateProviderCall), NameRefused(history, start))
    requires Recovers(before, after, providers, AcceptedCalls(longer, |history|, CreateProviderCall),
                      NameRefused(longer, |history|))
    ensures Recovers(search, after, known, AcceptedCalls(longer, start, CreateProviderCall), NameRefused(longer, start))
  {
    AcceptedAdd(history, longer, start, CreateProviderCall);
    NoneRefusedBefore(history, longer, start);
    RecoversChain(search, before, after, known, providers, AcceptedCalls(history, start, CreateProviderCall),
                  AcceptedCalls(longer, |history|, CreateProviderCall), NameRefused(history, start),
                  NameRefused(longer, |history|));
  }

  lemma TakenIsRecorded(goal: Goal, server: Authentik, marked: set<Object>, status: Status)
    requires goal.Valid() && Done(goal, server, marked, status)
    ensures goal.spec.provider.Some? ==>
              status.providerPk.Some? && SearchFor(goal, CatalogOf(server), status.providerPk).selection
                == {status.providerPk.value}
  {
    DoneSearch(goal, server, marked, status);
  }
}
