/** Observing, creating, and repairing the Application (internal/controller/application.go). */
module Applications {
  import opened Base
  import opened Api
  import opened Patch
  import opened Server
  import opened Ownership
  import opened Desired
  import opened Specified
  import opened Resources
  import opened Providers
  import opened Adoption

  function ApplicationObject(application: Application): Object {
    Object(ApplicationModel, application.pk)
  }

  /** The operator knows that it manages the Application: it recorded the pk, or the marker is there. */
  ghost predicate Managed(application: Application, status: Status, marked: set<Object>) {
    status.applicationPk == Some(application.pk) || ApplicationObject(application) in marked
  }

  /** The Application under the slug is recorded. */
  predicate Recorded(slug: string, applications: map<string, Application>, status: Status) {
    slug in applications && status.applicationPk == Some(applications[slug].pk)
  }

  /** The slug is recorded together with the pk; a deletion looks the Application up by it. */
  predicate Named(slug: string, status: Status) {
    if status.applicationPk.Some? then status.applicationSlug == Some(slug) else status.applicationSlug.None?
  }

  /** The Application is recorded and marked. */
  ghost predicate Owned(application: Application, status: Status, marked: set<Object>) {
    status.applicationPk == Some(application.pk) && ApplicationObject(application) in marked
  }

  /** The Application exists, and the operator does not know it. */
  ghost predicate Unclaimed(marker: Marker, slug: string, status: Status)
    reads marker.server`applications, marker.server`roles, marker.server`grants
  {
    slug in marker.server.applications && !Managed(marker.server.applications[slug], status, marker.Marked())
  }

  lemma ApplicationExists(server: Authentik, slug: string)
    requires slug in server.applications
    ensures server.ObjectExists(ApplicationObject(server.applications[slug]))
  {}

  /** Records the pk before attaching the marker. */
  method RecordApplication(markers: MarkerCache, s: Resource, application: Application) returns (res: Result<()>)
    requires markers.marker.server.Valid() && markers.Exact()
    requires IsApplication(markers.marker.server, application.slug, Some(application))
    modifies s, markers, markers.marker, markers.clock, markers.marker.server`roles, markers.marker.server`sequence,
             markers.marker.server`grants, markers.marker.server`history
    ensures markers.marker.server.Valid() && markers.Exact()
    ensures OnlyMarkerWrites(old(markers.marker.server.history), markers.marker.server.history, markers.marker.server.bindings,
                             markers.marker.server.outposts)
    ensures markers.marker.Marked() ==
            if res.Ok? then old(markers.marker.Marked()) + {ApplicationObject(application)} else old(markers.marker.Marked())
    ensures s.status == old(s.status).(applicationSlug := Some(application.slug), applicationPk := Some(application.pk))
    ensures s.base == old(s.base) || s.base == s.status
    ensures res.Ok? ==> s.base == s.status
    ensures ApplicationObject(application) in markers.marker.Marked() - old(markers.marker.Marked()) ==> s.base == s.status
    ensures res.Err? ==> res.error == Unavailable
  {
    hide ValidBindings, ValidApplications, ValidLinks, ValidProviders, ValidOutposts, ValidRoles, MarkedBy;
    s.status := s.status.(applicationSlug := Some(application.slug), applicationPk := Some(application.pk));
    var patched := s.PatchStatus();
    if patched.Err? {
      return patched;
    }
    ApplicationExists(markers.marker.server, application.slug);
    res := markers.Ensure(ApplicationObject(application));
  }

  /** The error says why spec.adopt keeps the operator from taking the Application. */
  ghost predicate Refuses(server: Authentik, spec: Spec, h: Option<Handler>, application: Application, error: Error)
    reads server`proxyProviders, server`oauth2Providers
  {
    Refusal(server, spec, h, application).Some? && error == Stop(Refusal(server, spec, h, application).value)
  }

  /** The recorded pk shows that the operator manages the Application, so a lost marker is attached again. */
  method MarkAgain(markers: MarkerCache, application: Application) returns (res: Result<()>)
    requires markers.marker.server.Valid() && markers.Exact()
    requires IsApplication(markers.marker.server, application.slug, Some(application))
    modifies markers, markers.marker, markers.clock, markers.marker.server`roles, markers.marker.server`sequence,
             markers.marker.server`grants, markers.marker.server`history
    ensures markers.marker.server.Valid() && markers.Exact()
    ensures OnlyMarkerWrites(old(markers.marker.server.history), markers.marker.server.history, markers.marker.server.bindings,
                             markers.marker.server.outposts)
    ensures markers.marker.Marked() ==
            if res.Ok? then old(markers.marker.Marked()) + {ApplicationObject(application)} else old(markers.marker.Marked())
    ensures res.Err? ==> res.error == Unavailable
    ensures ApplicationObject(application) in old(markers.marker.Marked()) ==>
              markers.marker.server.history == old(markers.marker.server.history)
  {
    hide ValidBindings, ValidApplications, ValidLinks, ValidProviders, ValidOutposts, ValidRoles, MarkedBy;
    ApplicationExists(markers.marker.server, application.slug);
    res := markers.Ensure(ApplicationObject(application));
  }

  /** Whether an Application whose pk is not recorded may be taken: it is marked, or spec.adopt lets it be. */
  method MayTake(markers: MarkerCache, s: Resource, spec: Spec, h: Option<Handler>, application: Application)
    returns (res: Result<()>)
    requires markers.marker.server.Valid() && markers.Exact()
    modifies s`status, markers, markers.marker, markers.clock, markers.marker.server`roles, markers.marker.server`sequence,
             markers.marker.server`history
    ensures markers.marker.server.Valid() && markers.Exact() && markers.marker.Marked() == old(markers.marker.Marked())
    ensures OnlyMarkerWrites(old(markers.marker.server.history), markers.marker.server.history, markers.marker.server.bindings,
                             markers.marker.server.outposts)
    ensures s.status == old(s.status).(adoptionDiff := s.status.adoptionDiff) && (res.Ok? ==> s.status == old(s.status))
    ensures res.Ok? && ApplicationObject(application) !in markers.marker.Marked() ==>
              Refusal(markers.marker.server, spec, h, application).None?
    ensures res.Err? ==>
              || res.error == Unavailable
              || (&& ApplicationObject(application) !in markers.marker.Marked()
                  && Refuses(markers.marker.server, spec, h, application, res.error)
                  && (res.error == Stop(StopReason.AdoptionDiff) ==>
                        && s.status.adoptionDiff != []
                        && NamesDifferences(s.status.adoptionDiff, markers.marker.server, spec, h, application)))
  {
    hide ValidBindings, ValidApplications, ValidLinks, ValidProviders, ValidOutposts, ValidRoles, MarkedBy, Refusal,
      NamesDifferences;
    var managed := markers.IsManaged(ApplicationObject(application));
    if managed.Err? {
      return Err(managed.error);
    }
    if managed.value {
      return Ok(());
    }
    res := AdoptApplication(markers.marker.server, s, spec, h, application);
  }

  /**
   observeApplication. A managed Application is taken without consulting spec.adopt; an unmanaged one is taken
   exactly as spec.adopt decides, and a stop writes nothing but possibly the ownership role.
   */
  method ObserveApplication(markers: MarkerCache, s: Resource, spec: Spec, h: Option<Handler>)
    returns (res: Result<Option<Application>>)
    requires markers.marker.server.Valid() && markers.Exact()
    modifies s, markers, markers.marker, markers.clock, markers.marker.server`roles, markers.marker.server`sequence,
             markers.marker.server`grants, markers.marker.server`history
    ensures markers.marker.server.Valid() && markers.Exact()
    ensures OnlyMarkerWrites(old(markers.marker.server.history), markers.marker.server.history, markers.marker.server.bindings,
                             markers.marker.server.outposts)
    ensures MarksGrow(old(markers.marker.Marked()), markers.marker.Marked(), ApplicationModel)
    ensures s.status == old(s.status).(applicationSlug := s.status.applicationSlug, applicationPk := s.status.applicationPk,
                                       adoptionDiff := s.status.adoptionDiff)
    ensures s.base == old(s.base) || s.base == s.status
    ensures Named(spec.slug, old(s.status)) ==> Named(spec.slug, s.status)
    ensures res.Ok? ==> IsApplication(markers.marker.server, spec.slug, res.value)
    ensures res.Ok? && res.value.None? ==>
              && s.status.applicationPk.None? && s.base == old(s.base)
              && (old(s.status).applicationPk.None? ==> s.status == old(s.status))
              && markers.marker.server.history == old(markers.marker.server.history)
    ensures res.Ok? && res.value.Some? ==>
              var application := res.value.value;
              && s.status.applicationPk == Some(application.pk) && ApplicationObject(application) in markers.marker.Marked()
              && (if old(s.status).applicationPk == Some(application.pk) then s.status == old(s.status) && s.base == old(s.base)
                  else s.base == s.status && s.status.applicationSlug == Some(spec.slug))
              && (!Managed(application, old(s.status), old(markers.marker.Marked())) ==>
                    Refusal(markers.marker.server, spec, h, application).None?)
    ensures res.Err? ==>
              || res.error == Unavailable
              || (&& spec.slug in markers.marker.server.applications
                  && var application := markers.marker.server.applications[spec.slug];
                     && !Managed(application, old(s.status), old(markers.marker.Marked()))
                     && Refuses(markers.marker.server, spec, h, application, res.error)
                     && (res.error == Stop(StopReason.AdoptionDiff) ==>
                           && s.status.adoptionDiff != []
                           && NamesDifferences(s.status.adoptionDiff, markers.marker.server, spec, h, application))
                     && s.base == old(s.base) && markers.marker.server.grants == old(markers.marker.server.grants))
    ensures old(Unclaimed(markers.marker, spec.slug, s.status)) ==>
              var refusal := Refusal(markers.marker.server, spec, h, markers.marker.server.applications[spec.slug]);
              refusal.Some? ==>
                && markers.marker.Marked() == old(markers.marker.Marked())
                && (res == Err(Unavailable) || res == Err(Stop(refusal.value)))
    ensures old(Recorded(spec.slug, markers.marker.server.applications, s.status)) ==>
              s.status == old(s.status) && s.base == old(s.base)
    ensures old(spec.slug in markers.marker.server.applications
                && Owned(markers.marker.server.applications[spec.slug], s.status, markers.marker.Marked())) ==>
              && markers.marker.server.history == old(markers.marker.server.history) && s.status == old(s.status)
              && s.base == old(s.base)
              && (res.Err? ==> res.error == Unavailable)
  {
    hide ValidBindings, ValidApplications, ValidLinks, ValidProviders, ValidOutposts, ValidRoles, MarkedBy, Refusal,
      MarkerCache.Exact, NamesDifferences;
    var server := markers.marker.server;
    Fresh(server.bindings, server.applications, server.proxyProviders, server.oauth2Providers, server.sequence);
    var got := server.GetApplication(spec.slug);
    if got.Err? {
      if got.error == NotFound {
        if s.status.applicationPk.Some? {
          s.status := s.status.(applicationSlug := None, applicationPk := None);
        }
        return Ok(None);
      }
      return Err(got.error);
    }
    var application := got.value;
    if s.status.applicationPk == Some(application.pk) {
      var ensured := MarkAgain(markers, application);
      return if ensured.Ok? then Ok(Some(application)) else Err(ensured.error);
    }
    var taken := MayTake(markers, s, spec, h, application);
    if taken.Err? {
      return Err(taken.error);
    }
    var recorded := RecordApplication(markers, s, application);
    return if recorded.Ok? then Ok(Some(application)) else Err(recorded.error);
  }

  /** Requests that leave Bindings and Outposts as they are. */
  ghost predicate OnlyApplicationWrites(before: seq<Write>, after: seq<Write>, bindings: map<Key, Binding>,
                                        outposts: map<Key, Outpost>) {
    && before <= after
    && forall k :: |before| <= k < |after| ==>
         && after[k].bindings == bindings && after[k].outposts == outposts
         && (RoleCall(after[k].call) || after[k].call.CreateApplicationCall? || after[k].call.PatchApplicationCall?)
  }

  lemma CreatedApplicationConforms(spec: Spec, providerPk: Option<Key>, pk: Key)
    ensures var request := CreateApplicationRequest(spec.slug, DesiredApplication(spec, providerPk));
            var stored := StoredApplication(request, pk);
            && request.slug == spec.slug == stored.slug && stored.pk == pk
            && request.provider == NullableOf(providerPk) == stored.provider
            && ApplicationConforms(DesiredApplication(spec, providerPk), stored)
            && ApplicationConforms(DesiredApplication(spec, None), stored)
            && ApplicationFrame(DesiredApplication(spec, providerPk), NewApplication(pk, spec.slug), stored)
  {}

  /** The recorded pk of the Application was issued by the server. */
  predicate Issued(status: Status, sequence: nat) {
    status.applicationPk.Some? ==> status.applicationPk.value <= sequence
  }

  /** An Application after the Diff was sent. */
  function Repaired(desired: PatchedApplication, observed: Application): Application {
    var diff := DiffApplication(desired, observed);
    if diff.None? then observed else ApplyApplication(diff.value, observed)
  }

  lemma PatchedApplicationConforms(spec: Spec, providerPk: Option<Key>, observed: Application)
    ensures var diff := DiffApplication(DesiredApplication(spec, providerPk), observed);
            if diff.None? then ApplicationConforms(DesiredApplication(spec, providerPk), observed)
            else
              var after := ApplyApplication(diff.value, observed);
              && !ApplicationConforms(DesiredApplication(spec, providerPk), observed)
              && diff.value.slug.None? && after.pk == observed.pk && after.pbmUuid == observed.pbmUuid
              && after.slug == observed.slug
              && ApplicationConforms(DesiredApplication(spec, providerPk), after)
              && ApplicationFrame(DesiredApplication(spec, providerPk), observed, after)
  {
    var desired := DesiredApplication(spec, providerPk);
    ApplicationDiffExact(desired, observed);
    if DiffApplication(desired, observed).Some? {
      ApplicationConverges(desired, observed);
    }
  }

  /** reconcileApplication, for an Application that exists: patches the managed fields that differ. */
  method RepairApplication(server: Authentik, spec: Spec, observed: Application, providerPk: Option<Key>)
    returns (res: Result<Application>)
    requires server.Valid() && IsApplication(server, spec.slug, Some(observed)) && (providerPk.Some? <==> spec.provider.Some?)
    modifies server`applications, server`history
    ensures server.Valid() && spec.slug in server.applications
    ensures server.applications == old(server.applications)[spec.slug := server.applications[spec.slug]]
    ensures OnlyApplicationWrites(old(server.history), server.history, server.bindings, server.outposts)
    ensures res.Ok? ==>
              && res.value == server.applications[spec.slug] && ApplicationConforms(DesiredApplication(spec, providerPk), res.value)
              && res.value.pk == observed.pk && res.value.pbmUuid == observed.pbmUuid
              && ApplicationFrame(DesiredApplication(spec, providerPk), observed, res.value)
              && res.value == Repaired(DesiredApplication(spec, providerPk), observed)
    ensures SlugAsAsked(spec, old(server.applications), server.applications)
    ensures res.Err? ==> server.applications == old(server.applications)
    ensures res.Err? ==>
              || res.error == Unavailable
              || (res.error == BadRequest && !ProviderAttachable(server.applications, server.Providers(),
                                                                 NullableOf(providerPk), Some(spec.slug)))
    ensures ApplicationConforms(DesiredApplication(spec, providerPk), observed) ==>
              res == Ok(observed) && server.history == old(server.history) && server.applications == old(server.applications)
  {
    hide ValidBindings, ValidApplications, ValidLinks, ValidProviders, ValidOutposts, ValidRoles, ApplicationConforms,
      ApplyApplication, ApplicationFrame, SlugAsAsked;
    SameSlug(spec, server.applications);
    Fresh(server.bindings, server.applications, server.proxyProviders, server.oauth2Providers, server.sequence);
    PatchedApplicationConforms(spec, providerPk, observed);
    UnchangedFrame(spec, providerPk, observed);
    var patch := DiffApplication(DesiredApplication(spec, providerPk), observed);
    if patch.None? {
      assert server.applications == server.applications[spec.slug := observed];
      return Ok(observed);
    }
    LinkOfPatch(spec, providerPk, observed);
    res := server.PatchApplication(spec.slug, patch.value);
    assert res.Err? ==> server.applications == server.applications[spec.slug := observed];
    if res.Ok? {
      OneAsAsked(spec, providerPk, old(server.applications), server.applications, observed, res.value);
    }
  }

  /** The Application under the slug has every managed value, and apart from that what it had, or what a new one has. */
  lemma OneAsAsked(spec: Spec, providerPk: Option<Key>, before: map<string, Application>, now: map<string, Application>,
                   was: Application, application: Application)
    requires spec.slug in now && now[spec.slug] == application && (providerPk.Some? <==> spec.provider.Some?)
    requires was == if spec.slug in before then before[spec.slug] else NewApplication(application.pk, spec.slug)
    requires ApplicationConforms(DesiredApplication(spec, providerPk), application)
             && ApplicationFrame(DesiredApplication(spec, providerPk), was, application)
    ensures SlugAsAsked(spec, before, now)
  {
    hide ApplicationConforms, ApplicationFrame, ApplicationAsAsked;
    ApplicationAsked(spec, providerPk, was, application);
  }

  lemma UnchangedFrame(spec: Spec, providerPk: Option<Key>, observed: Application)
    ensures ApplicationFrame(DesiredApplication(spec, providerPk), observed, observed)
  {}

  lemma LinkOfPatch(spec: Spec, providerPk: Option<Key>, observed: Application)
    requires DiffApplication(DesiredApplication(spec, providerPk), observed).Some?
    ensures var link := DiffApplication(DesiredApplication(spec, providerPk), observed).value.provider;
            link == Unset || link == NullableOf(providerPk)
  {}

  /** reconcileApplication, for an Application that does not exist: creates, records, and marks it, in this order. */
  method CreateApplication(markers: MarkerCache, s: Resource, spec: Spec, providerPk: Option<Key>)
    returns (res: Result<Application>)
    requires markers.marker.server.Valid() && markers.Exact() && spec.slug !in markers.marker.server.applications
    requires providerPk.Some? <==> spec.provider.Some?
    modifies s, markers, markers.marker, markers.clock, markers.marker.server`applications, markers.marker.server`roles,
             markers.marker.server`sequence, markers.marker.server`grants, markers.marker.server`history
    ensures markers.marker.server.Valid() && markers.Exact()
    ensures MarksGrow(old(markers.marker.Marked()), markers.marker.Marked(), ApplicationModel)
    ensures OnlyApplicationWrites(old(markers.marker.server.history), markers.marker.server.history,
                                  markers.marker.server.bindings, markers.marker.server.outposts)
    ensures s.status == old(s.status).(applicationSlug := s.status.applicationSlug, applicationPk := s.status.applicationPk)
    ensures s.base == old(s.base) || s.base == s.status
    ensures Named(spec.slug, old(s.status)) ==> Named(spec.slug, s.status)
    ensures s.base != old(s.base) ==> Recorded(spec.slug, markers.marker.server.applications, s.base)
    ensures markers.marker.server.applications == old(markers.marker.server.applications) ||
            (&& spec.slug in markers.marker.server.applications
             && markers.marker.server.applications
               == old(markers.marker.server.applications)[spec.slug := markers.marker.server.applications[spec.slug]]
             && ApplicationConforms(DesiredApplication(spec, providerPk), markers.marker.server.applications[spec.slug]))
    ensures SlugAsAsked(spec, old(markers.marker.server.applications), markers.marker.server.applications)
    ensures res.Err? && s.base == old(s.base) && Issued(old(s.base), old(markers.marker.server.sequence))
            && markers.marker.server.applications != old(markers.marker.server.applications) ==>
              && Unclaimed(markers.marker, spec.slug, s.base)
              && ApplicationConforms(DesiredApplication(spec, None), markers.marker.server.applications[spec.slug])
              && markers.marker.server.applications[spec.slug].provider == NullableOf(providerPk)
    ensures res.Ok? ==>
              && IsApplication(markers.marker.server, spec.slug, Some(res.value)) && res.value.slug == spec.slug
              && ApplicationConforms(DesiredApplication(spec, providerPk), res.value)
              && s.base == s.status && Owned(res.value, s.status, markers.marker.Marked())
    ensures res.Err? && res.error != Unavailable ==>
              && res.error == BadRequest && !ProviderAttachable(old(markers.marker.server.applications),
                                                                markers.marker.server.Providers(), NullableOf(providerPk), None)
              && markers.marker.server.applications == old(markers.marker.server.applications)
  {
    hide ValidBindings, ValidApplications, ValidLinks, ValidProviders, ValidOutposts, ValidRoles, MarkedBy, ApplicationConforms,
      StoredApplication, CreateApplicationRequest, DesiredApplication, SlugAsAsked, ApplicationFrame;
    var server := markers.marker.server;
    SameSlug(spec, server.applications);
    CreatedApplicationConforms(spec, providerPk, server.sequence + 1);
    MarkedWereIssued(server.roles, server.grants, server.sequence, markers.marker.roleName);
    DesiredHasName(spec, providerPk);
    var created := server.CreateApplication(CreateApplicationRequest(spec.slug, DesiredApplication(spec, providerPk)));
    if created.Err? {
      return Err(created.error);
    }
    OneAsAsked(spec, providerPk, old(server.applications), server.applications, NewApplication(created.value.pk, spec.slug),
               created.value);
    var recorded := RecordApplication(markers, s, created.value);
    return if recorded.Ok? then Ok(created.value) else Err(recorded.error);
  }

  lemma DesiredHasName(spec: Spec, providerPk: Option<Key>)
    ensures DesiredApplication(spec, providerPk).name.Some?
  {}
}
