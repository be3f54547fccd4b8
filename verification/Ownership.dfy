/**
 Ownership markers (internal/ownership/marker.go, internal/controller/markers.go): permissions on objects assigned to
 one role, a cache of the marker list that expires, and the collector of markers whose object is gone.
 */
module Ownership {
  import opened Base
  import opened Api
  import opened Server

  /** A clock that never goes back. */
  class Clock {
    var time: int

    method Now() returns (now: int)
      modifies this
      ensures now == time && old(time) <= time
    {
      var passed: int :| 0 <= passed;
      time := time + passed;
      return time;
    }
  }

  lemma NewRoleMarksNothing(roles: map<Key, string>, grants: set<Grant>, sequence: nat, name: string, role: Key)
    requires ValidRoles(roles, grants, sequence) && role > sequence
    ensures role !in roles && MarkedBy(roles[role := name], grants, name) == MarkedBy(roles, grants, name)
  {
    var more := roles[role := name];
    forall g | g in grants ensures g.role in roles && g.role != role && more[g.role] == roles[g.role] {}
  }

  lemma MarkedNeedsRole(roles: map<Key, string>, grants: set<Grant>, name: string, obj: Object)
    ensures obj in MarkedBy(roles, grants, name) ==> name in roles.Values
  {}

  /** The server keeps role names unique, so the lookup by name is never ambiguous. */
  lemma OneRolePerName(roles: map<Key, string>, grants: set<Grant>, sequence: nat, name: string, found: seq<Key>)
    requires ValidRoles(roles, grants, sequence) && Elements(found) == set k | k in roles && roles[k] == name
    requires |found| == |Elements(found)|
    ensures |found| <= 1
  {
    if role :| role in Elements(found) {
      assert Elements(found) == {role};
    }
  }

  /** Attaches, removes, and looks up markers with the ownership role, whose UUID it remembers. */
  class Marker {
    const server: Authentik
    const roleName: string
    var roleUUID: Option<Key>

    constructor (server: Authentik, roleName: string)
      ensures this.server == server && this.roleName == roleName && roleUUID == None
    {
      this.server, this.roleName, this.roleUUID := server, roleName, None;
    }

    /** The remembered role is the role with the name; false after someone deleted the role. */
    ghost predicate RoleKnown()
      reads this`roleUUID, server`roles
    {
      roleUUID.Some? ==> roleUUID.value in server.roles && server.roles[roleUUID.value] == roleName
    }

    ghost function Marked(): set<Object>
      reads server`roles, server`grants
    {
      server.Marked(roleName)
    }

    ghost predicate RoleExists()
      reads server`roles
    {
      roleName in server.roles.Values
    }

    /** No role disappeared and nothing but roles and markers was requested. */
    twostate predicate MarkerStep()
      reads server
    {
      && (forall k :: k in old(server.roles) ==> k in server.roles && server.roles[k] == old(server.roles)[k])
      && OnlyMarkerWrites(old(server.history), server.history, server.bindings, server.outposts)
      && (old(RoleExists()) ==> server.roles == old(server.roles))
      && old(server.sequence) <= server.sequence
    }

    method FindRole() returns (res: Result<Option<Key>>)
      requires server.Valid()
      ensures res.Ok? && res.value.Some? ==> res.value.value in server.roles && server.roles[res.value.value] == roleName
      ensures res.Ok? && res.value.None? ==> !RoleExists()
      ensures res.Err? ==> res.error == Unavailable
    {
      var roles := server.FindRolesByName(roleName);
      if roles.Err? {
        return Err(roles.error);
      }
      var found := roles.value;
      OneRolePerName(server.roles, server.grants, server.sequence, roleName, found);
      if |found| == 0 {
        assert forall k :: k in server.roles && server.roles[k] == roleName ==> k in Elements(found);
        return Ok(None);
      } else if |found| == 1 {
        assert found[0] in Elements(found);
        return Ok(Some(found[0]));
      } else {
        return Err(AmbiguousRole);
      }
    }

    /** Another replica may create the role at any moment; here, right before this one does. */
    method OtherReplica()
      requires server.Valid()
      modifies server`roles, server`sequence
      ensures server.Valid() && Marked() == old(Marked()) && old(server.sequence) <= server.sequence
      ensures server.roles == old(server.roles) ||
              (!old(RoleExists()) && server.roles == old(server.roles)[server.sequence := roleName]
               && server.sequence !in old(server.roles))
    {
      hide ValidBindings, ValidApplications, ValidLinks, ValidProviders, ValidOutposts, ValidRoles, MarkedBy;
      if * {
        if roleName !in server.roles.Values {
          SequenceGrows(server.bindings, server.applications, server.proxyProviders, server.oauth2Providers, server.roles,
                        server.grants, server.sequence);
          AddRoleValid(server.roles, server.grants, server.sequence, roleName);
          NewRoleMarksNothing(server.roles, server.grants, server.sequence, roleName, server.sequence + 1);
          server.sequence := server.sequence + 1;
          server.roles := server.roles[server.sequence := roleName];
        }
      }
    }

    /** Losing the race for the role's creation is not a failure: the winner's role is used. */
    method FindOrCreateRole() returns (res: Result<Key>)
      requires server.Valid()
      modifies server`roles, server`sequence, server`history
      ensures server.Valid() && MarkerStep() && Marked() == old(Marked())
      ensures res.Ok? ==> res.value in server.roles && server.roles[res.value] == roleName
      ensures res.Err? ==> res.error == Unavailable
      ensures old(RoleExists()) ==> server.history == old(server.history)
    {
      hide ValidBindings, ValidApplications, ValidLinks, ValidProviders, ValidOutposts, ValidRoles, MarkedBy;
      var found := FindRole();
      if found.Err? {
        return Err(found.error);
      } else if found.value.Some? {
        return Ok(found.value.value);
      }
      OtherReplica();
      NewRoleMarksNothing(server.roles, server.grants, server.sequence, roleName, server.sequence + 1);
      var created := server.CreateRole(roleName);
      if created.Ok? {
        return Ok(created.value);
      }
      found := FindRole();
      if found.Err? {
        return Err(found.error);
      } else if found.value.None? {
        return Err(created.error);
      }
      return Ok(found.value.value);
    }

    /** Returns the UUID of the role and the one remembered before. */
    method EnsureRole() returns (res: Result<(Key, Option<Key>)>)
      requires server.Valid()
      modifies this, server`roles, server`sequence, server`history
      ensures server.Valid() && MarkerStep() && Marked() == old(Marked())
      ensures res.Ok? ==> roleUUID == Some(res.value.0) && res.value.1 == old(roleUUID) && RoleKnown()
      ensures res.Err? ==> res.error == Unavailable && roleUUID == old(roleUUID)
      ensures old(RoleKnown()) ==> RoleKnown()
      ensures old(RoleExists()) ==> server.history == old(server.history)
    {
      hide ValidBindings, ValidApplications, ValidLinks, ValidProviders, ValidOutposts, ValidRoles, MarkedBy;
      var uuid := FindOrCreateRole();
      if uuid.Err? {
        return Err(uuid.error);
      }
      var previous := roleUUID;
      roleUUID := Some(uuid.value);
      return Ok((uuid.value, previous));
    }

    method Role() returns (res: Result<Key>)
      requires server.Valid()
      modifies this, server`roles, server`sequence, server`history
      ensures server.Valid() && MarkerStep() && Marked() == old(Marked())
      ensures res.Ok? ==> roleUUID == Some(res.value)
      ensures old(roleUUID).Some? ==> res.Ok? && roleUUID == old(roleUUID)
      ensures old(roleUUID).Some? || old(RoleExists()) ==> server.history == old(server.history)
      ensures res.Err? ==> res.error == Unavailable && roleUUID == old(roleUUID)
      ensures old(RoleKnown()) ==> RoleKnown()
    {
      hide ValidBindings, ValidApplications, ValidLinks, ValidProviders, ValidOutposts, ValidRoles, MarkedBy;
      if roleUUID.Some? {
        return Ok(roleUUID.value);
      }
      var ensured := EnsureRole();
      if ensured.Err? {
        return Err(ensured.error);
      }
      return Ok(ensured.value.0);
    }

    method Mark(obj: Object) returns (res: Result<()>)
      requires server.Valid()
      modifies this, server`roles, server`sequence, server`grants, server`history
      ensures server.Valid() && MarkerStep()
      ensures old(RoleKnown()) ==> RoleKnown()
      ensures old(RoleKnown()) ==> Marked() == if res.Ok? then old(Marked()) + {obj} else old(Marked())
      ensures old(RoleKnown()) && res.Err? ==> res.error == Unavailable || (res.error == BadRequest && !server.ObjectExists(obj))
      ensures res.Ok? ==> roleUUID.Some? && server.ObjectExists(obj)
      ensures res == Err(BadRequest) ==> !server.ObjectExists(obj) && roleUUID.Some?
      ensures old(roleUUID).Some? ==> roleUUID == old(roleUUID)
    {
      hide ValidBindings, ValidApplications, ValidLinks, ValidProviders, ValidOutposts, ValidRoles, MarkedBy;
      var role := Role();
      if role.Err? {
        return Err(role.error);
      }
      ghost var grants := server.grants;
      res := server.AssignObjectPermission(role.value, obj);
      if role.value in server.roles && server.roles[role.value] == roleName {
        MarkGrows(server.roles, grants, roleName, role.value, obj);
      }
    }

    /** The server refuses a permission on an object that does not exist, so this detects a deleted object. */
    method MarkIfExists(obj: Object) returns (res: Result<bool>)
      requires server.Valid()
      modifies this, server`roles, server`sequence, server`grants, server`history
      ensures server.Valid() && MarkerStep()
      ensures old(RoleKnown()) ==> RoleKnown()
      ensures res.Ok? ==> (res.value <==> server.ObjectExists(obj)) && roleUUID.Some?
      ensures old(RoleKnown()) ==> Marked() == if res == Ok(true) then old(Marked()) + {obj} else old(Marked())
      ensures old(RoleKnown()) && res.Err? ==> res.error == Unavailable
      ensures old(roleUUID).Some? ==> roleUUID == old(roleUUID)
    {
      hide ValidBindings, ValidApplications, ValidLinks, ValidProviders, ValidOutposts, ValidRoles, MarkedBy;
      var marked := Mark(obj);
      if marked == Err(BadRequest) {
        return Ok(false);
      }
      if marked.Err? {
        return Err(marked.error);
      }
      return Ok(true);
    }

    /** Another replica marks an object with the role. */
    method OtherReplicaMarks(obj: Object)
      requires server.Valid()
      modifies server`grants, server`sequence, server`history
      ensures server.Valid() && old(Marked()) <= Marked() <= old(Marked()) + {obj} && old(server.sequence) <= server.sequence
      ensures obj in Marked() ==> obj in old(Marked()) || server.ObjectExists(obj)
      ensures old(RoleKnown()) ==> RoleKnown()
    {
      hide ValidBindings, ValidApplications, ValidLinks, ValidProviders, ValidOutposts, ValidRoles, MarkedBy;
      var role: Key := *;
      if role in server.roles && server.roles[role] == roleName {
        MarkGrows(server.roles, server.grants, roleName, role, obj);
        var _ := server.AssignObjectPermission(role, obj);
      }
    }

    method Unmark(obj: Object) returns (res: Result<()>)
      requires server.Valid()
      modifies this, server`roles, server`sequence, server`grants, server`history
      ensures server.Valid() && MarkerStep()
      ensures old(RoleKnown()) ==> RoleKnown()
      ensures old(RoleKnown()) ==> Marked() == if res.Ok? then old(Marked()) - {obj} else old(Marked())
      ensures old(RoleKnown()) && res.Err? ==> res.error == Unavailable
      ensures res.Ok? ==> roleUUID.Some?
      ensures old(roleUUID).Some? ==> roleUUID == old(roleUUID)
    {
      hide ValidBindings, ValidApplications, ValidLinks, ValidProviders, ValidOutposts, ValidRoles, MarkedBy;
      var role := Role();
      if role.Err? {
        return Err(role.error);
      }
      ghost var grants := server.grants;
      res := server.UnassignObjectPermission(role.value, obj);
      if role.value in server.roles && server.roles[role.value] == roleName {
        MarkShrinks(server.roles, grants, server.sequence, roleName, role.value, obj);
      }
    }

    /** Narrows the unfiltered owner lookup to the ownership role and to the object. */
    method IsManaged(obj: Object) returns (res: Result<bool>)
      requires server.Valid()
      modifies this, server`roles, server`sequence, server`history
      ensures server.Valid() && MarkerStep() && Marked() == old(Marked())
      ensures old(RoleKnown()) ==> RoleKnown()
      ensures old(RoleKnown()) && res.Ok? ==> (res.value <==> obj in Marked())
      ensures res.Err? ==> res.error == Unavailable
      ensures res.Ok? ==> roleUUID.Some?
      ensures old(roleUUID).Some? ==> roleUUID == old(roleUUID)
      ensures old(roleUUID).Some? || old(RoleExists()) ==> server.history == old(server.history)
    {
      hide ValidBindings, ValidApplications, ValidLinks, ValidProviders, ValidOutposts, ValidRoles;
      var role := Role();
      if role.Err? {
        return Err(role.error);
      }
      if role.value in server.roles && server.roles[role.value] == roleName {
        MarkedByRole(server.roles, server.grants, server.sequence, roleName, role.value, obj);
      }
      var assignments := server.ListObjectPermissionRoles(obj);
      if assignments.Err? {
        return Err(assignments.error);
      }
      if old(RoleKnown()) && Grant(role.value, obj) in server.grants {
        ghost var a :| a in assignments.value && a.0 == role.value;
        assert Grant(role.value, obj).obj in a.1;
      }
      for i := 0 to |assignments.value|
        invariant forall j :: 0 <= j < i ==> assignments.value[j].0 == role.value ==> obj !in assignments.value[j].1
      {
        var assignment := assignments.value[i];
        if assignment.0 == role.value && obj in assignment.1 {
          assert assignment in assignments.value;
          var g :| g in server.grants && g.role == role.value && g.obj == obj;
          assert g == Grant(role.value, obj);
          return Ok(true);
        }
      }
      return Ok(false);
    }

    method ListManaged() returns (res: Result<set<Object>>)
      requires server.Valid()
      modifies this, server`roles, server`sequence, server`history
      ensures server.Valid() && MarkerStep() && Marked() == old(Marked())
      ensures old(RoleKnown()) ==> RoleKnown()
      ensures old(RoleKnown()) && res.Ok? ==> res.value == Marked()
      ensures res.Err? ==> res.error == Unavailable
      ensures old(roleUUID).Some? ==> roleUUID == old(roleUUID)
      ensures old(roleUUID).Some? || old(RoleExists()) ==> server.history == old(server.history)
    {
      hide ValidBindings, ValidApplications, ValidLinks, ValidProviders, ValidOutposts, ValidRoles;
      var role := Role();
      if role.Err? {
        return Err(role.error);
      }
      res := server.ListRoleObjectPermissions(role.value);
      if res.Ok? && old(RoleKnown()) {
        forall obj ensures obj in res.value <==> obj in Marked() {
          MarkedByRole(server.roles, server.grants, server.sequence, roleName, role.value, obj);
          if obj in Marked() {
            assert Grant(role.value, obj).obj == obj;
          }
          if obj in res.value {
            var g :| g in server.grants && g.role == role.value && g.obj == obj;
            assert g == Grant(role.value, obj);
          }
        }
      }
    }
  }

  /** The marker list, read at most once per resync interval. */
  class MarkerCache {
    const marker: Marker
    const clock: Clock
    const ttl: int
    var objects: Option<set<Object>>
    var fetched: int
    var recreated: nat  // how often a recreated role was noticed, each time a callback

    constructor (marker: Marker, clock: Clock, ttl: int)
      ensures this.marker == marker && this.clock == clock && this.ttl == ttl && objects == None
      ensures marker.RoleKnown() ==> Exact() && Sound()
    {
      this.marker, this.clock, this.ttl := marker, clock, ttl;
      objects, fetched, recreated := None, 0, 0;
    }

    /** The cached list is the marker set of the server. */
    ghost predicate Exact()
      reads this`objects, marker`roleUUID, marker.server`roles, marker.server`grants
    {
      && marker.RoleKnown()
      && (objects.Some? ==> marker.roleUUID.Some? && objects.value == marker.Marked())
    }

    /** The cached list is part of the marker set: other replicas may have added markers. */
    ghost predicate Sound()
      reads this`objects, marker`roleUUID, marker.server`roles, marker.server`grants
    {
      && marker.RoleKnown()
      && (objects.Some? ==> marker.roleUUID.Some? && objects.value <= marker.Marked())
    }

    /** The markers that the cached list lacks. */
    ghost function Unlisted(): set<Object>
      reads this`objects, marker.server`roles, marker.server`grants
    {
      if objects.Some? then marker.Marked() - objects.value else marker.Marked()
    }

    /** A sound list goes on having what it has of the marker set. */
    twostate predicate ListStays()
      reads this, marker, marker.server
    {
      old(Sound()) ==> Unlisted() <= old(Unlisted())
    }

    /** An answer given now comes from a list that is younger than the resync interval or was read just now. */
    ghost predicate Recent()
      reads this, clock
    {
      objects.Some? && (clock.time - fetched < ttl || clock.time == fetched)
    }

    /** Every operation keeps what is known about the cached list. */
    twostate predicate Kept()
      reads this, marker, marker.server
    {
      && marker.server.Valid() && marker.MarkerStep()
      && (old(Exact()) ==> Exact())
      && (old(Sound()) ==> Sound())
      && (old(objects).Some? ==> objects.Some?)
    }

    /** Looks up the role. One that is not the remembered one was recreated, and the callback is run. */
    method RefreshRole() returns (res: Result<()>)
      requires marker.server.Valid()
      modifies this`recreated, marker, marker.server`roles, marker.server`sequence, marker.server`history
      ensures Kept() && ListStays() && marker.Marked() == old(marker.Marked())
      ensures res.Ok? ==> marker.RoleKnown() && marker.roleUUID.Some?
      ensures res.Err? ==> res.error == Unavailable && marker.roleUUID == old(marker.roleUUID)
      ensures old(marker.RoleExists()) ==> marker.server.history == old(marker.server.history)
      ensures recreated == old(recreated) + if old(marker.roleUUID).Some? && marker.roleUUID != old(marker.roleUUID) then 1 else 0
    {
      hide ValidBindings, ValidApplications, ValidLinks, ValidProviders, ValidOutposts, ValidRoles, MarkedBy;
      var ensured := marker.EnsureRole();
      if ensured.Err? {
        return Err(ensured.error);
      }
      if ensured.value.1.Some? && ensured.value.1.value != ensured.value.0 {
        recreated := recreated + 1;
      }
      return Ok(());
    }

    /** Reads the marker list, after the role. */
    method Reread() returns (res: Result<()>)
      requires marker.server.Valid()
      modifies this, marker, clock, marker.server`roles, marker.server`sequence, marker.server`history
      ensures Kept() && ListStays() && marker.Marked() == old(marker.Marked()) && old(clock.time) <= clock.time
      ensures res.Ok? ==> Recent() && Exact()
      ensures res.Err? ==> res.error == Unavailable
      ensures old(marker.RoleExists()) ==> marker.server.history == old(marker.server.history)
      ensures recreated == old(recreated) + if old(marker.roleUUID).Some? && marker.roleUUID != old(marker.roleUUID) then 1 else 0
    {
      hide ValidBindings, ValidApplications, ValidLinks, ValidProviders, ValidOutposts, ValidRoles, MarkedBy;
      res := RefreshRole();
      if res.Err? {
        return;
      }
      var managed := marker.ListManaged();
      if managed.Err? {
        return Err(managed.error);
      }
      objects := Some(managed.value);
      fetched := clock.Now();
    }

    /**
     A refresh makes the list exact again, whatever happened to the markers and the role since the last one. The callback
     for a recreated role is run also when the list cannot be read afterwards.
     */
    method RefreshLocked() returns (res: Result<()>)
      requires marker.server.Valid()
      modifies this, marker, clock, marker.server`roles, marker.server`sequence, marker.server`history
      ensures Kept() && ListStays() && marker.Marked() == old(marker.Marked())
      ensures res.Ok? ==> Recent()
      ensures res.Ok? ==> (objects == old(objects) && fetched == old(fetched) && marker.roleUUID == old(marker.roleUUID)) || Exact()
      ensures res.Err? ==> res.error == Unavailable
      ensures old(objects).Some? && clock.time - old(fetched) < ttl ==>
                res.Ok? && objects == old(objects) && fetched == old(fetched) && marker.roleUUID == old(marker.roleUUID)
      ensures old(marker.RoleExists()) ==> marker.server.history == old(marker.server.history)
      ensures old(objects).None? && res.Ok? ==> Exact()
      ensures recreated == old(recreated) + if old(marker.roleUUID).Some? && marker.roleUUID != old(marker.roleUUID) then 1 else 0
    {
      hide ValidBindings, ValidApplications, ValidLinks, ValidProviders, ValidOutposts, ValidRoles, MarkedBy;
      if objects.Some? {
        var now := clock.Now();
        if now - fetched < ttl {
          return Ok(());
        }
      }
      res := Reread();
    }

    method Contains(obj: Object) returns (res: Result<bool>)
      requires marker.server.Valid()
      modifies this, marker, clock, marker.server`roles, marker.server`sequence, marker.server`history
      ensures Kept() && ListStays() && marker.Marked() == old(marker.Marked())
      ensures res.Ok? ==> Recent() && (res.value <==> obj in objects.value)
      ensures old(Exact()) && res.Ok? ==> (res.value <==> obj in marker.Marked())
      ensures res.Err? ==> res.error == Unavailable
      ensures old(marker.RoleExists()) ==> marker.server.history == old(marker.server.history)
    {
      hide ValidBindings, ValidApplications, ValidLinks, ValidProviders, ValidOutposts, ValidRoles, MarkedBy;
      var refreshed := RefreshLocked();
      if refreshed.Err? {
        return Err(refreshed.error);
      }
      return Ok(obj in objects.value);
    }

    /** Exact even while other replicas add markers: a missing object is looked up on the server. */
    method IsManaged(obj: Object) returns (res: Result<bool>)
      requires marker.server.Valid()
      modifies this, marker, clock, marker.server`roles, marker.server`sequence, marker.server`history
      ensures Kept() && ListStays() && marker.Marked() == old(marker.Marked())
      ensures res.Ok? ==> Recent()
      ensures old(Sound()) && res.Ok? ==> (res.value <==> obj in marker.Marked())
      ensures res.Err? ==> res.error == Unavailable
      ensures old(marker.RoleExists()) ==> marker.server.history == old(marker.server.history)
    {
      hide ValidBindings, ValidApplications, ValidLinks, ValidProviders, ValidOutposts, ValidRoles, MarkedBy;
      var refreshed := RefreshLocked();
      if refreshed.Err? {
        return Err(refreshed.error);
      }
      if obj in objects.value {
        return Ok(true);
      }
      res := marker.IsManaged(obj);
      if res == Ok(true) {
        objects := Some(objects.value + {obj});
      }
    }

    method Ensure(obj: Object) returns (res: Result<()>)
      requires marker.server.Valid()
      modifies this, marker, clock, marker.server`roles, marker.server`sequence, marker.server`grants, marker.server`history
      ensures Kept() && ListStays()
      ensures res.Ok? ==> Recent() && obj in objects.value
      ensures old(Sound()) && obj in marker.Marked() ==> obj in old(marker.Marked()) || marker.server.ObjectExists(obj)
      ensures old(Sound()) ==> marker.Marked() == if res.Ok? then old(marker.Marked()) + {obj} else old(marker.Marked())
      ensures old(Sound()) && res.Err? ==> res.error == Unavailable || (res.error == BadRequest && !marker.server.ObjectExists(obj))
      ensures old(Exact()) && obj in old(marker.Marked()) ==> marker.server.history == old(marker.server.history)
    {
      hide ValidBindings, ValidApplications, ValidLinks, ValidProviders, ValidOutposts, ValidRoles, MarkedBy;
      MarkedNeedsRole(marker.server.roles, marker.server.grants, marker.roleName, obj);
      var refreshed := RefreshLocked();
      if refreshed.Err? {
        return Err(refreshed.error);
      }
      if obj in objects.value {
        return Ok(());
      }
      res := marker.Mark(obj);
      if res.Ok? {
        objects := Some(objects.value + {obj});
      }
    }

    method Remove(obj: Object) returns (res: Result<()>)
      requires marker.server.Valid()
      modifies this, marker, marker.server`roles, marker.server`sequence, marker.server`grants, marker.server`history
      ensures Kept() && ListStays() && (objects.Some? ==> old(objects).Some?)
      ensures old(Sound()) ==> marker.Marked() == if res.Ok? then old(marker.Marked()) - {obj} else old(marker.Marked())
      ensures old(Sound()) && res.Err? ==> res.error == Unavailable
    {
      hide ValidBindings, ValidApplications, ValidLinks, ValidProviders, ValidOutposts, ValidRoles, MarkedBy;
      res := marker.Unmark(obj);
      if res.Ok? && objects.Some? {
        objects := Some(objects.value - {obj});
      }
    }

    /**
     One step of the collector. It removes at most the marker of the object, which does not exist by then even though
     objects are created and deleted between the two requests: its pk was issued before, and pks are not used twice. No
     marker is added, even though the object is probed by assigning the permission: an object that is no longer cached is
     not probed.
     */
    method RemoveIfOrphaned(obj: Object, traffic: Traffic) returns (res: Result<bool>)
      requires marker.server.Valid() && traffic.server == marker.server
      modifies this, marker, traffic, marker.server
      ensures marker.server.Valid() && (old(Exact()) ==> Exact()) && (old(Sound()) ==> Sound())
      ensures old(Sound()) ==> marker.Marked() == if res == Ok(true) then old(marker.Marked()) - {obj} else old(marker.Marked())
      ensures old(Sound()) && res == Ok(true) ==> obj in old(marker.Marked()) && marker.server.Gone(obj)
      ensures res == Ok(false) && old(objects).Some? ==> obj !in old(objects).value || marker.server.ObjectExists(obj)
      ensures marker.server.GoneStay() && ListStays() && old(marker.server.sequence) <= marker.server.sequence
      ensures old(traffic.budget) == 0 ==>
                && traffic.budget == 0 && marker.server.SameObjects()
                && OnlyMarkerWrites(old(marker.server.history), marker.server.history, marker.server.bindings,
                                    marker.server.outposts)
      ensures old(Sound()) && res.Err? ==> res.error == Unavailable
      ensures old(objects).Some? <==> objects.Some?
    {
      hide ValidBindings, ValidApplications, ValidLinks, ValidProviders, ValidOutposts, ValidRoles, MarkedBy,
        Authentik.ObjectExists;
      if objects.None? || obj !in objects.value {
        return Ok(false);
      }
      var existing := marker.MarkIfExists(obj);
      if existing.Err? {
        return Err(existing.error);
      } else if existing.value {
        return Ok(false);
      }
      res := Drop(obj, traffic);
    }

    /** Removes the marker of a listed object that does not exist, while others create and delete objects. */
    method Drop(obj: Object, traffic: Traffic) returns (res: Result<bool>)
      requires marker.server.Valid() && traffic.server == marker.server
      requires objects.Some? && obj in objects.value && !marker.server.ObjectExists(obj)
      modifies this, marker, traffic, marker.server
      ensures marker.server.Valid() && (old(Exact()) ==> Exact()) && (old(Sound()) ==> Sound())
      ensures old(Sound()) ==>
                && marker.Marked() == (if res.Ok? then old(marker.Marked()) - {obj} else old(marker.Marked()))
                && (if res.Ok? then res.value && marker.server.Gone(obj) else res.error == Unavailable)
      ensures marker.server.GoneStay() && ListStays() && old(marker.server.sequence) <= marker.server.sequence
      ensures old(traffic.budget) == 0 ==>
                && traffic.budget == 0 && marker.server.SameObjects()
                && OnlyMarkerWrites(old(marker.server.history), marker.server.history, marker.server.bindings,
                                    marker.server.outposts)
      ensures objects.Some? && (res.Ok? ==> res.value)
    {
      hide ValidBindings, ValidApplications, ValidLinks, ValidProviders, ValidOutposts, ValidRoles, MarkedBy,
        Authentik.ObjectExists;
      MarkedWereIssued(marker.server.roles, marker.server.grants, marker.server.sequence, marker.roleName);
      assert Sound() ==> marker.server.Gone(obj);
      traffic.Act();
      assert old(Sound()) ==> marker.server.Gone(obj);
      var unmarked := marker.Unmark(obj);
      if unmarked.Err? {
        return Err(unmarked.error);
      }
      objects := Some(objects.value - {obj});
      return Ok(true);
    }
  }

  /** Anyone who creates and deletes objects on the server, in at most budget requests, without the lock of the cache. */
  class Traffic {
    const server: Authentik
    var budget: nat

    constructor (server: Authentik, budget: nat)
      ensures this.server == server && this.budget == budget
    {
      this.server, this.budget := server, budget;
    }

    /** No object that is gone, and whose pk was issued, comes back. */
    method Act()
      requires server.Valid()
      modifies this, server`applications, server`proxyProviders, server`oauth2Providers, server`bindings, server`outposts,
               server`sequence, server`history
      ensures server.Valid() && old(server.sequence) <= server.sequence
      ensures server.GoneStay()
      ensures old(budget) == 0 ==>
                budget == 0 && server.SameObjects() && server.sequence == old(server.sequence)
                  && server.history == old(server.history)
    {
      hide ValidBindings, ValidApplications, ValidLinks, ValidProviders, ValidOutposts, ValidRoles, Authentik.ObjectExists;
      while budget > 0
        invariant server.Valid() && old(server.sequence) <= server.sequence
        invariant server.GoneStay()
        invariant old(budget) == 0 ==>
                    budget == 0 && server.SameObjects() && server.sequence == old(server.sequence)
                    && server.history == old(server.history)
        decreases budget
      {
        budget := budget - 1;
        ChangeObjects();
        if * { break; }
      }
    }

    method ChangeObjects()
      requires server.Valid()
      modifies server`applications, server`proxyProviders, server`oauth2Providers, server`bindings, server`outposts,
               server`sequence, server`history
      ensures server.Valid() && old(server.sequence) <= server.sequence
      ensures server.GoneStay()
    {
      hide ValidBindings, ValidApplications, ValidLinks, ValidProviders, ValidOutposts, ValidRoles;
      if * {
        PatchObjects();
      } else if * {
        DeleteObjects();
      } else if * {
        var request: ApplicationRequest := *;
        var _ := server.CreateApplication(request);
      } else if * {
        var request: ProxyProviderRequest := *;
        var _ := server.CreateProxyProvider(request);
      } else if * {
        var request: OAuth2ProviderRequest := *;
        var _ := server.CreateOAuth2Provider(request);
      } else {
        var request: BindingRequest := *;
        if -0x8000_0000 <= request.order <= MAX_INT32 {
          var _ := server.CreatePolicyBinding(request);
        }
      }
    }

    method DeleteObjects()
      requires server.Valid()
      modifies server`applications, server`proxyProviders, server`oauth2Providers, server`bindings, server`outposts, server`history
      ensures server.Valid() && server.GoneStay()
    {
      hide ValidBindings, ValidApplications, ValidLinks, ValidProviders, ValidOutposts, ValidRoles;
      var pk: Key := *;
      if * {
        var slug: string := *;
        var _ := server.DeleteApplication(slug);
      } else if * {
        var proxy: bool := *;
        var _ := server.DeleteProvider(pk, proxy);
      } else {
        var _ := server.DeletePolicyBinding(pk);
      }
    }

    /** A PATCH changes which objects exist no more than the memberships of an Outpost do. */
    method PatchObjects()
      requires server.Valid()
      modifies server`applications, server`proxyProviders, server`oauth2Providers, server`bindings, server`outposts, server`history
      ensures server.Valid() && server.GoneStay()
    {
      hide ValidBindings, ValidApplications, ValidLinks, ValidProviders, ValidOutposts, ValidRoles;
      var pk: Key := *;
      if * {
        var slug: string := *;
        var patch: PatchedApplication := *;
        var _ := server.PatchApplication(slug, patch);
      } else if * {
        var patch: PatchedProxyProvider := *;
        var _ := server.PatchProxyProvider(pk, patch);
      } else if * {
        var patch: PatchedOAuth2Provider := *;
        var _ := server.PatchOAuth2Provider(pk, patch);
      } else if * {
        var patch: PatchedBinding := *;
        if patch.order.Some? ==> -0x8000_0000 <= patch.order.value <= MAX_INT32 {
          var _ := server.PatchPolicyBinding(pk, patch);
        }
      } else {
        var providers: seq<Key> := *;
        var _ := server.SetOutpostProviders(pk, providers);
      }
    }
  }
}
