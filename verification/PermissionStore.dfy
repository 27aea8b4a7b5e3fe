/** The PermissionStore client: which entry a permission lives in, batched checks,
    and removing an app. */
module PermissionStore {

  datatype Status = Granted | Denied | Ask | NotSet

  function FromValue(value: string): Status {
    if value == "yes" then Granted
    else if value == "no" then Denied
    else if value == "ask" then Ask
    else NotSet
  }

  // The first entry of a permission list decides.
  function FromPermissions(permissions: seq<string>): Status {
    if permissions == [] then NotSet else FromValue(permissions[0])
  }

  // The list setStatus writes.
  function Permissions(s: Status): seq<string> {
    match s
    case Granted => ["yes"]
    case Denied => ["no"]
    case Ask => ["ask"]
    case NotSet => []
  }

  lemma StatusRoundTrip(s: Status)
    ensures FromPermissions(Permissions(s)) == s
  {
  }

  datatype Resource = Resource(table: string, id: string)

  const DEVICES := "devices"
  const LOCATION := "location"
  const NOTIFICATIONS := "notifications"
  const BACKGROUND := "background"

  // permissionTarget.
  function Target(permission: string, app: string): Resource {
    if permission == "location" then Resource(LOCATION, "location")
    else if permission == "notifications" then Resource(NOTIFICATIONS, "notifications")
    else if permission == "background" then Resource(BACKGROUND, app)
    else Resource(DEVICES, permission)
  }

  // Location, notifications and background have tables of their own, everything else
  // is a device; and no two permissions, of any apps, share an entry unless they are
  // the same one.
  lemma PermissionsHaveOwnEntries(p: string, a: string, q: string, b: string)
    ensures Target("location", a) == Resource("location", "location")
    ensures Target("notifications", a) == Resource("notifications", "notifications")
    ensures Target("background", a) == Resource("background", a)
    ensures p !in ["location", "notifications", "background"] ==> Target(p, a) == Resource("devices", p)
    ensures Target(p, a) == Target(q, b) ==> p == q && (p == "background" ==> a == b)
  {
    assert LOCATION[0] == 'l' && NOTIFICATIONS[0] == 'n' && BACKGROUND[0] == 'b' && DEVICES[0] == 'd';
  }

  // The store: for each resource, the permission lists of the apps.
  type Entries = map<Resource, map<string, seq<string>>>

  function Stored(entries: Entries, r: Resource, app: string): seq<string> {
    if r in entries && app in entries[r] then entries[r][app] else []
  }

  function StatusAt(entries: Entries, r: Resource, app: string): Status {
    FromPermissions(Stored(entries, r, app))
  }

  function WithEntry(entries: Entries, r: Resource, app: string, permissions: seq<string>): Entries {
    entries[r := (if r in entries then entries[r] else map[])[app := permissions]]
  }

  function WithoutEntry(entries: Entries, r: Resource, app: string): Entries {
    if r in entries then entries[r := entries[r] - {app}] else entries
  }

  // ── check ───────────────────────────────────────────────────────────────

  // The key of a resource in check: its table and id with a NUL between.
  function Key(r: Resource): string {
    r.table + "\0" + r.id
  }

  // No table has a NUL in its name, so no two resources share a key.
  lemma KeysAreDistinct(a: Resource, b: Resource)
    requires '\0' !in a.table && '\0' !in b.table && Key(a) == Key(b)
    ensures a == b
  {
    var k := Key(a);
    assert k[|a.table|] == '\0' && k[|b.table|] == '\0';
    assert |a.table| == |b.table|;
    assert k[..|a.table|] == a.table && k[..|b.table|] == b.table;
    assert k[|a.table| + 1..] == a.id && k[|b.table| + 1..] == b.id;
  }

  lemma TargetHasNoNul(permission: string, app: string)
    ensures '\0' !in Target(permission, app).table
  {
  }

  class Portal {
    var entries: Entries

    constructor (entries: Entries)
      ensures this.entries == entries
    {
      this.entries := entries;
    }

    // GetPermission; no such entry is notSet.
    method Get(r: Resource, app: string) returns (s: Status)
      ensures s == StatusAt(entries, r, app)
      ensures s == Granted <==> Stored(entries, r, app) != [] && Stored(entries, r, app)[0] == "yes"
      ensures s == Denied <==> Stored(entries, r, app) != [] && Stored(entries, r, app)[0] == "no"
      ensures s == Ask <==> Stored(entries, r, app) != [] && Stored(entries, r, app)[0] == "ask"
    {
      s := if r in entries && app in entries[r] then FromPermissions(entries[r][app]) else NotSet;
    }

    method SetStatus(r: Resource, app: string, s: Status)
      modifies this
      ensures entries == WithEntry(old(entries), r, app, Permissions(s))
    {
      entries := WithEntry(entries, r, app, Permissions(s));
    }

    // A status that is written is read back as itself, also notSet, which is stored
    // as an empty list; every other entry stays what it was.
    method SetThenGet(r: Resource, app: string, s: Status) returns (back: Status)
      modifies this
      ensures back == s
      ensures forall q, other ::
        q != r || other != app ==> Stored(entries, q, other) == Stored(old(entries), q, other)
      ensures s.NotSet? ==> Stored(entries, r, app) == []
      ensures !s.NotSet? ==> Stored(entries, r, app) == [if s.Granted? then "yes" else if s.Denied? then "no" else "ask"]
    {
      StatusRoundTrip(s);
      SetStatus(r, app, s);
      back := Get(r, app);
    }

    method Delete(r: Resource, app: string)
      modifies this
      ensures entries == WithoutEntry(old(entries), r, app)
    {
      entries := WithoutEntry(entries, r, app);
    }

    // Lookup; no such resource is an empty map.
    method Lookup(r: Resource) returns (apps: map<string, seq<string>>)
      ensures apps == if r in entries then entries[r] else map[]
    {
      apps := if r in entries then entries[r] else map[];
    }

    // List: the ids of a table, in whatever order the service keeps them.
    method List(table: string) returns (ids: seq<string>)
      ensures forall id :: id in ids <==> Resource(table, id) in entries
    {
      ids := [];
      var left := entries.Keys;
      while left != {}
        invariant left <= entries.Keys
        invariant forall id :: id in ids <==> Resource(table, id) in entries.Keys - left
        decreases |left|
      {
        var r :| r in left;
        left := left - {r};
        if r.table == table {
          ids := ids + [r.id];
        }
      }
    }

    // Each resource is looked up once, however many permissions share it, and the
    // answer is that of one Get per permission. Distinct keys are the point: two
    // resources under one key would read each other's entry.
    method Check(app: string, permissions: seq<string>) returns (statuses: map<string, Status>, looked: seq<Resource>)
      ensures statuses.Keys == set p | p in permissions
      ensures forall p :: p in permissions ==> statuses[p] == StatusAt(entries, Target(p, app), app)
      ensures forall i, j :: 0 <= i < j < |looked| ==> looked[i] != looked[j]
      ensures forall r :: r in looked <==> exists p :: p in permissions && Target(p, app) == r
    {
      var keys;
      keys, looked := Resources(app, permissions);
      var byResource: map<string, map<string, seq<string>>> := map[];
      for i := 0 to |looked|
        invariant byResource.Keys == set k | k in keys[..i]
        invariant forall j :: 0 <= j < i ==>
          byResource[keys[j]] == if looked[j] in entries then entries[looked[j]] else map[]
      {
        var apps := Lookup(looked[i]);
        assert keys[..i + 1] == keys[..i] + [keys[i]];
        assert keys[i] !in keys[..i];
        byResource := byResource[keys[i] := apps];
      }
      assert keys[..|keys|] == keys;
      statuses := map[];
      for i := 0 to |permissions|
        invariant statuses.Keys == set p | p in permissions[..i]
        invariant forall p :: p in permissions[..i] ==> statuses[p] == StatusAt(entries, Target(p, app), app)
      {
        var p := permissions[i];
        var k := Key(Target(p, app));
        assert permissions[..i + 1] == permissions[..i] + [p];
        ghost var j := IndexOf(looked, Target(p, app));
        assert keys[j] == k;
        var apps := byResource[k];
        statuses := statuses[p := FromPermissions(if app in apps then apps[app] else [])];
      }
      assert permissions[..|permissions|] == permissions;
    }

    // removeAllForApp. Afterwards no permission of the app, by any name, is set;
    // every other app keeps every entry, and this one keeps those outside the
    // resources its permissions can live in.
    method RemoveAllForApp(app: string)
      modifies this
      ensures forall p :: StatusAt(entries, Target(p, app), app) == NotSet
      ensures forall r, other ::
        Stored(entries, r, other) == if other == app && Owned(r, app) then [] else Stored(old(entries), r, other)
      ensures forall r :: Owned(r, app) <==>
        || r.table == "devices" || r == Resource("notifications", "notifications")
        || r == Resource("location", "location") || r == Resource("background", app)
      ensures entries.Keys == old(entries).Keys
    {
      var devices := List(DEVICES);
      var targets := FixedTargets(app) + DeviceTargets(devices);
      DeleteAll(targets, app);
      CleanSlate(old(entries), entries, app, devices);
    }

    method DeleteAll(targets: seq<Resource>, app: string)
      modifies this
      ensures Removed(old(entries), entries, app, targets)
    {
      for i := 0 to |targets|
        invariant Removed(old(entries), entries, app, targets[..i])
      {
        assert targets[..i + 1] == targets[..i] + [targets[i]];
        OneMoreRemoved(old(entries), entries, app, targets[..i], targets[i]);
        Delete(targets[i], app);
      }
      assert targets[..|targets|] == targets;
    }
  }

  function FixedTargets(app: string): seq<Resource> {
    [Resource(NOTIFICATIONS, "notifications"), Resource(LOCATION, "location"), Resource(BACKGROUND, app)]
  }

  function DeviceTargets(ids: seq<string>): (rs: seq<Resource>)
    ensures |rs| == |ids| && forall i :: 0 <= i < |ids| ==> rs[i] == Resource(DEVICES, ids[i])
  {
    seq(|ids|, i requires 0 <= i < |ids| => Resource(DEVICES, ids[i]))
  }

  // Where permissions of an app can be stored.
  predicate Owned(r: Resource, app: string) {
    r in FixedTargets(app) || r.table == DEVICES
  }

  lemma TargetIsOwned(permission: string, app: string)
    ensures Owned(Target(permission, app), app)
  {
  }

  // The app's entries are gone from the targets; nothing else has changed.
  ghost predicate Removed(was: Entries, entries: Entries, app: string, targets: seq<Resource>) {
    && entries.Keys == was.Keys
    && forall r, other ::
         Stored(entries, r, other) == if other == app && r in targets then [] else Stored(was, r, other)
  }

  lemma OneMoreRemoved(was: Entries, now: Entries, app: string, done: seq<Resource>, r: Resource)
    requires Removed(was, now, app, done)
    ensures Removed(was, WithoutEntry(now, r, app), app, done + [r])
  {
    var later := WithoutEntry(now, r, app);
    forall q, other
      ensures Stored(later, q, other) == if other == app && q in done + [r] then [] else Stored(was, q, other)
    {
      assert q in done + [r] <==> q in done || q == r;
      assert Stored(later, q, other) == if other == app && q == r then [] else Stored(now, q, other);
    }
  }

  // It is enough to go through the devices that List names: another one holds
  // nothing for any app.
  lemma CleanSlate(was: Entries, entries: Entries, app: string, devices: seq<string>)
    requires forall id :: id in devices <==> Resource(DEVICES, id) in was
    requires Removed(was, entries, app, FixedTargets(app) + DeviceTargets(devices))
    ensures forall r, other ::
      Stored(entries, r, other) == if other == app && Owned(r, app) then [] else Stored(was, r, other)
    ensures forall p :: StatusAt(entries, Target(p, app), app) == NotSet
  {
    var fixed, listed := FixedTargets(app), DeviceTargets(devices);
    forall r, other
      ensures Stored(entries, r, other) == if other == app && Owned(r, app) then [] else Stored(was, r, other)
    {
      if r.table == DEVICES && r in was {
        var i := IndexOf(devices, r.id);
        assert listed[i] == r;
      }
      if r in listed {
        assert r.table == DEVICES;
      }
      assert r in fixed + listed <==> r in fixed || r in listed;
    }
    forall p ensures StatusAt(entries, Target(p, app), app) == NotSet {
      TargetIsOwned(p, app);
    }
  }

  lemma IndexOf<T>(xs: seq<T>, x: T) returns (j: nat)
    requires x in xs
    ensures j < |xs| && xs[j] == x
  {
    j :| 0 <= j < |xs| && xs[j] == x;
  }

  // The map from keys to resources, in insertion order: a key already there keeps
  // its place.
  method Resources(app: string, permissions: seq<string>) returns (keys: seq<string>, rs: seq<Resource>)
    ensures |keys| == |rs| && forall i :: 0 <= i < |keys| ==> keys[i] == Key(rs[i])
    ensures forall i, j :: 0 <= i < j < |keys| ==> keys[i] != keys[j]
    ensures forall r :: r in rs <==> exists p :: p in permissions && Target(p, app) == r
  {
    keys, rs := [], [];
    for i := 0 to |permissions|
      invariant |keys| == |rs| && forall j :: 0 <= j < |keys| ==> keys[j] == Key(rs[j])
      invariant forall j, k :: 0 <= j < k < |keys| ==> keys[j] != keys[k]
      invariant forall r :: r in rs <==> exists p :: p in permissions[..i] && Target(p, app) == r
    {
      var p := permissions[i];
      var r := Target(p, app);
      assert permissions[..i + 1] == permissions[..i] + [p];
      if Key(r) !in keys {
        keys, rs := keys + [Key(r)], rs + [r];
      } else {
        AlreadyThere(keys, rs, app, permissions[..i], p);
      }
    }
    assert permissions[..|permissions|] == permissions;
  }

  lemma AlreadyThere(keys: seq<string>, rs: seq<Resource>, app: string, before: seq<string>, p: string)
    requires |keys| == |rs| && forall j :: 0 <= j < |keys| ==> keys[j] == Key(rs[j])
    requires forall r :: r in rs <==> exists q :: q in before && Target(q, app) == r
    requires Key(Target(p, app)) in keys
    ensures Target(p, app) in rs
  {
    var j :| 0 <= j < |keys| && keys[j] == Key(Target(p, app));
    assert rs[j] in rs;
    var q :| q in before && Target(q, app) == rs[j];
    TargetHasNoNul(q, app);
    TargetHasNoNul(p, app);
    KeysAreDistinct(rs[j], Target(p, app));
  }
}
