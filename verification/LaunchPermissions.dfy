/** derivePermissions: the launch permissions an app's sandbox metadata implies. */
module LaunchPermissions {

  import opened Splitting
  import opened Wrappers

  datatype Entry = Entry(section: string, key: string, value: string)

  // ── What is implied ─────────────────────────────────────────────────────

  function FirstValue(metadata: seq<Entry>, section: string, key: string): Option<string> {
    if metadata == [] then None
    else if metadata[0].section == section && metadata[0].key == key then Some(metadata[0].value)
    else FirstValue(metadata[1..], section, key)
  }

  // The first value under the key lists the item, between semicolons.
  predicate Lists(metadata: seq<Entry>, section: string, key: string, item: string) {
    var v := FirstValue(metadata, section, key);
    v.Some? && item != "" && item in Split(v.value, ';')
  }

  // What a value under a key lists is what stands between its semicolons, if no
  // earlier entry has that key.
  lemma ListsItsItems(before: seq<Entry>, section: string, key: string, items: seq<string>, later: seq<Entry>, item: string)
    requires forall i :: 0 <= i < |before| ==> before[i].section != section || before[i].key != key
    requires |items| > 0 && forall i :: 0 <= i < |items| ==> ';' !in items[i]
    ensures Lists(before + [Entry(section, key, Join(items, ';'))] + later, section, key, item)
      <==> item != "" && item in items
  {
    var here := [Entry(section, key, Join(items, ';'))];
    SplitJoin(items, ';');
    assert before + here + later == before + (here + later);
    FirstValueAfter(before, here + later, section, key);
  }

  lemma {:induction false} FirstValueAfter(before: seq<Entry>, rest: seq<Entry>, section: string, key: string)
    requires forall i :: 0 <= i < |before| ==> before[i].section != section || before[i].key != key
    ensures FirstValue(before + rest, section, key) == FirstValue(rest, section, key)
  {
    if before == [] {
      assert before + rest == rest;
    } else {
      assert (before + rest)[1..] == before[1..] + rest;
      FirstValueAfter(before[1..], rest, section, key);
    }
  }

  const AUDIO := ["microphone", "speakers"]
  const AUDIO_AND_VIDEO := ["microphone", "speakers", "camera"]

  // The permission a session bus name stands for.
  function PolicyPermission(name: string): Option<string> {
    if name == "org.freedesktop.Notifications" then Some("notifications")
    else if name == "org.freedesktop.portal.Usb" then Some("usb")
    else if name == "org.freedesktop.portal.Location" then Some("location")
    else if name == "org.freedesktop.portal.Camera" then Some("camera")
    else None
  }

  predicate IsPolicyFor(e: Entry, p: string) {
    e.section == "Session Bus Policy" && PolicyPermission(e.key) == Some(p)
  }

  ghost predicate Implied(metadata: seq<Entry>, p: string) {
    || (Lists(metadata, "Context", "devices", "all") && p in AUDIO_AND_VIDEO)
    || (Lists(metadata, "Context", "sockets", "pulseaudio") && p in AUDIO)
    || exists i :: 0 <= i < |metadata| && IsPolicyFor(metadata[i], p)
  }

  ghost predicate HasPolicy(metadata: seq<Entry>, name: string) {
    exists i :: 0 <= i < |metadata| && metadata[i].section == "Session Bus Policy" && metadata[i].key == name
  }

  // What each permission takes, and that there are no others.
  lemma WhatIsImplied(metadata: seq<Entry>, p: string)
    ensures var all := Lists(metadata, "Context", "devices", "all");
      && (Implied(metadata, "microphone") <==> all || Lists(metadata, "Context", "sockets", "pulseaudio"))
      && (Implied(metadata, "speakers") <==> all || Lists(metadata, "Context", "sockets", "pulseaudio"))
      && (Implied(metadata, "camera") <==> all || HasPolicy(metadata, "org.freedesktop.portal.Camera"))
    ensures Implied(metadata, "usb") <==> HasPolicy(metadata, "org.freedesktop.portal.Usb")
    ensures Implied(metadata, "location") <==> HasPolicy(metadata, "org.freedesktop.portal.Location")
    ensures Implied(metadata, "notifications") <==> HasPolicy(metadata, "org.freedesktop.Notifications")
    ensures Implied(metadata, p) ==> p in ["microphone", "speakers", "camera", "usb", "location", "notifications"]
  {
  }

  predicate Distinct(requested: seq<string>) {
    forall i, j :: 0 <= i < j < |requested| ==> requested[i] != requested[j]
  }

  // Only the key that comes first counts: a later entry cannot add to it or take
  // from it.
  lemma {:induction false} FirstValueStands(a: seq<Entry>, b: seq<Entry>, section: string, key: string)
    requires FirstValue(a, section, key).Some?
    ensures FirstValue(a + b, section, key) == FirstValue(a, section, key)
  {
    if a[0].section != section || a[0].key != key {
      assert (a + b)[1..] == a[1..] + b;
      FirstValueStands(a[1..], b, section, key);
    }
  }

  // ── The derivation ──────────────────────────────────────────────────────

  method Add(requested: seq<string>, p: string) returns (more: seq<string>)
    requires Distinct(requested)
    ensures Distinct(more) && requested <= more && forall q :: q in more <==> q in requested || q == p
  {
    more := if p in requested then requested else requested + [p];
  }

  method AddAll(requested: seq<string>, ps: seq<string>) returns (more: seq<string>)
    requires Distinct(requested)
    ensures Distinct(more) && forall q :: q in more <==> q in requested || q in ps
  {
    more := requested;
    for i := 0 to |ps|
      invariant Distinct(more) && forall q :: q in more <==> q in requested || q in ps[..i]
    {
      assert ps[..i + 1] == ps[..i] + [ps[i]];
      more := Add(more, ps[i]);
    }
    assert ps[..|ps|] == ps;
  }

  // listValue(section, key).contains(item).
  method ListContains(metadata: seq<Entry>, section: string, key: string, item: string) returns (b: bool)
    ensures b == Lists(metadata, section, key, item)
  {
    for i := 0 to |metadata|
      invariant FirstValue(metadata, section, key) == FirstValue(metadata[i..], section, key)
    {
      var e := metadata[i];
      if e.section == section && e.key == key {
        return item != "" && item in Split(e.value, ';');
      }
    }
    b := false;
  }

  method DerivePermissions(metadata: seq<Entry>) returns (requested: seq<string>)
    ensures Distinct(requested)
    ensures forall p :: p in requested <==> Implied(metadata, p)
  {
    requested := [];
    var all := ListContains(metadata, "Context", "devices", "all");
    if all {
      requested := AddAll(requested, AUDIO_AND_VIDEO);
    }
    var pulse := ListContains(metadata, "Context", "sockets", "pulseaudio");
    if pulse {
      requested := AddAll(requested, AUDIO);
    }
    requested := AddPolicies(requested, metadata);
  }

  // The loop over the session bus policy.
  method AddPolicies(requested: seq<string>, metadata: seq<Entry>) returns (more: seq<string>)
    requires Distinct(requested)
    ensures Distinct(more)
    ensures forall p :: p in more <==> p in requested || exists i :: 0 <= i < |metadata| && IsPolicyFor(metadata[i], p)
  {
    more := requested;
    for i := 0 to |metadata|
      invariant Distinct(more)
      invariant forall p :: p in more <==> p in requested || exists j :: 0 <= j < i && IsPolicyFor(metadata[j], p)
    {
      var e := metadata[i];
      if e.section != "Session Bus Policy" {
        continue;
      }
      var p := PolicyPermission(e.key);
      if p.Some? {
        assert IsPolicyFor(metadata[i], p.value);
        more := Add(more, p.value);
      }
    }
  }
}
