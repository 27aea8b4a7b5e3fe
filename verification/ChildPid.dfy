/** reread_child_pid: polling for the pid bwrap has yet to write, with a geometric
    back-off and a fixed budget. */
module ChildPid {

  import opened Bytes
  import opened WireTypes
  import opened Wrappers

  const MAX_WAIT_MS := 500
  const MAX_BACKOFF_MS := 64

  datatype Listed = Listed(id: Text, childPid: int)

  // One enumeration of the running instances, None when it failed, and whether the
  // reader is being closed by then.
  datatype Probe = Probe(all: Option<seq<Listed>>, cancelled: bool)

  // ── One probe ───────────────────────────────────────────────────────────

  // The child pid of the first instance with the id, if there is one.
  function Sighting(all: seq<Listed>, id: Text): Option<int> {
    if all == [] then None else if all[0].id == id then Some(all[0].childPid) else Sighting(all[1..], id)
  }

  function Seen(p: Probe, id: Text): Option<int> {
    if p.all.None? then None else Sighting(p.all.value, id)
  }

  predicate HasChild(p: Probe, id: Text) {
    Seen(p, id).Some? && Seen(p, id).value > 0
  }

  // Entry i is the first with the id.
  ghost predicate FirstWith(all: seq<Listed>, id: Text, i: nat) {
    i < |all| && all[i].id == id && forall j :: 0 <= j < i ==> all[j].id != id
  }

  lemma {:induction false} SightingIsFirst(all: seq<Listed>, id: Text)
    ensures forall i: nat :: FirstWith(all, id, i) ==> Sighting(all, id) == Some(all[i].childPid)
    ensures Sighting(all, id).None? <==> forall i :: 0 <= i < |all| ==> all[i].id != id
  {
    if all != [] && all[0].id != id {
      SightingIsFirst(all[1..], id);
      forall i: nat | FirstWith(all, id, i) ensures Sighting(all, id) == Some(all[i].childPid) {
        assert forall j :: 0 <= j < i - 1 ==> all[1..][j] == all[j + 1];
        assert FirstWith(all[1..], id, i - 1);
      }
      assert forall i :: 0 < i < |all| ==> all[i] == all[1..][i - 1];
    }
  }

  // A probe sees the instance when the enumeration worked and lists it, and shows the
  // child pid of its first entry.
  lemma SeenMeans(p: Probe, id: Text)
    ensures Seen(p, id).Some? <==> p.all.Some? && exists i :: 0 <= i < |p.all.value| && p.all.value[i].id == id
    ensures p.all.Some? ==> forall i: nat :: FirstWith(p.all.value, id, i) ==> Seen(p, id) == Some(p.all.value[i].childPid)
  {
    if p.all.Some? {
      SightingIsFirst(p.all.value, id);
    }
  }

  // The child pid of the first entry with the id; None exactly when none has it.
  method LookUp(all: seq<Listed>, id: Text) returns (child: Option<int>)
    ensures child == Sighting(all, id)
    ensures child.None? <==> forall i :: 0 <= i < |all| ==> all[i].id != id
    ensures forall i: nat :: FirstWith(all, id, i) ==> child == Some(all[i].childPid)
  {
    SightingIsFirst(all, id);
    for i := 0 to |all|
      invariant Sighting(all, id) == Sighting(all[i..], id)
    {
      if all[i].id != id {
        continue;
      }
      return Some(all[i].childPid);
    }
    child := None;
  }

  method LookAt(p: Probe, id: Text) returns (child: Option<int>)
    ensures child == Seen(p, id)
  {
    child := None;
    if p.all.Some? {
      child := LookUp(p.all.value, id);
    }
  }

  // ── The back-off ────────────────────────────────────────────────────────

  function Min(a: nat, b: nat): nat {
    if a < b then a else b
  }

  // How many sleeps the rest of the budget allows.
  function SleepsLeft(waited: nat, delay: nat, budget: nat, cap: nat): nat
    requires delay > 0 && cap > 0
    decreases budget - waited
  {
    if waited >= budget then 0
    else 1 + SleepsLeft(waited + Min(delay, budget - waited), Min(2 * delay, cap), budget, cap)
  }

  function Doublings(delay: nat, cap: nat): nat
    requires delay > 0
    decreases cap - delay
  {
    if delay >= cap then 0 else 1 + Doublings(Min(2 * delay, cap), cap)
  }

  // For any budget and cap: the sleeps are the doublings it takes to reach the cap
  // and one more for each cap's worth of budget, or a part of it.
  lemma {:induction false} SleepBound(waited: nat, delay: nat, budget: nat, cap: nat)
    requires 0 < delay <= cap && waited <= budget
    ensures SleepsLeft(waited, delay, budget, cap) <= Doublings(delay, cap) + (budget - waited + cap - 1) / cap
    decreases budget - waited
  {
    if waited < budget {
      var slept := Min(delay, budget - waited);
      SleepBound(waited + slept, Min(2 * delay, cap), budget, cap);
      if delay == cap {
        OneCapLess(budget - waited, cap);
      } else {
        DivMono(budget - waited - slept + cap - 1, budget - waited + cap - 1, cap);
      }
    }
  }

  lemma OneCapLess(left: nat, cap: nat)
    requires 0 < left && 0 < cap
    ensures (left - Min(cap, left) + cap - 1) / cap + 1 <= (left + cap - 1) / cap
  {
    if left >= cap {
      assert left + cap - 1 == (left - cap + cap - 1) + cap;
      AddOne(left - 1, cap);
    } else {
      AddOne(left - 1, cap);
      DivMono(0, left - 1, cap);
      DivSmall(cap - 1, cap);
    }
  }

  lemma AddOne(a: nat, m: nat)
    requires m > 0
    ensures (a + m) / m == a / m + 1
  {
    var q := a / m;
    assert (q + 1) * m == q * m + m;
    DivUnique(a + m, m, q + 1, a % m);
  }

  lemma DivSmall(a: nat, m: nat)
    requires a < m
    ensures a / m == 0
  {
    DivUnique(a, m, 0, a);
  }

  lemma {:induction false} DivMono(a: nat, b: nat, m: nat)
    requires a <= b && m > 0
    ensures a / m <= b / m
  {
    if b < m {
      DivSmall(a, m);
      DivSmall(b, m);
    } else if a < m {
      DivSmall(a, m);
    } else {
      AddOne(a - m, m);
      AddOne(b - m, m);
      DivMono(a - m, b - m, m);
    }
  }

  function Sum(sleeps: seq<nat>): nat {
    if sleeps == [] then 0 else Sum(sleeps[..|sleeps| - 1]) + sleeps[|sleeps| - 1]
  }

  // The i-th delay: 1 ms, doubled each time up to the cap.
  function Delay(i: nat, cap: nat): nat {
    if i == 0 then 1 else Min(2 * Delay(i - 1, cap), cap)
  }

  // Each sleep starts within the budget, and is its delay or what is left of it.
  predicate BacksOff(sleeps: seq<nat>, budget: nat, cap: nat) {
    sleeps == []
    || (var before := sleeps[..|sleeps| - 1];
        && BacksOff(before, budget, cap)
        && Sum(before) < budget
        && sleeps[|sleeps| - 1] == Min(Delay(|before|, cap), budget - Sum(before)))
  }

  lemma OneMoreSleep(sleeps: seq<nat>, budget: nat, cap: nat)
    requires BacksOff(sleeps, budget, cap) && Sum(sleeps) < budget
    ensures var sleep := Min(Delay(|sleeps|, cap), budget - Sum(sleeps));
      BacksOff(sleeps + [sleep], budget, cap) && Sum(sleeps + [sleep]) == Sum(sleeps) + sleep
  {
    var sleep := Min(Delay(|sleeps|, cap), budget - Sum(sleeps));
    assert (sleeps + [sleep])[..|sleeps|] == sleeps;
  }

  lemma {:induction false} DelayIsPositive(i: nat, cap: nat)
    requires cap > 0
    ensures 0 < Delay(i, cap) <= cap
  {
    if i > 0 {
      DelayIsPositive(i - 1, cap);
    }
  }

  // What has been slept and what may still be slept add up.
  lemma {:induction false} SleepsAddUp(sleeps: seq<nat>, budget: nat, cap: nat)
    requires cap > 0 && BacksOff(sleeps, budget, cap)
    ensures Sum(sleeps) <= budget && Delay(|sleeps|, cap) > 0
    ensures |sleeps| + SleepsLeft(Sum(sleeps), Delay(|sleeps|, cap), budget, cap) == SleepsLeft(0, 1, budget, cap)
  {
    DelayIsPositive(|sleeps|, cap);
    if sleeps != [] {
      DelayIsPositive(|sleeps| - 1, cap);
      SleepsAddUp(sleeps[..|sleeps| - 1], budget, cap);
    }
  }

  // However long a back-off gets, for any budget and cap.
  lemma SleepsAreFew(sleeps: seq<nat>, budget: nat, cap: nat)
    requires cap > 0 && BacksOff(sleeps, budget, cap)
    ensures |sleeps| <= Doublings(1, cap) + (budget + cap - 1) / cap
    ensures Sum(sleeps) <= budget
  {
    SleepsAddUp(sleeps, budget, cap);
    SleepBound(0, 1, budget, cap);
  }

  // 1 + 2 + 4 + 8 + 16 + 32, six times 64, and what is left, which is 53 of 500.
  lemma ThirteenSleeps(budget: nat)
    requires 447 < budget <= 511
    ensures SleepsLeft(0, 1, budget, MAX_BACKOFF_MS) == 13
  {
    assert SleepsLeft(447, 64, budget, 64) == 1;
    assert SleepsLeft(383, 64, budget, 64) == 2;
    assert SleepsLeft(319, 64, budget, 64) == 3;
    assert SleepsLeft(255, 64, budget, 64) == 4;
    assert SleepsLeft(191, 64, budget, 64) == 5;
    assert SleepsLeft(127, 64, budget, 64) == 6;
    assert SleepsLeft(63, 64, budget, 64) == 7;
    assert SleepsLeft(31, 32, budget, 64) == 8;
    assert SleepsLeft(15, 16, budget, 64) == 9;
    assert SleepsLeft(7, 8, budget, 64) == 10;
    assert SleepsLeft(3, 4, budget, 64) == 11;
    assert SleepsLeft(1, 2, budget, 64) == 12;
  }

  // With the constants of the code, 500 and 64, the budget is spent after the
  // thirteenth sleep and not before.
  lemma ThirteenAtMost(sleeps: seq<nat>, budget: nat)
    requires 447 < budget <= 511 && BacksOff(sleeps, budget, MAX_BACKOFF_MS)
    ensures |sleeps| <= 13 && Sum(sleeps) <= budget && (Sum(sleeps) == budget <==> |sleeps| == 13)
  {
    ThirteenSleeps(budget);
    SleepsAddUp(sleeps, budget, MAX_BACKOFF_MS);
  }

  // ── The loop ────────────────────────────────────────────────────────────

  // Why polling ends at probe k, budget or no budget: a child pid, an instance that
  // was there and is gone, or the reader closing.
  ghost predicate Stops(probes: nat -> Probe, id: Text, k: nat) {
    || HasChild(probes(k), id)
    || (Seen(probes(k), id).None? && exists j: nat :: j < k && Seen(probes(j), id).Some?)
    || probes(k).cancelled
  }

  // Ends at the first probe that gives a reason to, or when the budget is spent;
  // last is the last probe made, counting from 0. A positive pid is the one that
  // probe showed for the instance; otherwise 0. There is one sleep between two
  // probes, and the sleeps follow the back-off.
  method Poll(id: Text, probes: nat -> Probe, budget: nat, cap: nat) returns (pid: int, last: nat, sleeps: seq<nat>)
    requires cap > 0
    ensures forall k: nat :: k < last ==> !Stops(probes, id, k)
    ensures Stops(probes, id, last) || Sum(sleeps) == budget
    ensures pid == if HasChild(probes(last), id) then Seen(probes(last), id).value else 0
    ensures |sleeps| == last && BacksOff(sleeps, budget, cap) && Sum(sleeps) <= budget
  {
    var everSeen := false;
    var waited: nat, delay: nat, k: nat := 0, 1, 0;
    sleeps := [];
    while true
      invariant |sleeps| == k && BacksOff(sleeps, budget, cap)
      invariant Sum(sleeps) == waited <= budget && 0 < delay == Delay(k, cap)
      invariant everSeen <==> exists j: nat :: j < k && Seen(probes(j), id).Some?
      invariant forall j: nat :: j < k ==> !Stops(probes, id, j)
      decreases budget - waited
    {
      last := k;
      var child := LookAt(probes(k), id);
      if child.Some? && child.value > 0 {
        return child.value, last, sleeps;
      }
      if child.Some? {
        everSeen := true;
      } else if everSeen {
        return 0, last, sleeps;
      }
      if waited >= budget || probes(k).cancelled {
        return 0, last, sleeps;
      }
      var sleep := Min(delay, budget - waited);
      OneMoreSleep(sleeps, budget, cap);
      sleeps := sleeps + [sleep];
      waited := waited + sleep;
      delay := Min(2 * delay, cap);
      k := k + 1;
    }
  }

  // Polling goes on only as long as no probe shows a child pid or the reader closing,
  // and the instance, once seen, is still there.
  lemma GoesOn(id: Text, probes: nat -> Probe, n: nat)
    requires forall k: nat :: k < n ==> !Stops(probes, id, k)
    ensures forall k: nat :: k < n ==> !probes(k).cancelled && (Seen(probes(k), id).Some? ==> Seen(probes(k), id).value <= 0)
    ensures forall j: nat, k: nat :: j < k < n && Seen(probes(j), id).Some? ==> Seen(probes(k), id).Some?
  {
    forall k: nat | k < n
      ensures !probes(k).cancelled && (Seen(probes(k), id).Some? ==> Seen(probes(k), id).value <= 0)
      ensures forall j: nat :: j < k && Seen(probes(j), id).Some? ==> Seen(probes(k), id).Some?
    {
      assert !Stops(probes, id, k);
    }
  }

  // With the constants of the code: at most 13 sleeps, 14 probes and 500 ms.
  method RereadChildPid(id: Text, probes: nat -> Probe) returns (pid: int, last: nat, sleeps: seq<nat>)
    ensures last <= 13 && forall k: nat :: k < last ==> !Stops(probes, id, k)
    ensures Stops(probes, id, last) || last == 13
    ensures forall k: nat :: k < last ==> !probes(k).cancelled && (Seen(probes(k), id).Some? ==> Seen(probes(k), id).value <= 0)
    ensures forall j: nat, k: nat :: j < k < last && Seen(probes(j), id).Some? ==> Seen(probes(k), id).Some?
    ensures pid == if HasChild(probes(last), id) then Seen(probes(last), id).value else 0
    ensures |sleeps| == last && BacksOff(sleeps, 500, 64) && Sum(sleeps) <= 500
  {
    pid, last, sleeps := Poll(id, probes, MAX_WAIT_MS, MAX_BACKOFF_MS);
    ThirteenAtMost(sleeps, MAX_WAIT_MS);
    GoesOn(id, probes, last);
  }

  // The pid that polling for the id comes back with: what the first probe that has a
  // child pid shows, or 0 when there is a reason to stop before that or the fourteenth
  // probe has none either.
  ghost predicate IsReread(id: Text, probes: nat -> Probe, pid: int) {
    exists last: nat ::
      && last <= 13 && (forall k: nat :: k < last ==> !Stops(probes, id, k)) && (Stops(probes, id, last) || last == 13)
      && pid == if HasChild(probes(last), id) then Seen(probes(last), id).value else 0
  }

  // launch_impl after the spawn: the instance is reported as libflatpak built it,
  // with a child pid polled for only when it has none and has an id to poll by.
  method ReportInstance(info: FpInstance, probes: nat -> Probe) returns (r: FpInstance)
    ensures r == info.(childPid := r.childPid)
    ensures info.childPid > 0 || info.instanceId == [] ==> r == info
    ensures info.childPid <= 0 && info.instanceId != [] ==> IsReread(info.instanceId, probes, r.childPid)
    ensures r.childPid > 0 && r.childPid != info.childPid ==>
      exists k: nat :: k <= 13 && Seen(probes(k), info.instanceId) == Some(r.childPid)
  {
    r := info;
    if info.childPid <= 0 && |info.instanceId| > 0 {
      var pid, last, sleeps := RereadChildPid(info.instanceId, probes);
      r := info.(childPid := pid);
    }
  }
}
