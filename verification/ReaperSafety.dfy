/** The concurrency contract of ChildReaper: one loop token, a thread_ handle
    that is never overwritten while joinable, joins that cannot block, wake-ups
    that are not lost, and what is left when the destructor returns. */
module ReaperSafety {

  import opened ReaperProtocol

  // ── The loop token ──────────────────────────────────────────────────────

  // An add() call that set running_ and has not created the thread yet.
  predicate AdderToken(pc: AdderPc) {
    pc.Starting? || pc.Joining? || pc.Spawning?
  }

  // A loop that has not cleared running_.
  predicate LoopToken(pc: LoopPc) {
    pc.Taking? || pc.Polling? || pc.Draining? || pc.Reaping? || pc.Failed?
  }

  ghost predicate AdderHolds(adders: seq<AdderPc>) {
    exists i :: 0 <= i < |adders| && AdderToken(adders[i])
  }

  predicate LoopHolds(s: State) {
    s.loops != [] && LoopToken(Newest(s).pc)
  }

  function Newest(s: State): Loop
    requires s.loops != []
  {
    s.loops[|s.loops| - 1]
  }

  ghost predicate OneAdderToken(adders: seq<AdderPc>) {
    forall i, j :: 0 <= i < j < |adders| && AdderToken(adders[i]) ==> !AdderToken(adders[j])
  }

  ghost predicate TokenOk(s: State) {
    && (s.g.running <==> AdderHolds(s.adders) || LoopHolds(s))
    && !(AdderHolds(s.adders) && LoopHolds(s))
    && OneAdderToken(s.adders)
  }

  // ── thread_mu_ and thread_ ──────────────────────────────────────────────

  predicate InThreadMu(pc: AdderPc) {
    pc.Joining? || pc.Spawning? || pc.Assigning?
  }

  ghost predicate LockOk(s: State) {
    && (forall i :: 0 <= i < |s.adders| ==> (InThreadMu(s.adders[i]) <==> s.threadMu == ByAdder(i)))
    && (s.threadMu.ByAdder? ==> s.threadMu.adder < |s.adders|)
    && (s.threadMu.ByDtor? <==> s.dtor.DJoining?)
  }

  // A loop thread that has not returned.
  predicate Live(s: State) {
    s.loops != [] && !Newest(s).pc.Done?
  }

  predicate HolderAt(s: State, pc: AdderPc) {
    s.threadMu.ByAdder? && s.threadMu.adder < |s.adders| && s.adders[s.threadMu.adder] == pc
  }

  ghost predicate HandleOk(s: State) {
    && (forall l :: 0 <= l < |s.loops| - 1 ==> s.loops[l].pc.Done?)
    && (s.handle.Some? ==> s.handle.value + 1 == |s.loops|)
    && (Live(s) ==> s.handle.Some? || HolderAt(s, Assigning(|s.loops| - 1)))
    && (HolderAt(s, Spawning) ==> s.handle.None?)
    && (forall i :: 0 <= i < |s.adders| && s.adders[i].Assigning? ==> s.handle.None? && s.adders[i].loop + 1 == |s.loops|)
    && !s.terminated
  }

  // A loop on its way out holds nothing, unless the reaper is being destroyed.
  ghost predicate TailOk(s: State) {
    && (forall l :: 0 <= l < |s.loops| && s.loops[l].pc.Done? ==> s.loops[l].watched == [])
    && (Live(s) && Newest(s).pc.Tail? && Newest(s).watched != [] ==> s.g.stopping && !AdderHolds(s.adders))
  }

  // ── The wake pipe ───────────────────────────────────────────────────────

  ghost predicate WakeOwed(s: State) {
    || s.dtor.DWaking?
    || exists i :: 0 <= i < |s.adders| && (s.adders[i].Assigning? || s.adders[i].Waking?)
  }

  ghost predicate WakeOk(s: State) {
    s.hasPipe && s.loops != [] && Newest(s).pc.Polling? && (s.g.pending != [] || s.g.stopping)
    ==> s.pipe > 0 || WakeOwed(s)
  }

  // Queued children have a loop, or one coming, unless a poll() failed hard.
  ghost predicate ServedOk(s: State) {
    s.g.pending != [] && !s.g.running ==> s.hardFailed
  }

  ghost predicate Inv(s: State) {
    TokenOk(s) && LockOk(s) && HandleOk(s) && TailOk(s) && WakeOk(s) && ServedOk(s)
  }

  // ── add() ───────────────────────────────────────────────────────────────

  // Only the newest loop can take a step.
  lemma OnlyNewest(s: State, l: nat)
    requires HandleOk(s) && l < |s.loops| && !s.loops[l].pc.Done?
    ensures l == |s.loops| - 1 && Live(s)
  {
  }

  lemma TokenAfter(adders: seq<AdderPc>, i: nat, pc: AdderPc)
    requires i < |adders| && OneAdderToken(adders)
    requires AdderToken(pc) ==> AdderToken(adders[i]) || !AdderHolds(adders)
    ensures OneAdderToken(adders[i := pc])
    ensures AdderHolds(adders[i := pc]) <==> AdderToken(pc) || (AdderHolds(adders) && !AdderToken(adders[i]))
  {
    var after := adders[i := pc];
    assert after[i] == pc;
    if k :| 0 <= k < |adders| && AdderToken(adders[k]) {
      assert k != i ==> after[k] == adders[k];
    }
    if k :| 0 <= k < |after| && AdderToken(after[k]) {
      assert k != i ==> after[k] == adders[k];
    }
  }

  lemma TokenAfterBegin(adders: seq<AdderPc>)
    requires OneAdderToken(adders)
    ensures OneAdderToken(adders + [Opening])
    ensures AdderHolds(adders + [Opening]) <==> AdderHolds(adders)
  {
    var after := adders + [Opening];
    if k :| 0 <= k < |adders| && AdderToken(adders[k]) {
      assert after[k] == adders[k];
    }
    if k :| 0 <= k < |after| && AdderToken(after[k]) {
      assert after[k] == adders[k];
    }
  }

  lemma WakeOwedKept(s: State, s': State, i: nat)
    requires i < |s.adders| && |s.adders| <= |s'.adders| && s'.dtor == s.dtor
    requires forall k :: 0 <= k < |s.adders| && k != i ==> s'.adders[k] == s.adders[k]
    requires WakeOwed(s) && (s.adders[i].Assigning? || s.adders[i].Waking? ==> s'.adders[i].Assigning? || s'.adders[i].Waking?)
    ensures WakeOwed(s')
  {
    if !s.dtor.DWaking? {
      var k :| 0 <= k < |s.adders| && (s.adders[k].Assigning? || s.adders[k].Waking?);
      assert s'.adders[k].Assigning? || s'.adders[k].Waking?;
    }
  }

  lemma BeginAddKeeps(s: State)
    requires Inv(s)
    ensures Inv(Apply(s, BeginAdd))
  {
    var s' := Apply(s, BeginAdd);
    TokenAfterBegin(s.adders);
    if WakeOwed(s) && !s.dtor.DWaking? {
      var k :| 0 <= k < |s.adders| && (s.adders[k].Assigning? || s.adders[k].Waking?);
      assert s'.adders[k] == s.adders[k];
    }
  }

  lemma QuietAddKeeps(s: State, i: nat, e: AddEvent)
    requires Inv(s) && AddEnabled(s, i, e) && (e.OpenOk? || e.OpenFail? || e.LockThread? || e.JoinOld?)
    ensures Inv(AddApply(s, i, e))
  {
    var s' := AddApply(s, i, e);
    TokenAfter(s.adders, i, s'.adders[i]);
    if WakeOwed(s) {
      WakeOwedKept(s, s', i);
    }
  }

  lemma EnqueueDetachedKeeps(s: State, i: nat)
    requires Inv(s) && AddEnabled(s, i, Enqueue) && s.g.stopping
    ensures Inv(EnqueueStep(s, i))
  {
    var s' := EnqueueStep(s, i);
    assert s' == s.(adders := s.adders[i := Finished], waiters := s'.waiters);
    TokenAfter(s.adders, i, Finished);
    if WakeOwed(s) {
      WakeOwedKept(s, s', i);
    }
  }

  lemma EnqueueStartingKeeps(s: State, i: nat)
    requires Inv(s) && AddEnabled(s, i, Enqueue) && !s.g.stopping && !s.g.running
    ensures Inv(EnqueueStep(s, i))
  {
    var s' := EnqueueStep(s, i);
    assert s' == s.(adders := s.adders[i := Starting], g := s'.g);
    assert !LoopHolds(s) && !AdderHolds(s.adders);
    TokenAfter(s.adders, i, Starting);
  }

  lemma EnqueueWakingKeeps(s: State, i: nat)
    requires Inv(s) && AddEnabled(s, i, Enqueue) && !s.g.stopping && s.g.running
    ensures Inv(EnqueueStep(s, i))
  {
    var s' := EnqueueStep(s, i);
    assert s' == s.(adders := s.adders[i := Waking], g := s'.g);
    TokenAfter(s.adders, i, Waking);
    assert s'.adders[i].Waking?;
  }

  lemma SpawnKeeps(s: State, i: nat)
    requires Inv(s) && AddEnabled(s, i, Spawn)
    ensures Inv(SpawnStep(s, i))
  {
    var s' := SpawnStep(s, i);
    assert HolderAt(s, Spawning);
    TokenAfter(s.adders, i, s'.adders[i]);
    assert AdderHolds(s.adders);
    assert Newest(s') == Loop(Taking, [], []);
  }

  lemma AssignKeeps(s: State, i: nat)
    requires Inv(s) && AddEnabled(s, i, Assign)
    ensures Inv(AssignStep(s, i))
  {
    var s' := AssignStep(s, i);
    TokenAfter(s.adders, i, Waking);
    assert s'.adders[i].Waking?;
    assert WakeOwed(s');
  }

  lemma WakeKeeps(s: State, i: nat)
    requires Inv(s) && AddEnabled(s, i, Wake)
    ensures Inv(AddApply(s, i, Wake))
  {
    TokenAfter(s.adders, i, Finished);
  }

  lemma AddKeeps(s: State, i: nat, e: AddEvent)
    requires Inv(s) && AddEnabled(s, i, e)
    ensures Inv(AddApply(s, i, e))
  {
    match e
    case Enqueue =>
      if s.g.stopping {
        EnqueueDetachedKeeps(s, i);
      } else if s.g.running {
        EnqueueWakingKeeps(s, i);
      } else {
        EnqueueStartingKeeps(s, i);
      }
    case Spawn => SpawnKeeps(s, i);
    case Assign => AssignKeeps(s, i);
    case Wake => WakeKeeps(s, i);
    case _ => QuietAddKeeps(s, i, e);
  }

  // ── loop() ──────────────────────────────────────────────────────────────

  lemma TakeKeeps(s: State, l: nat)
    requires Inv(s) && LoopEnabled(s, l, Take)
    ensures Inv(TakeStep(s, l))
  {
    OnlyNewest(s, l);
  }

  lemma ClearKeeps(s: State, l: nat)
    requires Inv(s) && LoopEnabled(s, l, ClearAfterFailure)
    ensures Inv(ClearAfterFailureStep(s, l))
  {
    OnlyNewest(s, l);
  }

  // The newest loop moves on without touching the guarded fields, and does not
  // arrive at poll().
  ghost predicate LoopMoves(s: State, s': State, l: nat) {
    && l + 1 == |s.loops| && |s'.loops| == |s.loops| && s'.loops[..l] == s.loops[..l]
    && s' == s.(loops := s'.loops, pipe := s'.pipe, waiters := s'.waiters, reaped := s'.reaped, closed := s'.closed)
    && var was, now := s.loops[l], s'.loops[l];
       && !was.pc.Done?
       && (LoopToken(now.pc) <==> LoopToken(was.pc))
       && (now.pc.Done? ==> now.watched == [])
       && (now.pc.Tail? && now.watched != [] ==> was.pc.Tail? && was.watched != [])
       && !now.pc.Polling?
  }

  lemma LoopMoveKeeps(s: State, s': State, l: nat)
    requires Inv(s) && LoopMoves(s, s', l)
    ensures Inv(s')
  {
    assert forall k :: 0 <= k < l ==> s'.loops[k] == s'.loops[..l][k] && s.loops[k] == s.loops[..l][k];
    assert HandleOk(s');
    assert TailOk(s');
  }

  lemma LoopMovesOn(s: State, l: nat, e: LoopEvent)
    requires Inv(s) && LoopEnabled(s, l, e) && !e.Take? && !e.ClearAfterFailure?
    ensures LoopMoves(s, LoopApply(s, l, e), l)
  {
    OnlyNewest(s, l);
  }

  lemma LoopKeeps(s: State, l: nat, e: LoopEvent)
    requires Inv(s) && LoopEnabled(s, l, e)
    ensures Inv(LoopApply(s, l, e))
  {
    match e
    case Take => TakeKeeps(s, l);
    case ClearAfterFailure => ClearKeeps(s, l);
    case _ =>
      LoopMovesOn(s, l, e);
      LoopMoveKeeps(s, LoopApply(s, l, e), l);
  }

  lemma DtorJoinKeeps(s: State)
    requires Inv(s) && DtorEnabled(s, DtorJoin)
    ensures Inv(DtorApply(s, DtorJoin))
  {
    assert !s.threadMu.ByAdder?;
  }

  lemma DtorStopKeeps(s: State)
    requires Inv(s) && DtorEnabled(s, DtorStop)
    ensures Inv(DtorApply(s, DtorStop))
  {
  }

  lemma DtorWakeKeeps(s: State)
    requires Inv(s) && DtorEnabled(s, DtorWake)
    ensures Inv(DtorApply(s, DtorWake))
  {
  }

  lemma DtorLockKeeps(s: State)
    requires Inv(s) && DtorEnabled(s, DtorLock)
    ensures Inv(DtorApply(s, DtorLock))
  {
  }

  lemma DtorKeeps(s: State, e: DtorEvent)
    requires Inv(s) && DtorEnabled(s, e)
    ensures Inv(DtorApply(s, e))
  {
    match e
    case DtorStop => DtorStopKeeps(s);
    case DtorWake => DtorWakeKeeps(s);
    case DtorLock => DtorLockKeeps(s);
    case DtorJoin => DtorJoinKeeps(s);
    case _ =>
  }

  lemma StepKeeps(s: State, e: Event)
    requires Inv(s) && Enabled(s, e)
    ensures Inv(Apply(s, e))
  {
    match e
    case BeginAdd => BeginAddKeeps(s);
    case Adding(i, add) => AddKeeps(s, i, add);
    case Looping(l, loop) => LoopKeeps(s, l, loop);
    case WaiterReaps(w) =>
    case Destroying(dtor) => DtorKeeps(s, dtor);
  }

  lemma {:induction false} Safety(hasPipe: bool, events: seq<Event>)
    requires IsRun(hasPipe, events)
    ensures Inv(After(hasPipe, events))
  {
    if events != [] {
      LastStep(hasPipe, events);
      Safety(hasPipe, events[..|events| - 1]);
      StepKeeps(After(hasPipe, events[..|events| - 1]), events[|events| - 1]);
    }
  }
}
