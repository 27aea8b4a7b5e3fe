/** The launch-permission flow: any number of concurrent ensureLaunchPermissions
    calls, the answers to their prompts, and close. */
module PermissionFlow {

  import opened Decimal
  import opened PermissionStore

  // ── Prompts ─────────────────────────────────────────────────────────────

  datatype Answer = Waiting | Answered(granted: bool) | Cancelled

  // A request and its completer: the call that made it, what that call had read,
  // and how often the completer was completed.
  datatype Prompt = Prompt(call: nat, app: string, permission: string, read: Status, id: string, answer: Answer, completions: nat)

  function RequestId(app: string, permission: string, n: nat): string {
    app + ":" + permission + ":" + Print(n)
  }

  // The number after the last colon tells two ids apart, whatever the names hold.
  lemma IdsAreDistinct(a: string, p: string, m: nat, b: string, q: string, n: nat)
    requires RequestId(a, p, m) == RequestId(b, q, n)
    ensures m == n
  {
    var s := RequestId(a, p, m);
    var i, j := |s| - |Print(m)|, |s| - |Print(n)|;
    assert s[i - 1] == ':' == s[j - 1];
    assert s[i..] == Print(m) && s[j..] == Print(n);
    assert forall k :: i <= k < |s| ==> s[k] == Print(m)[k - i];
    assert forall k :: j <= k < |s| ==> s[k] == Print(n)[k - j];
    assert i == j;
    PrintRoundTrip(m);
    PrintRoundTrip(n);
  }

  // The fields of a PermissionFlow. A completer is an index into prompts.
  datatype Flow = Flow(pending: map<string, nat>, next: nat, prompts: seq<Prompt>, closed: bool)

  function Completed(p: Prompt, a: Answer): Prompt {
    p.(answer := a, completions := p.completions + 1)
  }

  function Prompted(f: Flow, call: nat, app: string, permission: string, read: Status): Flow {
    var id := RequestId(app, permission, f.next);
    f.(pending := f.pending[id := |f.prompts|], next := f.next + 1,
       prompts := f.prompts + [Prompt(call, app, permission, read, id, Waiting, 0)])
  }

  ghost predicate IsPending(f: Flow, i: nat) {
    i < |f.prompts| && f.prompts[i].id in f.pending && f.pending[f.prompts[i].id] == i
  }

  function Responded(f: Flow, id: string, granted: bool): Flow {
    if id in f.pending && f.pending[id] < |f.prompts| then
      var i := f.pending[id];
      f.(pending := f.pending - {id}, prompts := f.prompts[i := Completed(f.prompts[i], Answered(granted))])
    else
      f
  }

  ghost function Closed(f: Flow): (g: Flow)
    ensures |g.prompts| == |f.prompts|
  {
    f.(pending := map[], closed := true,
       prompts := seq(|f.prompts|, i requires 0 <= i < |f.prompts| =>
         if IsPending(f, i) && f.prompts[i].answer.Waiting? then Completed(f.prompts[i], Cancelled) else f.prompts[i]))
  }

  ghost predicate PromptOk(p: Prompt, i: nat) {
    && p.id == RequestId(p.app, p.permission, i)
    && p.read == NotSet
    && p.completions == if p.answer.Waiting? then 0 else 1
  }

  // What is pending is a prompt under its own id that waits for its answer.
  ghost predicate FlowOk(f: Flow) {
    && |f.prompts| == f.next
    && (forall i :: 0 <= i < |f.prompts| ==> PromptOk(f.prompts[i], i))
    && (forall id :: id in f.pending ==>
          f.pending[id] < |f.prompts| && f.prompts[f.pending[id]].id == id && f.prompts[f.pending[id]].answer.Waiting?)
  }

  lemma PromptKeepsFlow(f: Flow, call: nat, app: string, permission: string)
    requires FlowOk(f)
    ensures FlowOk(Prompted(f, call, app, permission, NotSet))
    ensures RequestId(app, permission, f.next) !in f.pending
  {
    var id := RequestId(app, permission, f.next);
    if id in f.pending {
      var p := f.prompts[f.pending[id]];
      IdsAreDistinct(app, permission, f.next, p.app, p.permission, f.pending[id]);
      assert false;
    }
  }

  lemma RespondKeepsFlow(f: Flow, id: string, granted: bool)
    requires FlowOk(f)
    ensures FlowOk(Responded(f, id, granted))
  {
    var g := Responded(f, id, granted);
    forall other | other in g.pending ensures g.pending[other] < |g.prompts| && g.prompts[g.pending[other]].id == other
        && g.prompts[g.pending[other]].answer.Waiting? {
      assert other in f.pending && other != id;
    }
  }

  lemma CloseKeepsFlow(f: Flow)
    requires FlowOk(f)
    ensures FlowOk(Closed(f))
    ensures forall i :: 0 <= i < |f.prompts| && IsPending(f, i) ==> Closed(f).prompts[i].answer == Cancelled
  {
  }

  // No two prompts ever made have the same id, and none is completed twice.
  lemma PromptsAreDistinct(f: Flow, i: nat, j: nat)
    requires FlowOk(f) && i < j < |f.prompts|
    ensures f.prompts[i].id != f.prompts[j].id && f.prompts[i].completions <= 1
  {
    var p, q := f.prompts[i], f.prompts[j];
    if p.id == q.id {
      IdsAreDistinct(p.app, p.permission, i, q.app, q.permission, j);
      assert false;
    }
  }

  // A prompt while close still has the pending ids left to go through.
  ghost function Closing(was: Flow, left: set<string>, i: nat): Prompt
    requires i < |was.prompts|
  {
    if IsPending(was, i) && was.prompts[i].id !in left then Completed(was.prompts[i], Cancelled) else was.prompts[i]
  }

  // With no id left, what close has made of the prompts is Closed.
  lemma ClosedAll(was: Flow, prompts: seq<Prompt>)
    requires FlowOk(was) && |prompts| == |was.prompts|
    requires forall i :: 0 <= i < |prompts| ==> prompts[i] == Closing(was, {}, i)
    ensures prompts == Closed(was).prompts
  {
  }

  // ── The object ──────────────────────────────────────────────────────────

  class PermissionFlow {
    var pending: map<string, nat>
    var next: nat
    var prompts: seq<Prompt>
    var closed: bool

    constructor ()
      ensures State() == Flow(map[], 0, [], false)
    {
      pending, next, prompts, closed := map[], 0, [], false;
    }

    function State(): Flow
      reads this
    {
      Flow(pending, next, prompts, closed)
    }

    // Completing a completer twice is a StateError.
    method Complete(i: nat, a: Answer)
      requires i < |prompts| && prompts[i].answer.Waiting? && !a.Waiting?
      modifies `prompts
      ensures prompts == old(prompts)[i := Completed(old(prompts)[i], a)]
    {
      prompts := prompts[i := Completed(prompts[i], a)];
    }

    // _prompt. The stream refuses the request once it is closed; the completer is
    // pending by then.
    method Request(call: nat, app: string, permission: string, ghost read: Status) returns (accepted: bool)
      requires FlowOk(State()) && read == NotSet
      modifies this
      ensures State() == Prompted(old(State()), call, app, permission, NotSet) && FlowOk(State())
      ensures accepted == !closed
    {
      PromptKeepsFlow(State(), call, app, permission);
      var id := RequestId(app, permission, next);
      next := next + 1;
      prompts := prompts + [Prompt(call, app, permission, NotSet, id, Waiting, 0)];
      pending := pending[id := |prompts| - 1];
      accepted := !closed;
    }

    method Respond(id: string, granted: bool)
      requires FlowOk(State())
      modifies this
      ensures State() == Responded(old(State()), id, granted) && FlowOk(State())
    {
      RespondKeepsFlow(State(), id, granted);
      if id in pending {
        var i := pending[id];
        pending := pending - {id};
        Complete(i, Answered(granted));
      }
    }

    method Close()
      requires FlowOk(State())
      modifies this
      ensures State() == Closed(old(State())) && FlowOk(State())
    {
      CloseKeepsFlow(State());
      var left := pending.Keys;
      ghost var was := State();
      while left != {}
        invariant left <= pending.Keys && pending == was.pending && next == was.next && |prompts| == |was.prompts|
        invariant forall i :: 0 <= i < |prompts| ==> prompts[i] == Closing(was, left, i)
        decreases |left|
      {
        var id :| id in left;
        left := left - {id};
        var i := pending[id];
        assert was.prompts[i].id == id && IsPending(was, i);
        if prompts[i].answer.Waiting? {
          Complete(i, Cancelled);
        }
      }
      pending := map[];
      closed := true;
      ClosedAll(was, prompts);
    }
  }
}
