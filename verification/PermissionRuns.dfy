/** Runs of the permission flow: every interleaving of calls, answers, close and
    other writers of the store. */
module PermissionRuns {

  import opened Decimal
  import opened PermissionStore
  import opened PermissionFlow
  import opened Wrappers

  // ── Calls ───────────────────────────────────────────────────────────────

  // Where a status in a result came from.
  datatype Source = FromStore(status: Status) | NoListener | FromPrompt(p: nat)

  datatype Pc =
    | Ready                             // about to ask the store
    | Got(status: Status)               // the store has replied
    | Awaiting(p: nat)                  // the prompt's future
    | Writing(p: nat, status: Status)   // setStatus is on its way
    | Finished
    | Failed                            // an exception ended the call

  // One ensureLaunchPermissions: the permissions to resolve, how many are, and the
  // result so far.
  datatype Call = Call(app: string, todo: seq<string>, at: nat, pc: Pc, result: map<string, Status>, sources: seq<Source>)

  datatype Write = Write(call: nat, p: nat, resource: Resource, app: string, status: Status)

  datatype State = State(flow: Flow, calls: seq<Call>, entries: Entries, writes: seq<Write>)

  datatype Event =
    | Begin(app: string, todo: seq<string>)     // the permissions derived from its metadata
    | Reply(c: nat)                             // the store answers a get
    | Throw(c: nat)                             // a get or a set fails
    | Continue(c: nat, listener: bool)          // after the reply
    | Respond(id: string, granted: bool)
    | Close
    | Resume(c: nat)                            // after the prompt
    | Persist(c: nat)                           // the store takes the answer
    | Elsewhere(r: Resource, app: string, permissions: seq<string>)

  predicate Distinct(todo: seq<string>) {
    forall i, j :: 0 <= i < j < |todo| ==> todo[i] != todo[j]
  }

  function Decision(granted: bool): Status {
    if granted then Granted else Denied
  }

  // The permission is resolved; the loop goes on.
  function Resolved(c: Call, status: Status, source: Source): Call
    requires c.at < |c.todo|
  {
    c.(result := c.result[c.todo[c.at] := status], sources := c.sources + [source], at := c.at + 1,
       pc := if c.at + 1 == |c.todo| then Finished else Ready)
  }

  ghost predicate Live(s: State, k: nat) {
    k < |s.calls| && s.calls[k].at < |s.calls[k].todo|
  }

  ghost predicate Enabled(s: State, e: Event) {
    match e
    case Begin(_, todo) => Distinct(todo)
    case Reply(k) => Live(s, k) && s.calls[k].pc.Ready?
    case Throw(k) => Live(s, k) && (s.calls[k].pc.Ready? || s.calls[k].pc.Writing?)
    case Continue(k, _) => Live(s, k) && s.calls[k].pc.Got?
    case Resume(k) => Live(s, k) && s.calls[k].pc.Awaiting? && s.calls[k].pc.p < |s.flow.prompts|
      && !s.flow.prompts[s.calls[k].pc.p].answer.Waiting?
    case Persist(k) => Live(s, k) && s.calls[k].pc.Writing?
    case _ => true
  }

  function With(s: State, k: nat, c: Call): State
    requires k < |s.calls|
  {
    s.(calls := s.calls[k := c])
  }

  ghost function OnReply(s: State, k: nat): State
    requires Enabled(s, Reply(k))
  {
    var c := s.calls[k];
    With(s, k, c.(pc := Got(StatusAt(s.entries, Target(c.todo[c.at], c.app), c.app))))
  }

  // The synchronous part of the loop body after a get.
  ghost function OnContinue(s: State, k: nat, listener: bool): State
    requires Live(s, k) && s.calls[k].pc.Got?
  {
    var c := s.calls[k];
    if c.pc.status != NotSet then With(s, k, Resolved(c, c.pc.status, FromStore(c.pc.status)))
    else if !listener then With(s, k, Resolved(c, Ask, NoListener))
    else
      var flow := Prompted(s.flow, k, c.app, c.todo[c.at], c.pc.status);
      With(s, k, c.(pc := if s.flow.closed then Failed else Awaiting(|s.flow.prompts|))).(flow := flow)
  }

  ghost function OnResume(s: State, k: nat): State
    requires Enabled(s, Resume(k))
  {
    var c := s.calls[k];
    var a := s.flow.prompts[c.pc.p].answer;
    With(s, k, if a.Answered? then c.(pc := Writing(c.pc.p, Decision(a.granted))) else Resolved(c, Ask, FromPrompt(c.pc.p)))
  }

  ghost function OnPersist(s: State, k: nat): State
    requires Enabled(s, Persist(k))
  {
    var c := s.calls[k];
    var r := Target(c.todo[c.at], c.app);
    var t := With(s, k, Resolved(c, c.pc.status, FromPrompt(c.pc.p)));
    t.(entries := WithEntry(s.entries, r, c.app, Permissions(c.pc.status)),
       writes := s.writes + [Write(k, c.pc.p, r, c.app, c.pc.status)])
  }

  ghost function Apply(s: State, e: Event): State
    requires Enabled(s, e)
  {
    match e
    case Begin(app, todo) => s.(calls := s.calls + [Call(app, todo, 0, if todo == [] then Finished else Ready, map[], [])])
    case Reply(k) => OnReply(s, k)
    case Throw(k) => With(s, k, s.calls[k].(pc := Failed))
    case Continue(k, listener) => OnContinue(s, k, listener)
    case Respond(id, granted) => s.(flow := Responded(s.flow, id, granted))
    case Close => s.(flow := Closed(s.flow))
    case Resume(k) => OnResume(s, k)
    case Persist(k) => OnPersist(s, k)
    case Elsewhere(r, app, permissions) => s.(entries := WithEntry(s.entries, r, app, permissions))
  }

  ghost predicate Initial(s: State) {
    s.flow == Flow(map[], 0, [], false) && s.calls == [] && s.writes == []
  }

  ghost function Exec(s: State, events: seq<Event>): Option<State>
    decreases |events|
  {
    if events == [] then Some(s)
    else if Enabled(s, events[0]) then Exec(Apply(s, events[0]), events[1..])
    else None
  }

  // ── Invariant ───────────────────────────────────────────────────────────

  // Prompt p is the one call k made for its current permission.
  ghost predicate Mine(prompts: seq<Prompt>, p: nat, k: nat, app: string, permission: string) {
    p < |prompts| && prompts[p].call == k && prompts[p].app == app && prompts[p].permission == permission
  }

  ghost predicate Unwritten(writes: seq<Write>, p: nat) {
    forall i :: 0 <= i < |writes| ==> writes[i].p != p
  }

  // The i-th status of a call's result is what its source says: the store's word,
  // ask, or the answer to the call's own prompt.
  ghost predicate Justified(prompts: seq<Prompt>, c: Call, k: nat, i: nat) {
    && i < |c.todo| && i < |c.sources| && c.todo[i] in c.result
    && match c.sources[i]
       case FromStore(status) => status != NotSet && c.result[c.todo[i]] == status
       case NoListener => c.result[c.todo[i]] == Ask
       case FromPrompt(p) =>
         && Mine(prompts, p, k, c.app, c.todo[i])
         && !prompts[p].answer.Waiting?
         && c.result[c.todo[i]] == (match prompts[p].answer case Answered(granted) => if granted then Granted else Denied case _ => Ask)
  }

  ghost predicate CallOk(f: Flow, writes: seq<Write>, c: Call, k: nat) {
    && c.at <= |c.todo| && |c.sources| == c.at && Distinct(c.todo)
    && (c.pc.Finished? ==> c.at == |c.todo|)
    && (forall i :: 0 <= i < c.at ==> Justified(f.prompts, c, k, i))
    && (c.pc.Awaiting? ==> c.at < |c.todo| && AwaitingOk(f, writes, c, k))
    && (c.pc.Writing? ==> c.at < |c.todo| && WritingOk(f, writes, c, k))
  }

  // A prompt still waited for can be answered or cancelled: it is pending.
  ghost predicate AwaitingOk(f: Flow, writes: seq<Write>, c: Call, k: nat)
    requires c.pc.Awaiting? && c.at < |c.todo|
  {
    && Mine(f.prompts, c.pc.p, k, c.app, c.todo[c.at]) && Unwritten(writes, c.pc.p)
    && (f.prompts[c.pc.p].answer.Waiting? ==> IsPending(f, c.pc.p) && !f.closed)
  }

  ghost predicate WritingOk(f: Flow, writes: seq<Write>, c: Call, k: nat)
    requires c.pc.Writing? && c.at < |c.todo|
  {
    && Mine(f.prompts, c.pc.p, k, c.app, c.todo[c.at]) && Unwritten(writes, c.pc.p)
    && f.prompts[c.pc.p].answer.Answered?
    && c.pc.status == if f.prompts[c.pc.p].answer.granted then Granted else Denied
  }

  // A write stores the answer to the writer's own prompt where its permission lives.
  ghost predicate WriteOk(prompts: seq<Prompt>, w: Write) {
    && w.p < |prompts| && prompts[w.p].call == w.call && prompts[w.p].app == w.app
    && w.resource == Target(prompts[w.p].permission, w.app)
    && prompts[w.p].answer.Answered?
    && w.status == if prompts[w.p].answer.granted then Granted else Denied
  }

  ghost predicate WritesOk(prompts: seq<Prompt>, writes: seq<Write>) {
    && (forall i :: 0 <= i < |writes| ==> WriteOk(prompts, writes[i]))
    && (forall i, j :: 0 <= i < j < |writes| ==> writes[i].p != writes[j].p)
  }

  ghost predicate Inv(s: State) {
    && FlowOk(s.flow)
    && WritesOk(s.flow.prompts, s.writes)
    && forall k :: 0 <= k < |s.calls| ==> CallOk(s.flow, s.writes, s.calls[k], k)
  }

  // ── Preservation ────────────────────────────────────────────────────────

  // Prompts are only added, and an answer once given stays.
  ghost predicate Grown(before: seq<Prompt>, after: seq<Prompt>) {
    && |before| <= |after|
    && forall i :: 0 <= i < |before| ==> SamePrompt(before[i], after[i])
  }

  ghost predicate SamePrompt(p: Prompt, q: Prompt) {
    && q.call == p.call && q.app == p.app && q.permission == p.permission
    && (!p.answer.Waiting? ==> q.answer == p.answer)
  }

  // A waiting prompt stays pending on an open flow, or gets its answer.
  ghost predicate Served(f: Flow, g: Flow) {
    && Grown(f.prompts, g.prompts)
    && forall p: nat :: IsPending(f, p) && !f.closed ==>
         p < |g.prompts| && (!g.prompts[p].answer.Waiting? || (IsPending(g, p) && !g.closed))
  }

  lemma FlowStepKeepsInv(s: State, g: Flow)
    requires Inv(s) && FlowOk(g) && Served(s.flow, g)
    ensures Inv(s.(flow := g))
  {
    forall k | 0 <= k < |s.calls| ensures CallOk(g, s.writes, s.calls[k], k) {
      FlowStepKeepsCall(s.flow, g, s.writes, s.calls[k], k);
    }
    forall i | 0 <= i < |s.writes| ensures WriteOk(g.prompts, s.writes[i]) {
      assert SamePrompt(s.flow.prompts[s.writes[i].p], g.prompts[s.writes[i].p]);
    }
  }

  lemma FlowStepKeepsCall(f: Flow, g: Flow, writes: seq<Write>, c: Call, k: nat)
    requires Served(f, g) && CallOk(f, writes, c, k)
    ensures CallOk(g, writes, c, k)
  {
    forall i | 0 <= i < c.at ensures Justified(g.prompts, c, k, i) {
      assert Justified(f.prompts, c, k, i);
      if c.sources[i].FromPrompt? {
        assert SamePrompt(f.prompts[c.sources[i].p], g.prompts[c.sources[i].p]);
      }
    }
    if c.pc.Awaiting? || c.pc.Writing? {
      assert SamePrompt(f.prompts[c.pc.p], g.prompts[c.pc.p]);
    }
  }

  lemma RespondServes(f: Flow, id: string, granted: bool)
    requires FlowOk(f)
    ensures Served(f, Responded(f, id, granted))
  {
    var g := Responded(f, id, granted);
    forall p: nat | IsPending(f, p) && !f.closed
      ensures p < |g.prompts| && (!g.prompts[p].answer.Waiting? || (IsPending(g, p) && !g.closed))
    {
      if f.prompts[p].id != id {
        assert g.prompts[p] == f.prompts[p];
      }
    }
  }

  lemma CloseServes(f: Flow)
    requires FlowOk(f)
    ensures Served(f, Closed(f))
  {
  }

  lemma PromptServes(f: Flow, call: nat, app: string, permission: string)
    requires FlowOk(f)
    ensures Served(f, Prompted(f, call, app, permission, NotSet))
    ensures IsPending(Prompted(f, call, app, permission, NotSet), f.next)
  {
    PromptKeepsFlow(f, call, app, permission);
    var g := Prompted(f, call, app, permission, NotSet);
    forall p: nat | IsPending(f, p) ensures IsPending(g, p) {
      assert f.prompts[p].id in f.pending;
      assert g.prompts[p] == f.prompts[p];
    }
  }

  lemma CallStepKeepsInv(s: State, k: nat, c: Call)
    requires Inv(s) && k < |s.calls| && CallOk(s.flow, s.writes, c, k)
    ensures Inv(With(s, k, c))
  {
  }

  lemma ResolvedIsOk(f: Flow, writes: seq<Write>, c: Call, k: nat, status: Status, source: Source)
    requires CallOk(f, writes, c, k) && c.at < |c.todo|
    requires Justified(f.prompts, Resolved(c, status, source), k, c.at)
    ensures CallOk(f, writes, Resolved(c, status, source), k)
  {
    var d := Resolved(c, status, source);
    forall i | 0 <= i < d.at ensures Justified(f.prompts, d, k, i) {
      if i < c.at {
        assert Justified(f.prompts, c, k, i);
        assert c.todo[i] != c.todo[c.at];
      }
    }
  }

  lemma ContinueKeepsInv(s: State, k: nat, listener: bool)
    requires Inv(s) && Enabled(s, Continue(k, listener))
    ensures Inv(OnContinue(s, k, listener))
  {
    var c := s.calls[k];
    assert CallOk(s.flow, s.writes, c, k);
    if c.pc.status != NotSet {
      ResolvedIsOk(s.flow, s.writes, c, k, c.pc.status, FromStore(c.pc.status));
    } else if !listener {
      ResolvedIsOk(s.flow, s.writes, c, k, Ask, NoListener);
    } else {
      var g := Prompted(s.flow, k, c.app, c.todo[c.at], NotSet);
      PromptKeepsFlow(s.flow, k, c.app, c.todo[c.at]);
      PromptServes(s.flow, k, c.app, c.todo[c.at]);
      FlowStepKeepsInv(s, g);
      var t := s.(flow := g);
      var d := c.(pc := if s.flow.closed then Failed else Awaiting(|s.flow.prompts|));
      assert CallOk(g, s.writes, c, k);
      assert forall i :: 0 <= i < d.at ==> Justified(g.prompts, c, k, i) ==> Justified(g.prompts, d, k, i);
      assert CallOk(g, s.writes, d, k);
      CallStepKeepsInv(t, k, d);
      assert OnContinue(s, k, listener) == With(t, k, d);
    }
  }

  lemma ResumeKeepsInv(s: State, k: nat)
    requires Inv(s) && Enabled(s, Resume(k))
    ensures Inv(OnResume(s, k))
  {
    var c := s.calls[k];
    assert CallOk(s.flow, s.writes, c, k);
    var a := s.flow.prompts[c.pc.p].answer;
    if a.Answered? {
      SamePcIsOk(s.flow, s.writes, c, k, Writing(c.pc.p, Decision(a.granted)));
    } else {
      ResolvedIsOk(s.flow, s.writes, c, k, Ask, FromPrompt(c.pc.p));
    }
  }

  // A call may change its program counter alone.
  lemma SamePcIsOk(f: Flow, writes: seq<Write>, c: Call, k: nat, pc: Pc)
    requires CallOk(f, writes, c, k) && !pc.Finished?
    requires pc.Awaiting? ==> c.at < |c.todo| && AwaitingOk(f, writes, c.(pc := pc), k)
    requires pc.Writing? ==> c.at < |c.todo| && WritingOk(f, writes, c.(pc := pc), k)
    ensures CallOk(f, writes, c.(pc := pc), k)
  {
    forall i | 0 <= i < c.at ensures Justified(f.prompts, c.(pc := pc), k, i) {
      assert Justified(f.prompts, c, k, i);
    }
  }

  lemma PersistKeepsInv(s: State, k: nat)
    requires Inv(s) && Enabled(s, Persist(k))
    ensures Inv(OnPersist(s, k))
  {
    var c := s.calls[k];
    assert CallOk(s.flow, s.writes, c, k);
    var w := Write(k, c.pc.p, Target(c.todo[c.at], c.app), c.app, c.pc.status);
    ResolvedIsOk(s.flow, s.writes, c, k, c.pc.status, FromPrompt(c.pc.p));
    var d := Resolved(c, c.pc.status, FromPrompt(c.pc.p));
    var t := OnPersist(s, k);
    forall j | 0 <= j < |t.calls| ensures CallOk(t.flow, t.writes, t.calls[j], j) {
      assert CallOk(s.flow, s.writes, if j == k then d else s.calls[j], j);
      WriteKeepsCall(s.flow, s.writes, t.calls[j], j, w);
    }
  }

  // The prompt of a write is its caller's, so no other call waits for it.
  lemma WriteKeepsCall(f: Flow, writes: seq<Write>, c: Call, k: nat, w: Write)
    requires CallOk(f, writes, c, k) && WriteOk(f.prompts, w)
    requires c.pc.Awaiting? || c.pc.Writing? ==> w.call != k
    ensures CallOk(f, writes + [w], c, k)
  {
  }

  lemma EventKeepsInv(s: State, e: Event)
    requires Inv(s) && Enabled(s, e)
    ensures Inv(Apply(s, e))
  {
    match e
    case Begin(app, todo) =>
      assert forall k :: 0 <= k < |s.calls| ==> CallOk(s.flow, s.writes, s.calls[k], k);
    case Reply(k) =>
      SamePcIsOk(s.flow, s.writes, s.calls[k], k, OnReply(s, k).calls[k].pc);
    case Throw(k) =>
      SamePcIsOk(s.flow, s.writes, s.calls[k], k, Failed);
    case Continue(k, listener) => ContinueKeepsInv(s, k, listener);
    case Respond(id, granted) =>
      RespondKeepsFlow(s.flow, id, granted);
      RespondServes(s.flow, id, granted);
      FlowStepKeepsInv(s, Responded(s.flow, id, granted));
    case Close =>
      CloseKeepsFlow(s.flow);
      CloseServes(s.flow);
      FlowStepKeepsInv(s, Closed(s.flow));
    case Resume(k) => ResumeKeepsInv(s, k);
    case Persist(k) => PersistKeepsInv(s, k);
    case Elsewhere(_, _, _) =>
  }

  lemma {:induction false} RunKeepsInv(s: State, events: seq<Event>)
    requires Inv(s) && Exec(s, events).Some?
    ensures Inv(Exec(s, events).value)
    decreases |events|
  {
    if events != [] {
      EventKeepsInv(s, events[0]);
      RunKeepsInv(Apply(s, events[0]), events[1..]);
    }
  }

  // ── Theorems ────────────────────────────────────────────────────────────

  // In every run: no request id is used twice and no prompt is completed twice; a
  // write was made by a call that had itself read notSet, stores the answer given
  // to that call's own prompt where its permission lives, and no prompt leads to
  // two writes; and every status of every result is justified by its source.
  lemma PermissionSafety(s: State, events: seq<Event>)
    requires Initial(s) && Exec(s, events).Some?
    ensures var t := Exec(s, events).value; var ps := t.flow.prompts;
      && (forall i, j :: 0 <= i < j < |ps| ==> ps[i].id != ps[j].id)
      && (forall i :: 0 <= i < |ps| ==> ps[i].completions <= 1)
      && (forall i :: 0 <= i < |t.writes| ==> WriteOk(ps, t.writes[i]) && ps[t.writes[i].p].read == NotSet)
      && (forall i, j :: 0 <= i < j < |t.writes| ==> t.writes[i].p != t.writes[j].p)
      && (forall k, i :: 0 <= k < |t.calls| && 0 <= i < t.calls[k].at ==> Justified(ps, t.calls[k], k, i))
  {
    RunKeepsInv(s, events);
    var t := Exec(s, events).value;
    forall i, j | 0 <= i < j < |t.flow.prompts| ensures t.flow.prompts[i].id != t.flow.prompts[j].id {
      PromptsAreDistinct(t.flow, i, j);
    }
    forall k, i | 0 <= k < |t.calls| && 0 <= i < t.calls[k].at ensures Justified(t.flow.prompts, t.calls[k], k, i) {
      assert CallOk(t.flow, t.writes, t.calls[k], k);
    }
    forall i | 0 <= i < |t.writes| ensures t.flow.prompts[t.writes[i].p].read == NotSet {
      assert WriteOk(t.flow.prompts, t.writes[i]) && PromptOk(t.flow.prompts[t.writes[i].p], t.writes[i].p);
    }
  }

  // While the flow is open a call that waits can be answered by its id; once it is
  // closed, none is left waiting.
  lemma NoCallIsStranded(s: State, events: seq<Event>, k: nat)
    requires Initial(s) && Exec(s, events).Some?
    requires var t := Exec(s, events).value; k < |t.calls| && t.calls[k].pc.Awaiting?
    ensures var t := Exec(s, events).value; var p := t.calls[k].pc.p;
      && p < |t.flow.prompts|
      && (t.flow.closed ==> !t.flow.prompts[p].answer.Waiting?)
      && (t.flow.prompts[p].answer.Waiting? ==>
            forall granted :: Responded(t.flow, t.flow.prompts[p].id, granted).prompts[p].answer == Answered(granted))
      && (!t.flow.prompts[p].answer.Waiting? ==> Enabled(t, Resume(k)))
  {
    RunKeepsInv(s, events);
    var t := Exec(s, events).value;
    assert CallOk(t.flow, t.writes, t.calls[k], k);
  }

  // The call is still busy with prompt p for its i-th permission, has failed at it,
  // or has resolved it from p.
  ghost predicate Follows(c: Call, todo: seq<string>, p: nat, i: nat) {
    && c.todo == todo && i < |todo| && |c.sources| == c.at
    && (|| (c.at == i && (c.pc == Awaiting(p) || (c.pc.Writing? && c.pc.p == p) || c.pc.Failed?))
        || (c.at > i && c.sources[i] == FromPrompt(p)))
  }

  // The call an event belongs to, if it belongs to one.
  function CallOf(e: Event): Option<nat> {
    match e
    case Reply(c) => Some(c)
    case Throw(c) => Some(c)
    case Continue(c, _) => Some(c)
    case Resume(c) => Some(c)
    case Persist(c) => Some(c)
    case _ => None
  }

  lemma OthersStay(s: State, e: Event, k: nat)
    requires Enabled(s, e) && k < |s.calls| && CallOf(e) != Some(k)
    ensures k < |Apply(s, e).calls| && Apply(s, e).calls[k] == s.calls[k]
  {
  }

  lemma StepFollows(s: State, e: Event, k: nat, todo: seq<string>, p: nat, i: nat)
    requires Inv(s) && Enabled(s, e) && k < |s.calls| && Follows(s.calls[k], todo, p, i)
    ensures k < |Apply(s, e).calls| && Follows(Apply(s, e).calls[k], todo, p, i)
  {
    if CallOf(e) != Some(k) {
      OthersStay(s, e, k);
    }
  }

  lemma StepKeepsAnswer(s: State, e: Event, p: nat)
    requires Inv(s) && Enabled(s, e) && p < |s.flow.prompts| && !s.flow.prompts[p].answer.Waiting?
    ensures p < |Apply(s, e).flow.prompts| && Apply(s, e).flow.prompts[p].answer == s.flow.prompts[p].answer
  {
    if e.Respond? {
      RespondServes(s.flow, e.id, e.granted);
      assert SamePrompt(s.flow.prompts[p], Responded(s.flow, e.id, e.granted).prompts[p]);
    } else if e.Close? {
      CloseServes(s.flow);
      assert SamePrompt(s.flow.prompts[p], Closed(s.flow).prompts[p]);
    }
  }

  lemma {:induction false} RunFollows(s: State, events: seq<Event>, k: nat, todo: seq<string>, p: nat, i: nat)
    requires Inv(s) && Exec(s, events).Some? && k < |s.calls| && Follows(s.calls[k], todo, p, i)
    requires p < |s.flow.prompts| && !s.flow.prompts[p].answer.Waiting?
    ensures var t := Exec(s, events).value;
      && k < |t.calls| && Follows(t.calls[k], todo, p, i)
      && p < |t.flow.prompts| && t.flow.prompts[p].answer == s.flow.prompts[p].answer
    decreases |events|
  {
    if events != [] {
      var t := Apply(s, events[0]);
      EventKeepsInv(s, events[0]);
      StepFollows(s, events[0], k, todo, p, i);
      StepKeepsAnswer(s, events[0], p);
      RunFollows(t, events[1..], k, todo, p, i);
    }
  }

  // The call still waits for prompt p, or has resolved its i-th permission from it.
  ghost predicate Asks(c: Call, p: nat, i: nat) {
    && i < |c.todo| && |c.sources| == c.at
    && ((c.at == i && c.pc == Awaiting(p)) || (c.at > i && c.sources[i] == FromPrompt(p)))
  }

  lemma StepAsks(s: State, e: Event, k: nat, p: nat, i: nat)
    requires Inv(s) && Enabled(s, e) && k < |s.calls| && Asks(s.calls[k], p, i)
    requires p < |s.flow.prompts| && s.flow.prompts[p].answer.Cancelled?
    ensures k < |Apply(s, e).calls| && Asks(Apply(s, e).calls[k], p, i)
  {
    if CallOf(e) != Some(k) {
      OthersStay(s, e, k);
    }
  }

  // Nothing can make a call fail at a prompt that has been cancelled.
  lemma {:induction false} RunAsks(s: State, events: seq<Event>, k: nat, p: nat, i: nat)
    requires Inv(s) && Exec(s, events).Some? && k < |s.calls| && Asks(s.calls[k], p, i)
    requires p < |s.flow.prompts| && s.flow.prompts[p].answer.Cancelled?
    ensures k < |Exec(s, events).value.calls| && Asks(Exec(s, events).value.calls[k], p, i)
    decreases |events|
  {
    if events != [] {
      EventKeepsInv(s, events[0]);
      StepAsks(s, events[0], k, p, i);
      StepKeepsAnswer(s, events[0], p);
      RunAsks(Apply(s, events[0]), events[1..], k, p, i);
    }
  }

  // A prompt decides its permission: whatever happens after its answer, or after
  // close cancelled it, if the call gets past the permission its result is that
  // answer, or ask. A cancelled prompt is never written, and the call gets past it
  // or still has to resume: it cannot fail there.
  lemma PromptDecides(s: State, events: seq<Event>, k: nat)
    requires Inv(s) && Exec(s, events).Some? && k < |s.calls| && s.calls[k].pc.Awaiting?
    requires var p := s.calls[k].pc.p; p < |s.flow.prompts| && !s.flow.prompts[p].answer.Waiting?
    ensures var t := Exec(s, events).value; var c := s.calls[k];
      var i, a := c.at, s.flow.prompts[c.pc.p].answer;
      && k < |t.calls| && t.calls[k].todo == c.todo && i < |c.todo|
      && (t.calls[k].at > i ==> c.todo[i] in t.calls[k].result)
      && (t.calls[k].at > i ==> t.calls[k].result[c.todo[i]] == if a.Cancelled? then Ask else if a.granted then Granted else Denied)
      && (a.Cancelled? ==> Unwritten(t.writes, c.pc.p))
      && (a.Cancelled? ==> t.calls[k].at > i || (t.calls[k].pc == Awaiting(c.pc.p) && Enabled(t, Resume(k))))
  {
    var c := s.calls[k];
    assert CallOk(s.flow, s.writes, c, k);
    RunFollows(s, events, k, c.todo, c.pc.p, c.at);
    if s.flow.prompts[c.pc.p].answer.Cancelled? {
      RunAsks(s, events, k, c.pc.p, c.at);
    }
    RunKeepsInv(s, events);
    var t := Exec(s, events).value;
    assert CallOk(t.flow, t.writes, t.calls[k], k);
    if t.calls[k].at > c.at {
      assert Justified(t.flow.prompts, t.calls[k], k, c.at);
    }
    forall j | 0 <= j < |t.writes| && s.flow.prompts[c.pc.p].answer.Cancelled? ensures t.writes[j].p != c.pc.p {
      assert WriteOk(t.flow.prompts, t.writes[j]);
    }
  }

  // close cancels every prompt that is waited for.
  lemma CloseCancels(s: State, k: nat)
    requires Inv(s) && k < |s.calls| && s.calls[k].pc.Awaiting?
    requires s.calls[k].pc.p < |s.flow.prompts| && s.flow.prompts[s.calls[k].pc.p].answer.Waiting?
    ensures var t := Apply(s, Close);
      t.calls == s.calls && t.writes == s.writes && t.flow.prompts[s.calls[k].pc.p].answer == Cancelled
  {
    assert CallOk(s.flow, s.writes, s.calls[k], k);
    CloseKeepsFlow(s.flow);
  }

  // ── What a call does with each permission ───────────────────────────────

  lemma TwoSteps(s: State, d: Event, e: Event)
    requires Enabled(s, d) && Enabled(Apply(s, d), e)
    ensures Exec(s, [d, e]) == Some(Apply(Apply(s, d), e))
  {
    assert [d, e][1..] == [e] && [e][1..] == [];
    assert Exec(Apply(s, d), [e]) == Some(Apply(Apply(s, d), e)) by {
      assert Exec(Apply(Apply(s, d), e), []) == Some(Apply(Apply(s, d), e));
    }
  }

  lemma ThreeSteps(s: State, c: Event, d: Event, e: Event)
    requires Enabled(s, c) && Enabled(Apply(s, c), d) && Enabled(Apply(Apply(s, c), d), e)
    ensures Exec(s, [c, d, e]) == Some(Apply(Apply(Apply(s, c), d), e))
  {
    assert [c, d, e][1..] == [d, e];
    TwoSteps(Apply(s, c), d, e);
  }

  // The call has put this status in its result for the permission it was at, and
  // has gone on to the next.
  ghost predicate Settled(c: Call, d: Call, status: Status) {
    && c.at < |c.todo| && d.app == c.app && d.todo == c.todo && d.at == c.at + 1
    && d.result == c.result[c.todo[c.at] := status]
    && (if d.at == |d.todo| then d.pc.Finished? else d.pc.Ready?)
  }

  // The call waits for a prompt of its own, the newest, which can be answered by its id.
  ghost predicate Asking(s: State, t: State, k: nat)
    requires Live(s, k) && k < |t.calls|
  {
    var c := s.calls[k];
    && t.calls[k] == c.(pc := Awaiting(|s.flow.prompts|)) && |t.flow.prompts| == |s.flow.prompts| + 1
    && t.flow.prompts[..|s.flow.prompts|] == s.flow.prompts && !t.flow.closed
    && Mine(t.flow.prompts, |s.flow.prompts|, k, c.app, c.todo[c.at])
    && t.flow.prompts[|s.flow.prompts|].id == c.app + ":" + c.todo[c.at] + ":" + Print(s.flow.next)
    && t.flow.prompts[|s.flow.prompts|].answer.Waiting? && IsPending(t.flow, |s.flow.prompts|)
  }

  // A call that asks the store: a status that is set is the result. An unset one is
  // ask when nobody listens, a prompt when somebody does, and the end of the call
  // when the flow is closed. None of this writes anything.
  lemma StoreIsAskedFirst(s: State, k: nat, listener: bool, status: Status)
    requires Inv(s) && Live(s, k) && s.calls[k].pc.Ready?
    requires status == StatusAt(s.entries, Target(s.calls[k].todo[s.calls[k].at], s.calls[k].app), s.calls[k].app)
    ensures var run := Exec(s, [Reply(k), Continue(k, listener)]);
      && run.Some? && k < |run.value.calls|
      && run.value.entries == s.entries && run.value.writes == s.writes
      && (status != NotSet ==> Settled(s.calls[k], run.value.calls[k], status))
      && (status == NotSet && !listener ==> Settled(s.calls[k], run.value.calls[k], Ask))
      && (status != NotSet || !listener ==> run.value.flow == s.flow)
      && (status == NotSet && listener && !s.flow.closed ==> Asking(s, run.value, k))
      && (status == NotSet && listener && s.flow.closed ==> run.value.calls[k].pc.Failed?)
  {
    TwoSteps(s, Reply(k), Continue(k, listener));
    var c, asked := s.calls[k], OnReply(s, k);
    assert asked.calls[k] == c.(pc := Got(status)) && asked.flow == s.flow;
    if status == NotSet && listener {
      PromptServes(s.flow, k, c.app, c.todo[c.at]);
    }
  }

  lemma PersistStores(s: State, k: nat)
    requires Enabled(s, Persist(k))
    ensures var c, t := s.calls[k], OnPersist(s, k);
      && k < |t.calls| && t.calls[k] == Resolved(c, c.pc.status, FromPrompt(c.pc.p))
      && forall r, app :: Stored(t.entries, r, app)
           == if app == c.app && r == Target(c.todo[c.at], app) then Permissions(c.pc.status) else Stored(s.entries, r, app)
  {
  }

  // What the user says is what the call returns and what is stored: yes or no for
  // exactly this app and permission.
  lemma AnswerIsStored(s: State, k: nat, id: string, granted: bool)
    requires Inv(s) && k < |s.calls| && s.calls[k].pc.Awaiting?
    requires var p := s.calls[k].pc.p; p < |s.flow.prompts| && s.flow.prompts[p].answer.Waiting? && s.flow.prompts[p].id == id
    ensures var run := Exec(s, [Respond(id, granted), Resume(k), Persist(k)]);
      && run.Some? && k < |run.value.calls|
      && Settled(s.calls[k], run.value.calls[k], if granted then Granted else Denied)
      && forall r, app :: Stored(run.value.entries, r, app)
           == if app == s.calls[k].app && r == Target(s.calls[k].todo[s.calls[k].at], app) then [if granted then "yes" else "no"]
              else Stored(s.entries, r, app)
  {
    var c, p := s.calls[k], s.calls[k].pc.p;
    assert CallOk(s.flow, s.writes, c, k);
    var answered := Apply(s, Respond(id, granted));
    assert answered.flow.prompts[p].answer == Answered(granted) && answered.calls == s.calls;
    var writing := Apply(answered, Resume(k));
    assert writing.calls[k] == c.(pc := Writing(p, if granted then Granted else Denied));
    PersistStores(writing, k);
    ThreeSteps(s, Respond(id, granted), Resume(k), Persist(k));
  }

  // A prompt that close cancels is asked again next time: ask is the result, and
  // the store is left as it is.
  lemma CancelledIsAsk(s: State, k: nat)
    requires Inv(s) && k < |s.calls| && s.calls[k].pc.Awaiting?
    requires s.calls[k].pc.p < |s.flow.prompts| && s.flow.prompts[s.calls[k].pc.p].answer.Waiting?
    ensures var run := Exec(s, [Close, Resume(k)]);
      && run.Some? && k < |run.value.calls| && Settled(s.calls[k], run.value.calls[k], Ask)
      && run.value.entries == s.entries && run.value.writes == s.writes && run.value.flow.closed
  {
    assert CallOk(s.flow, s.writes, s.calls[k], k);
    CloseCancels(s, k);
    TwoSteps(s, Close, Resume(k));
  }
}
