/** Execution plans, their approval hash, and the RPC message that carries them. */
module Plans {

  /** A Go slice: nil and an empty slice are different JSON. */
  datatype Slice<T> = Nil | Items(items: seq<T>)

  function Elems<T>(s: Slice<T>): seq<T> { if s.Nil? then [] else s.items }

  /** A nil slice replaced by an empty one. */
  function NonNil<T>(s: Slice<T>): Slice<T> { Items(Elems(s)) }

  datatype Patch = Patch(path: string, unifiedDiff: string, beforeHash: string)

  datatype Command = Command(
    executable: string,
    args: Slice<string>,
    workDir: string,
    timeoutSeconds: int,
    purpose: string)

  datatype Plan = Plan(
    version: int,
    patches: Slice<Patch>,
    commands: Slice<Command>,
    verification: Slice<Command>,
    acceptance: Slice<string>,
    recovery: Slice<string>)

  const NO_PLAN := Plan(0, Nil, Nil, Nil, Nil, Nil)
}

/** The approval snapshot: one hash over run, workspace and executable plan. JSON
    encoding followed by SHA-256 is a parameter, injective where a proof needs it. */
module Approval {
  import opened Plans

  datatype Payload = Payload(runId: string, workspaceId: string, plan: Plan)

  type Digest = Payload -> string

  ghost predicate Injective(digest: Digest) {
    forall p, q :: digest(p) == digest(q) ==> p == q
  }

  /** Nil lists become empty, recovery guidance is dropped. */
  function Canonical(plan: Plan): Plan {
    Plan(plan.version, NonNil(plan.patches), NonNil(plan.commands), NonNil(plan.verification),
         NonNil(plan.acceptance), Nil)
  }

  function Hash(digest: Digest, runId: string, workspaceId: string, plan: Plan): string {
    digest(Payload(runId, workspaceId, Canonical(plan)))
  }

  predicate Verify(digest: Digest, want: string, runId: string, workspaceId: string, plan: Plan) {
    want == Hash(digest, runId, workspaceId, plan)
  }

  /** The same version and, element for element, the same lists; recovery is not looked at. */
  predicate SameExecutable(p: Plan, q: Plan) {
    && p.version == q.version
    && Elems(p.patches) == Elems(q.patches)
    && Elems(p.commands) == Elems(q.commands)
    && Elems(p.verification) == Elems(q.verification)
    && Elems(p.acceptance) == Elems(q.acceptance)
  }

  /** An approval hash is accepted for exactly one run, workspace and executable plan. */
  lemma VerifyBinds(digest: Digest, run: string, ws: string, plan: Plan, run': string, ws': string, plan': Plan)
    requires Injective(digest)
    ensures Verify(digest, Hash(digest, run, ws, plan), run', ws', plan')
            <==> run == run' && ws == ws' && SameExecutable(plan, plan')
  {
    if SameExecutable(plan, plan') {
      assert Canonical(plan) == Canonical(plan');
    }
  }
}

/** The approved plan on the wire, and the plan the runner rebuilds from it. */
module Wire {
  import opened Plans
  import opened Approval

  /** Repeated fields have no nil; numbers are 32 bits wide. */
  datatype WireCommand = WireCommand(
    executable: string,
    args: seq<string>,
    workDir: string,
    timeoutSeconds: int,
    purpose: string)

  datatype Request = Request(
    requestId: string,
    runId: string,
    workspaceId: string,
    planVersion: int,
    approvalHash: string,
    acceptance: seq<string>,
    patches: seq<Patch>,
    commands: seq<WireCommand>,
    verification: seq<WireCommand>)

  datatype StepResult = StepResult(kind: string, name: string, exitCode: int, status: string)

  datatype Response = Response(requestId: string, status: string, errorCode: string, steps: seq<StepResult>)

  /** Conversion of a 64-bit integer to int32. */
  function Int32(x: int): (r: int)
    ensures -0x8000_0000 <= r < 0x8000_0000
    ensures (x - r) % 0x1_0000_0000 == 0
  {
    (x + 0x8000_0000) % 0x1_0000_0000 - 0x8000_0000
  }

  predicate FitsInt32(x: int) { -0x8000_0000 <= x < 0x8000_0000 }

  lemma Int32Fits(x: int)
    ensures Int32(x) == x <==> FitsInt32(x)
  {
  }

  function Pack(c: Command): WireCommand {
    WireCommand(c.executable, Elems(c.args), c.workDir, Int32(c.timeoutSeconds), c.purpose)
  }

  function PackAll(cs: seq<Command>): (r: seq<WireCommand>)
    ensures |r| == |cs| && forall i :: 0 <= i < |cs| ==> r[i] == Pack(cs[i])
  {
    if cs == [] then [] else PackAll(cs[..|cs| - 1]) + [Pack(cs[|cs| - 1])]
  }

  /** A decoded repeated field is nil when it is empty. */
  function Decoded(args: seq<string>): Slice<string> { if args == [] then Nil else Items(args) }

  function Unpack(c: WireCommand): Command {
    Command(c.executable, Decoded(c.args), c.workDir, c.timeoutSeconds, c.purpose)
  }

  function UnpackAll(cs: seq<WireCommand>): (r: seq<Command>)
    ensures |r| == |cs| && forall i :: 0 <= i < |cs| ==> r[i] == Unpack(cs[i])
  {
    if cs == [] then [] else UnpackAll(cs[..|cs| - 1]) + [Unpack(cs[|cs| - 1])]
  }

  function Build(requestId: string, runId: string, ws: string, version: int, hash: string, plan: Plan): Request {
    Request(requestId, runId, ws, Int32(version), hash, Elems(plan.acceptance), Elems(plan.patches),
            PackAll(Elems(plan.commands)), PackAll(Elems(plan.verification)))
  }

  function Rebuild(req: Request): Plan {
    var verification := UnpackAll(req.verification);
    Plan(req.planVersion, Items(req.patches), Items(UnpackAll(req.commands)),
         if verification == [] then Nil else Items(verification), Items(req.acceptance), Nil)
  }

  /** The council's loops that fill the request. */
  method BuildRequest(requestId: string, runId: string, ws: string, version: int, hash: string, plan: Plan)
    returns (req: Request)
    ensures req == Build(requestId, runId, ws, version, hash, plan)
  {
    var patches: seq<Patch> := [];
    for i := 0 to |Elems(plan.patches)|
      invariant patches == Elems(plan.patches)[..i]
    {
      patches := patches + [Elems(plan.patches)[i]];
    }
    var commands := PackLoop(Elems(plan.commands));
    var verification := PackLoop(Elems(plan.verification));
    req := Request(requestId, runId, ws, Int32(version), hash, Elems(plan.acceptance), patches, commands, verification);
  }

  method PackLoop(cs: seq<Command>) returns (r: seq<WireCommand>)
    ensures r == PackAll(cs)
  {
    r := [];
    for i := 0 to |cs|
      invariant r == PackAll(cs[..i])
    {
      assert cs[..i + 1][..i] == cs[..i];
      r := r + [Pack(cs[i])];
    }
    assert cs[..|cs|] == cs;
  }

  /** The runner's loops that rebuild the plan. */
  method RebuildPlan(req: Request) returns (plan: Plan)
    ensures plan == Rebuild(req)
  {
    var patches: Slice<Patch> := Nil;
    for i := 0 to |req.patches|
      invariant Elems(patches) == req.patches[..i] && (i > 0 ==> patches.Items?)
    {
      patches := Items(Elems(patches) + [req.patches[i]]);
    }
    var commands := UnpackLoop(req.commands);
    var verification := UnpackLoop(req.verification);
    plan := Plan(req.planVersion, patches, commands, verification, Items(req.acceptance), Nil);
    if plan.patches.Nil? {
      plan := plan.(patches := Items([]));
    }
    if plan.commands.Nil? {
      plan := plan.(commands := Items([]));
    }
  }

  method UnpackLoop(cs: seq<WireCommand>) returns (r: Slice<Command>)
    ensures r == if cs == [] then Nil else Items(UnpackAll(cs))
  {
    r := Nil;
    for i := 0 to |cs|
      invariant r == if i == 0 then Nil else Items(UnpackAll(cs[..i]))
    {
      assert cs[..i + 1][..i] == cs[..i];
      r := Items(Elems(r) + [Unpack(cs[i])]);
    }
    assert cs[..|cs|] == cs;
  }

  /** What the RPC can carry: a 32-bit timeout, and no argument list that is empty without being nil. */
  predicate Carried(c: Command) { FitsInt32(c.timeoutSeconds) && c.args != Items([]) }

  predicate AllCarried(cs: seq<Command>) { forall i :: 0 <= i < |cs| ==> Carried(cs[i]) }

  lemma CommandsSurvive(cs: seq<Command>)
    ensures UnpackAll(PackAll(cs)) == cs <==> AllCarried(cs)
  {
    forall i | 0 <= i < |cs|
      ensures Unpack(Pack(cs[i])) == cs[i] <==> Carried(cs[i])
    {
      Int32Fits(cs[i].timeoutSeconds);
    }
    var back := UnpackAll(PackAll(cs));
    if back == cs {
      forall i | 0 <= i < |cs| ensures Carried(cs[i]) {
        assert back[i] == cs[i];
      }
    }
  }

  /** The runner accepts the council's own approval of a plan exactly when the request
      can carry it: the task's plan version is the plan's and fits 32 bits, and so
      does every command. */
  lemma ApprovalSurvivesTheWire(digest: Digest, requestId: string, run: string, ws: string, version: int, plan: Plan)
    requires Injective(digest)
    ensures var hash := Hash(digest, run, ws, plan);
            Verify(digest, hash, run, ws, Rebuild(Build(requestId, run, ws, version, hash, plan)))
            <==> && Int32(version) == plan.version
                 && AllCarried(Elems(plan.commands)) && AllCarried(Elems(plan.verification))
  {
    var hash := Hash(digest, run, ws, plan);
    var rebuilt := Rebuild(Build(requestId, run, ws, version, hash, plan));
    CommandsSurvive(Elems(plan.commands));
    CommandsSurvive(Elems(plan.verification));
    VerifyBinds(digest, run, ws, plan, run, ws, rebuilt);
  }
}
