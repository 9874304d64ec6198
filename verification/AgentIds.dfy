/** The ids of a tree of agents. An agent's id is its parent's id and one fresh segment; each
    agent draws its own children's segments, checking only its registry. */
module AgentIds {
  import opened Protocol

  const SEGMENT_LENGTH := 6

  predicate IsSegment(s: string) {
    |s| == SEGMENT_LENGTH && forall c :: c in s ==> '0' <= c <= '9' || 'a' <= c <= 'f'
  }

  function Handle(id: string, segment: string): string {
    id + "-" + segment
  }

  /** The id at the end of a path of segments. */
  function IdOf(root: string, path: seq<string>): string {
    if path == [] then root else Handle(IdOf(root, path[..|path| - 1]), path[|path| - 1])
  }

  /** Fixed-length segments: a handle splits in one way only. */
  lemma HandleSplits(a: string, s: string, b: string, t: string)
    requires IsSegment(s) && IsSegment(t) && Handle(a, s) == Handle(b, t)
    ensures a == b && s == t
  {
    var h := Handle(a, s);
    assert a == h[..|h| - SEGMENT_LENGTH - 1] && b == h[..|h| - SEGMENT_LENGTH - 1];
    assert s == h[|h| - SEGMENT_LENGTH..] && t == h[|h| - SEGMENT_LENGTH..];
  }

  /** Below one root, an id determines the whole path that leads to it, at any depth. */
  lemma {:induction false} IdDeterminesPath(root: string, p: seq<string>, q: seq<string>)
    requires (forall s <- p :: IsSegment(s)) && (forall s <- q :: IsSegment(s))
    requires IdOf(root, p) == IdOf(root, q)
    ensures p == q
    decreases |p|
  {
    IdLength(root, p);
    IdLength(root, q);
    if p != [] {
      var p', q' := p[..|p| - 1], q[..|q| - 1];
      HandleSplits(IdOf(root, p'), p[|p| - 1], IdOf(root, q'), q[|q| - 1]);
      IdDeterminesPath(root, p', q');
      assert p == p' + [p[|p| - 1]] && q == q' + [q[|q| - 1]];
    }
  }

  lemma {:induction false} IdLength(root: string, p: seq<string>)
    requires forall s <- p :: IsSegment(s)
    ensures |IdOf(root, p)| == |root| + (SEGMENT_LENGTH + 1) * |p|
  {
    if p != [] {
      assert p[|p| - 1] in p;
      IdLength(root, p[..|p| - 1]);
    }
  }

  // ---- Drawing a segment ------------------------------------------------------------------

  /** The first drawn segment whose handle is not registered. */
  function FreshSegment(id: string, registered: set<string>, draws: seq<string>): Option<string> {
    if draws == [] then None
    else if Handle(id, draws[0]) !in registered then Some(draws[0])
    else FreshSegment(id, registered, draws[1..])
  }

  /** The reroll loop over a supply of random segments. */
  method FreshSubagentHandle(id: string, registered: set<string>, draws: seq<string>) returns (handle: Option<string>)
    ensures handle.Some? <==> exists i :: 0 <= i < |draws| && Handle(id, draws[i]) !in registered
    ensures handle.Some? ==> handle.value !in registered
    ensures handle.Some? ==> exists i :: 0 <= i < |draws| && handle.value == id + "-" + draws[i]
                                         && forall j :: 0 <= j < i ==> id + "-" + draws[j] in registered
    ensures handle == (match FreshSegment(id, registered, draws) case Some(s) => Some(Handle(id, s)) case None => None)
  {
    var i := 0;
    while i < |draws|
      invariant 0 <= i <= |draws|
      invariant forall j :: 0 <= j < i ==> Handle(id, draws[j]) in registered
      invariant FreshSegment(id, registered, draws) == FreshSegment(id, registered, draws[i..])
    {
      var candidate := Handle(id, draws[i]);
      if candidate !in registered {
        return Some(candidate);
      }
      assert draws[i..][1..] == draws[i + 1..];
      i := i + 1;
    }
    handle := None;
  }

  // ---- A tree of agents --------------------------------------------------------------------

  datatype Phase = Minted | Launched(child: nat) | Registered(child: nat)

  /** One call of `start_subagent`: its segment is drawn at once, the child starts while it
      waits, and only then is the handle registered. */
  datatype Start = Start(segment: string, phase: Phase)

  /** An agent; its index in the tree stands for its workflow id. `parent` and `slot` say which
      start of which agent launched it. */
  datatype Agent = Agent(id: string, parent: nat, slot: nat, starts: seq<Start>, registry: map<string, nat>)

  type Tree = seq<Agent>

  function Root(id: string): Tree {
    [Agent(id, 0, 0, [], map[])]
  }

  datatype Step =
    | Mint(a: nat, draws: seq<string>)
    | Launch(a: nat, k: nat)
    | Register(a: nat, k: nat)
    | Stop(a: nat, handle: string)

  predicate Enabled(t: Tree, step: Step) {
    && step.a < |t|
    && match step
       case Mint(a, draws) =>
         && (forall s <- draws :: IsSegment(s))
         && FreshSegment(t[a].id, t[a].registry.Keys, draws).Some?
       case Launch(a, k) => k < |t[a].starts| && t[a].starts[k].phase.Minted?
       case Register(a, k) => k < |t[a].starts| && t[a].starts[k].phase.Launched?
       case Stop(a, handle) => handle in t[a].registry
  }

  function Apply(t: Tree, step: Step): Tree {
    if !Enabled(t, step) then t
    else
      var g := t[step.a];
      match step
      case Mint(a, draws) =>
        t[a := g.(starts := g.starts + [Start(FreshSegment(g.id, g.registry.Keys, draws).value, Minted)])]
      case Launch(a, k) =>
        t[a := g.(starts := g.starts[k := g.starts[k].(phase := Launched(|t|))])]
          + [Agent(Handle(g.id, g.starts[k].segment), a, k, [], map[])]
      case Register(a, k) =>
        t[a := g.(registry := g.registry[Handle(g.id, g.starts[k].segment) := g.starts[k].phase.child],
                  starts := g.starts[k := g.starts[k].(phase := Registered(g.starts[k].phase.child))])]
      case Stop(a, handle) => t[a := g.(registry := g.registry - {handle})]
  }

  function Exec(t: Tree, steps: seq<Step>): Tree
    decreases |steps|
  {
    if |steps| == 0 then t else Exec(Apply(t, steps[0]), steps[1..])
  }

  /** What each step writes: a mint the first drawn segment whose handle is free; a launch a child whose
      id is its parent's and that segment; a registration that child under that handle; and a stop
      takes the handle out. Nothing else of any agent changes. */
  lemma StepWrites(t: Tree, step: Step)
    requires Enabled(t, step)
    ensures var g := t[step.a];
            var u := Apply(t, step);
            match step
            case Mint(a, draws) =>
              exists i :: 0 <= i < |draws| && g.id + "-" + draws[i] !in g.registry
                          && (forall j :: 0 <= j < i ==> g.id + "-" + draws[j] in g.registry)
                          && u == t[a := g.(starts := g.starts + [Start(draws[i], Minted)])]
            case Launch(a, k) =>
              && |u| == |t| + 1 && u[|t|] == Agent(g.id + "-" + g.starts[k].segment, a, k, [], map[])
              && u[..|t|] == t[a := g.(starts := g.starts[k := Start(g.starts[k].segment, Launched(|t|))])]
            case Register(a, k) =>
              var child := g.starts[k].phase.child;
              u == t[a := g.(registry := g.registry[g.id + "-" + g.starts[k].segment := child],
                             starts := g.starts[k := Start(g.starts[k].segment, Registered(child))])]
            case Stop(a, handle) => u == t[a := g.(registry := g.registry - {handle})]
  {
    if step.Mint? {
      var i := FirstFree(t[step.a].id, t[step.a].registry.Keys, step.draws);
    }
  }

  lemma {:induction false} FirstFree(id: string, registered: set<string>, draws: seq<string>) returns (i: nat)
    requires FreshSegment(id, registered, draws).Some?
    ensures i < |draws| && FreshSegment(id, registered, draws) == Some(draws[i])
    ensures id + "-" + draws[i] !in registered && forall j :: 0 <= j < i ==> id + "-" + draws[j] in registered
  {
    i := 0;
    if Handle(id, draws[0]) in registered {
      var k := FirstFree(id, registered, draws[1..]);
      i := k + 1;
      assert forall j :: 0 < j < i ==> draws[j] == draws[1..][j - 1];
    }
  }

  /** Agent `i` was launched by that start of its parent, under the id that start minted. */
  ghost predicate Placed(t: Tree, i: nat)
    requires i < |t|
  {
    var g := t[i];
    i > 0 ==>
      && g.parent < i && g.slot < |t[g.parent].starts|
      && var start := t[g.parent].starts[g.slot];
         !start.phase.Minted? && start.phase.child == i && g.id == Handle(t[g.parent].id, start.segment)
  }

  ghost predicate Recorded(t: Tree, a: nat)
    requires a < |t|
  {
    && (forall k :: 0 <= k < |t[a].starts| ==> IsSegment(t[a].starts[k].segment) && Begun(t, a, k))
    && (forall h <- t[a].registry :: Listed(t, a, h))
  }

  ghost predicate Begun(t: Tree, a: nat, k: nat)
    requires a < |t| && k < |t[a].starts|
  {
    var phase := t[a].starts[k].phase;
    phase.Minted? || (a < phase.child < |t| && t[phase.child].parent == a && t[phase.child].slot == k)
  }

  ghost predicate Listed(t: Tree, a: nat, h: string)
    requires a < |t| && h in t[a].registry
  {
    var c := t[a].registry[h];
    a < c < |t| && t[c].parent == a && t[c].id == h
  }

  ghost predicate Inv(t: Tree) {
    && |t| > 0
    && (forall i :: 0 <= i < |t| ==> Placed(t, i))
    && (forall a :: 0 <= a < |t| ==> Recorded(t, a))
  }

  lemma {:induction false} FreshIsDrawn(id: string, registered: set<string>, draws: seq<string>)
    requires FreshSegment(id, registered, draws).Some?
    ensures FreshSegment(id, registered, draws).value in draws
    ensures Handle(id, FreshSegment(id, registered, draws).value) !in registered
  {
    if Handle(id, draws[0]) in registered {
      FreshIsDrawn(id, registered, draws[1..]);
    }
  }

  /** Nothing a step does to one agent, other than moving a start forward, disturbs the rest. */
  lemma KeepsOthers(t: Tree, u: Tree)
    requires Inv(t) && |t| <= |u|
    requires forall i :: 0 <= i < |t| ==> u[i].id == t[i].id && u[i].parent == t[i].parent && u[i].slot == t[i].slot
    requires forall i :: 0 <= i < |t| ==> |t[i].starts| <= |u[i].starts|
    requires forall i, k :: 0 <= i < |t| && 0 <= k < |t[i].starts| ==>
               && u[i].starts[k].segment == t[i].starts[k].segment
               && (!t[i].starts[k].phase.Minted? ==>
                     !u[i].starts[k].phase.Minted? && u[i].starts[k].phase.child == t[i].starts[k].phase.child)
    ensures forall i :: 0 <= i < |t| ==> Placed(u, i)
    ensures forall i, k :: 0 <= i < |t| && 0 <= k < |t[i].starts| ==> IsSegment(u[i].starts[k].segment)
    ensures forall i, k :: 0 <= i < |t| && 0 <= k < |t[i].starts| && !t[i].starts[k].phase.Minted? ==> Begun(u, i, k)
    ensures forall i, h | 0 <= i < |t| && h in t[i].registry && h in u[i].registry && u[i].registry[h] == t[i].registry[h]
              :: Listed(u, i, h)
  {
    forall i | 0 <= i < |t|
      ensures Placed(u, i)
    {
      assert Placed(t, i);
    }
    forall i, k | 0 <= i < |t| && 0 <= k < |t[i].starts|
      ensures IsSegment(u[i].starts[k].segment) && (!t[i].starts[k].phase.Minted? ==> Begun(u, i, k))
    {
      assert Recorded(t, i) && Begun(t, i, k);
    }
    forall i, h | 0 <= i < |t| && h in t[i].registry && h in u[i].registry && u[i].registry[h] == t[i].registry[h]
      ensures Listed(u, i, h)
    {
      assert Recorded(t, i) && Listed(t, i, h);
    }
  }

  lemma MintKeeps(t: Tree, a: nat, draws: seq<string>)
    requires Inv(t) && Enabled(t, Mint(a, draws))
    ensures Inv(Apply(t, Mint(a, draws)))
  {
    var u := Apply(t, Mint(a, draws));
    KeepsOthers(t, u);
    FreshIsDrawn(t[a].id, t[a].registry.Keys, draws);
    forall i | 0 <= i < |u|
      ensures Recorded(u, i)
    {
      assert Recorded(t, i);
      assert forall k :: 0 <= k < |t[i].starts| ==> Begun(t, i, k) && u[i].starts[k] == t[i].starts[k];
    }
  }

  lemma LaunchKeeps(t: Tree, a: nat, k: nat)
    requires Inv(t) && Enabled(t, Launch(a, k))
    ensures Inv(Apply(t, Launch(a, k)))
  {
    var u := Apply(t, Launch(a, k));
    KeepsOthers(t, u);
    assert Recorded(t, a);
    forall i | 0 <= i < |t|
      ensures Recorded(u, i)
    {
      assert Recorded(t, i);
    }
  }

  lemma RegisterKeeps(t: Tree, a: nat, k: nat)
    requires Inv(t) && Enabled(t, Register(a, k))
    ensures Inv(Apply(t, Register(a, k)))
  {
    var u := Apply(t, Register(a, k));
    KeepsOthers(t, u);
    assert Recorded(t, a) && Begun(t, a, k);
    assert Placed(t, t[a].starts[k].phase.child);
    forall i | 0 <= i < |u|
      ensures Recorded(u, i)
    {
      assert Recorded(t, i);
    }
  }

  lemma StopKeeps(t: Tree, a: nat, handle: string)
    requires Inv(t) && Enabled(t, Stop(a, handle))
    ensures Inv(Apply(t, Stop(a, handle)))
  {
    var u := Apply(t, Stop(a, handle));
    KeepsOthers(t, u);
    forall i | 0 <= i < |u|
      ensures Recorded(u, i)
    {
      assert Recorded(t, i);
    }
  }

  lemma StepKeeps(t: Tree, step: Step)
    requires Inv(t)
    ensures Inv(Apply(t, step))
  {
    if Enabled(t, step) {
      match step
      case Mint(a, draws) => MintKeeps(t, a, draws);
      case Launch(a, k) => LaunchKeeps(t, a, k);
      case Register(a, k) => RegisterKeeps(t, a, k);
      case Stop(a, handle) => StopKeeps(t, a, handle);
    }
  }

  lemma {:induction false} RunKeeps(t: Tree, steps: seq<Step>)
    requires Inv(t)
    ensures Inv(Exec(t, steps))
    decreases |steps|
  {
    if |steps| > 0 {
      StepKeeps(t, steps[0]);
      RunKeeps(Apply(t, steps[0]), steps[1..]);
    }
  }

  // ---- Who shares an id ---------------------------------------------------------------------

  /** Some agent launched two children under one segment. */
  ghost predicate Repeats(t: Tree) {
    exists a: nat, j: nat, k: nat :: a < |t| && j < k < |t[a].starts| && SameLaunch(t[a].starts[j], t[a].starts[k])
  }

  predicate SameLaunch(x: Start, y: Start) {
    !x.phase.Minted? && !y.phase.Minted? && x.segment == y.segment
  }

  ghost predicate AllDistinct(t: Tree) {
    forall i, j :: 0 <= i < j < |t| ==> t[i].id != t[j].id
  }

  /** A child's id is longer than its parent's, and no agent's is shorter than the root's. */
  lemma {:induction false} RootIsShortest(t: Tree, i: nat)
    requires Inv(t) && i < |t|
    ensures |t[i].id| >= |t[0].id| && (i > 0 ==> |t[i].id| > |t[0].id|)
  {
    assert Placed(t, i);
    if i > 0 {
      RootIsShortest(t, t[i].parent);
    }
  }

  /** Two agents with one id: going up, the paths meet in an agent that repeated a segment. */
  lemma {:induction false} SharedIdRepeats(t: Tree, i: nat, j: nat)
    requires Inv(t) && i < |t| && j < |t| && i != j && t[i].id == t[j].id
    ensures Repeats(t)
    decreases i
  {
    RootIsShortest(t, i);
    RootIsShortest(t, j);
    assert Placed(t, i) && Placed(t, j);
    var p, q := t[i].parent, t[j].parent;
    assert Recorded(t, p) && Recorded(t, q);
    var x, y := t[p].starts[t[i].slot], t[q].starts[t[j].slot];
    HandleSplits(t[p].id, x.segment, t[q].id, y.segment);
    if p != q {
      SharedIdRepeats(t, p, q);
    } else if t[i].slot < t[j].slot {
      assert SameLaunch(t[p].starts[t[i].slot], t[p].starts[t[j].slot]);
    } else {
      assert SameLaunch(t[p].starts[t[j].slot], t[p].starts[t[i].slot]);
    }
  }

  /** No two agents anywhere in a tree of any depth share an id if and only if no agent ever
      launched two children under one segment. */
  lemma DistinctIff(t: Tree)
    requires Inv(t)
    ensures AllDistinct(t) <==> !Repeats(t)
  {
    if !AllDistinct(t) {
      var i, j :| 0 <= i < j < |t| && t[i].id == t[j].id;
      SharedIdRepeats(t, i, j);
    }
    if Repeats(t) {
      var a: nat, j: nat, k: nat :| a < |t| && j < k < |t[a].starts| && SameLaunch(t[a].starts[j], t[a].starts[k]);
      assert Recorded(t, a) && Begun(t, a, j) && Begun(t, a, k);
      var x, y := t[a].starts[j].phase.child, t[a].starts[k].phase.child;
      assert Placed(t, x) && Placed(t, y);
      assert t[x].id == t[y].id && x != y;
    }
  }

  /** Every registry on the way up still leads to the agent. */
  ghost predicate Live(t: Tree, i: nat)
    requires Inv(t) && i < |t|
    decreases i
  {
    i == 0 || (assert Placed(t, i);
               t[i].id in t[t[i].parent].registry && t[t[i].parent].registry[t[i].id] == i && Live(t, t[i].parent))
  }

  /** Among the agents that registries lead to, an id always names one: with or without a
      collision, the tree a client can walk is unambiguous. */
  lemma {:induction false} RegisteredIdsAreUnique(t: Tree, i: nat, j: nat)
    requires Inv(t) && i < |t| && j < |t| && Live(t, i) && Live(t, j) && t[i].id == t[j].id
    ensures i == j
    decreases i
  {
    RootIsShortest(t, i);
    RootIsShortest(t, j);
    if i > 0 && j > 0 {
      assert Placed(t, i) && Placed(t, j);
      var p, q := t[i].parent, t[j].parent;
      assert Recorded(t, p) && Recorded(t, q);
      HandleSplits(t[p].id, t[p].starts[t[i].slot].segment, t[q].id, t[q].starts[t[j].slot].segment);
      RegisteredIdsAreUnique(t, p, q);
    }
  }

  // ---- What the reroll does and does not prevent ---------------------------------------------

  predicate InFlight(s: Start) {
    !s.phase.Registered?
  }

  /** No start under way will overwrite a registered child, or another start's. */
  ghost predicate NoClash(g: Agent) {
    && (forall k :: 0 <= k < |g.starts| && InFlight(g.starts[k]) ==> Handle(g.id, g.starts[k].segment) !in g.registry)
    && (forall j, k :: 0 <= j < k < |g.starts| && InFlight(g.starts[j]) && InFlight(g.starts[k]) ==>
          g.starts[j].segment != g.starts[k].segment)
  }

  /** The reroll looks at registered handles only, so a mint keeps starts from clashing if and
      only if the segment it ends on is not that of a start still under way. */
  lemma MintIsSafeIff(t: Tree, a: nat, draws: seq<string>)
    requires Enabled(t, Mint(a, draws)) && NoClash(t[a])
    ensures NoClash(Apply(t, Mint(a, draws))[a]) <==>
              forall k :: 0 <= k < |t[a].starts| && InFlight(t[a].starts[k]) ==>
                t[a].starts[k].segment != FreshSegment(t[a].id, t[a].registry.Keys, draws).value
  {
    FreshIsDrawn(t[a].id, t[a].registry.Keys, draws);
    var g, h := t[a], Apply(t, Mint(a, draws))[a];
    var n := |g.starts|;
    assert forall k :: 0 <= k < n ==> h.starts[k] == g.starts[k];
    if k :| 0 <= k < n && InFlight(g.starts[k]) && g.starts[k].segment == h.starts[n].segment {
      assert InFlight(h.starts[k]) && InFlight(h.starts[n]);
    }
  }

  /** While starts do not clash, registering one loses no other child and starts no clash. */
  lemma RegisterLosesNothing(t: Tree, a: nat, k: nat)
    requires Inv(t) && Enabled(t, Register(a, k)) && NoClash(t[a])
    ensures var g, h := t[a], Apply(t, Register(a, k))[a];
            && NoClash(h)
            && (forall name <- g.registry :: name in h.registry && h.registry[name] == g.registry[name])
            && |h.registry| == |g.registry| + 1
  {
    var g, h := t[a], Apply(t, Register(a, k))[a];
    var name := Handle(g.id, g.starts[k].segment);
    assert InFlight(g.starts[k]) && name !in g.registry;
    assert h.registry.Keys == g.registry.Keys + {name};
    assert |h.registry| == |h.registry.Keys| && |g.registry| == |g.registry.Keys|;
    assert Recorded(t, a);
    forall j | 0 <= j < |h.starts| && InFlight(h.starts[j])
      ensures Handle(h.id, h.starts[j].segment) !in h.registry
    {
      assert j != k && InFlight(g.starts[j]);
      if Handle(h.id, h.starts[j].segment) == name {
        HandleSplits(h.id, h.starts[j].segment, g.id, g.starts[k].segment);
      }
    }
  }

  function TwoMinted(root: string, segment: string): Tree {
    [Agent(root, 0, 0, [Start(segment, Minted), Start(segment, Minted)], map[])]
  }

  function TwoLaunched(root: string, segment: string): Tree {
    var h := Handle(root, segment);
    [Agent(root, 0, 0, [Start(segment, Launched(1)), Start(segment, Launched(2))], map[]),
     Agent(h, 0, 0, [], map[]), Agent(h, 0, 1, [], map[])]
  }

  lemma DrawsOne(g: Agent, segment: string)
    requires g.registry == map[]
    ensures FreshSegment(g.id, g.registry.Keys, [segment]) == Some(segment)
  {
  }

  lemma BothMint(root: string, segment: string)
    requires IsSegment(segment)
    ensures Apply(Apply(Root(root), Mint(0, [segment])), Mint(0, [segment])) == TwoMinted(root, segment)
  {
    var t0 := Root(root);
    DrawsOne(t0[0], segment);
    assert forall s <- [segment] :: s == segment;
    var t1 := Apply(t0, Mint(0, [segment]));
    assert t0[0].starts + [Start(segment, Minted)] == [Start(segment, Minted)];
    assert t1 == [Agent(root, 0, 0, [Start(segment, Minted)], map[])];
    DrawsOne(t1[0], segment);
    assert t1[0].starts + [Start(segment, Minted)] == [Start(segment, Minted), Start(segment, Minted)];
  }

  lemma BothLaunch(root: string, segment: string)
    ensures Apply(Apply(TwoMinted(root, segment), Launch(0, 0)), Launch(0, 1)) == TwoLaunched(root, segment)
  {
    var t2, h := TwoMinted(root, segment), Handle(root, segment);
    var t3 := Apply(t2, Launch(0, 0));
    assert t2[0].starts[0 := Start(segment, Launched(1))] == [Start(segment, Launched(1)), Start(segment, Minted)];
    assert t3 == [Agent(root, 0, 0, [Start(segment, Launched(1)), Start(segment, Minted)], map[]), Agent(h, 0, 0, [], map[])];
    assert t3[0].starts[1 := Start(segment, Launched(2))] == [Start(segment, Launched(1)), Start(segment, Launched(2))];
  }

  lemma BothRegister(root: string, segment: string)
    ensures var t := Apply(Apply(TwoLaunched(root, segment), Register(0, 0)), Register(0, 1));
            && |t| == 3 && t[0].registry == map[Handle(root, segment) := 2]
            && t[1] == TwoLaunched(root, segment)[1] && t[2] == TwoLaunched(root, segment)[2]
  {
    var t5 := Apply(TwoLaunched(root, segment), Register(0, 0));
    assert t5[0].starts[1] == Start(segment, Launched(2));
  }

  lemma Unroll(t: Tree, steps: seq<Step>, i: nat)
    requires i < |steps|
    ensures Exec(t, steps[i..]) == Exec(Apply(t, steps[i]), steps[i + 1..])
  {
    assert steps[i..][1..] == steps[i + 1..];
  }

  /** Two starts that draw one segment before either is registered: the second registration
      overwrites the first, whose child runs on under the same id with no handle to it. */
  lemma TwoStartsShareAHandle(root: string, segment: string)
    requires IsSegment(segment)
    ensures var t := Exec(Root(root), [Mint(0, [segment]), Mint(0, [segment]), Launch(0, 0), Launch(0, 1),
                                       Register(0, 0), Register(0, 1)]);
            && Inv(t) && |t| == 3 && t[1].id == t[2].id
            && Live(t, 2) && !Live(t, 1) && |t[0].registry| == 1
  {
    var steps := [Mint(0, [segment]), Mint(0, [segment]), Launch(0, 0), Launch(0, 1), Register(0, 0), Register(0, 1)];
    var t0, t2, t4 := Root(root), TwoMinted(root, segment), TwoLaunched(root, segment);
    BothMint(root, segment);
    BothLaunch(root, segment);
    BothRegister(root, segment);
    assert steps[0..] == steps;
    Unroll(t0, steps, 0);
    Unroll(Apply(t0, steps[0]), steps, 1);
    Unroll(t2, steps, 2);
    Unroll(Apply(t2, steps[2]), steps, 3);
    Unroll(t4, steps, 4);
    Unroll(Apply(t4, steps[4]), steps, 5);
    RunKeeps(t0, steps);
  }
}
