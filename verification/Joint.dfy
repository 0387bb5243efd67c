/** The cluster and any number of gateways as one state machine. A gateway is one of the cluster's clients:
    its writer task puts messages on the client's link, its reader task takes messages off it. */
module Joint {
  import opened KV
  import opened Replicas
  import C = Cluster
  import CT = ClusterTheorems
  import CS = ClusterSafety
  import G = Gateway
  import GS = GatewaySafety

  datatype State = State(cluster: C.State, gateways: map<C.ClientKey, G.State>)

  datatype Step =
    | InCluster(step: C.Step)
    | InGateway(k: C.ClientKey, gStep: G.Step)
    | Forward(k: C.ClientKey)
    | ForwardFails(k: C.ClientKey)
    | Return(k: C.ClientKey)

  predicate Init(cfg: C.Config, j: State) {
    && C.Init(cfg, j.cluster)
    && forall k :: k in j.gateways ==> k in j.cluster.clients && !j.cluster.clients[k].bench && G.Init(j.gateways[k])
  }

  /** A step that uses client `k`'s end of its link. */
  predicate UsesLink(step: C.Step, k: C.ClientKey) {
    (step.Send? || step.Deliver?) && step.k == k
  }

  predicate CanForward(j: State, k: C.ClientKey) {
    k in j.gateways && G.Enabled(j.gateways[k], G.WriterTakes)
  }

  predicate CanReturn(j: State, k: C.ClientKey) {
    && k in j.gateways && k in j.cluster.clients && k.server in j.cluster.servers
    && j.cluster.clients[k].received < |C.Stream(j.cluster, k)|
  }

  /** The steps of the cluster and of the gateway that make up the two transfers. */
  function Sending(j: State, k: C.ClientKey): C.Step
    requires CanForward(j, k)
  {
    C.Send(k, j.gateways[k].toServer[j.gateways[k].taken], false, 0)
  }

  function Reading(j: State, k: C.ClientKey): G.Step
    requires CanReturn(j, k)
  {
    G.ReaderReads(C.Stream(j.cluster, k)[j.cluster.clients[k].received])
  }

  predicate Enabled(cfg: C.Config, j: State, step: Step) {
    match step
    case InCluster(s) => C.Enabled(cfg, j.cluster, s) && forall k :: k in j.gateways ==> !UsesLink(s, k)
    case InGateway(k, s) =>
      k in j.gateways && G.Enabled(j.gateways[k], s) && !s.WriterTakes? && !s.ReaderReads?
    case Forward(k) => CanForward(j, k) && C.Enabled(cfg, j.cluster, Sending(j, k))
    case ForwardFails(k) => CanForward(j, k)
    case Return(k) =>
      CanReturn(j, k) && C.Enabled(cfg, j.cluster, C.Deliver(k, 0)) && G.Enabled(j.gateways[k], Reading(j, k))
  }

  /** A message that the writer cannot send is lost, and the writer stops. */
  function Do(cfg: C.Config, j: State, step: Step): State
    requires Enabled(cfg, j, step)
  {
    match step
    case InCluster(s) => j.(cluster := C.Do(cfg, j.cluster, s))
    case InGateway(k, s) => j.(gateways := j.gateways[k := G.Do(j.gateways[k], s)])
    case Forward(k) =>
      State(C.Do(cfg, j.cluster, Sending(j, k)), j.gateways[k := G.Do(j.gateways[k], G.WriterTakes)])
    case ForwardFails(k) =>
      j.(gateways := j.gateways[k := G.Do(G.Do(j.gateways[k], G.WriterTakes), G.WriterStops)])
    case Return(k) =>
      State(C.Do(cfg, j.cluster, C.Deliver(k, 0)), j.gateways[k := G.Do(j.gateways[k], Reading(j, k))])
  }

  // ---------------------------------------------------------------- the invariant

  /** What is on the link of client `k` is what its gateway's writer took from the queue, all of it while the
      writer lives; and the gateway has read exactly what the client received. */
  predicate Linked(st: C.State, k: C.ClientKey, g: G.State) {
    && k in st.clients && k.server in st.servers && !st.clients[k].bench
    && st.clients[k].received <= |C.Stream(st, k)| && g.taken <= |g.toServer|
    && st.clients[k].sent <= g.toServer[..g.taken]
    && (g.writerAlive ==> st.clients[k].sent == g.toServer[..g.taken])
    && g.fromServer == C.Stream(st, k)[..st.clients[k].received]
  }

  ghost predicate Inv(cfg: C.Config, j: State) {
    && C.Inv(cfg, j.cluster)
    && forall k :: k in j.gateways ==> G.Inv(j.gateways[k]) && Linked(j.cluster, k, j.gateways[k])
  }

  lemma InitInv(cfg: C.Config, j: State)
    requires Init(cfg, j)
    ensures Inv(cfg, j)
  {
    hide C.Inv, C.Init;
    C.InitInv(cfg, j.cluster);
    forall k | k in j.gateways
      ensures Linked(j.cluster, k, j.gateways[k])
    {
      InitLinked(cfg, j.cluster, k, j.gateways[k]);
    }
  }

  lemma InitLinked(cfg: C.Config, st: C.State, k: C.ClientKey, g: G.State)
    requires C.Init(cfg, st) && G.Init(g) && k in st.clients && !st.clients[k].bench
    ensures Linked(st, k, g)
  {
  }

  // ---------------------------------------------------------------- links

  lemma StreamGrows(st: C.State, st': C.State, k: C.ClientKey)
    requires CT.Grows(st, st') && k.server in st.servers
    ensures k.server in st'.servers && C.Stream(st, k) <= C.Stream(st', k)
  {
    var a, b := st.servers[k.server].replica.handed, st'.servers[k.server].replica.handed;
    assert b == a + b[|a|..];
    StreamConcat(a, b[|a|..], k.id);
  }

  lemma SessionUntouched(cfg: C.Config, st: C.State, step: C.Step, k: C.ClientKey)
    requires C.Enabled(cfg, st, step) && !UsesLink(step, k) && k in st.clients
    ensures var st' := C.Do(cfg, st, step);
      && k in st'.clients && st'.clients[k].bench == st.clients[k].bench
      && st'.clients[k].sent == st.clients[k].sent && st'.clients[k].received == st.clients[k].received
  {
    hide StreamTo, CatchUp, Signal;
  }

  /** A step of the cluster that does not use the link's end leaves what is on the link as it was. */
  lemma ClusterStepKeepsLink(cfg: C.Config, st: C.State, step: C.Step, k: C.ClientKey, g: G.State)
    requires C.Inv(cfg, st) && C.Enabled(cfg, st, step) && !UsesLink(step, k) && Linked(st, k, g)
    ensures Linked(C.Do(cfg, st, step), k, g)
  {
    hide C.Inv, C.Enabled, C.Do, CT.Grows, StreamTo;
    CT.StepGrows(cfg, st, step);
    StreamGrows(st, C.Do(cfg, st, step), k);
    SessionUntouched(cfg, st, step, k);
  }

  /** So does a step of the gateway that does not. */
  lemma GatewayStepKeepsLink(st: C.State, k: C.ClientKey, g: G.State, step: G.Step)
    requires G.Enabled(g, step) && !step.WriterTakes? && !step.ReaderReads? && Linked(st, k, g)
    ensures Linked(st, k, G.Do(g, step))
  {
    hide StreamTo, G.Registered, G.Removed, G.AllCleared;
    var g' := G.Do(g, step);
    assert g.toServer <= g'.toServer && g'.taken == g.taken && g'.fromServer == g.fromServer;
    assert g'.toServer[..g'.taken] == g.toServer[..g.taken];
  }

  lemma SendingKeepsLink(cfg: C.Config, st: C.State, k: C.ClientKey, g: G.State)
    requires Linked(st, k, g) && G.Enabled(g, G.WriterTakes)
    requires C.Enabled(cfg, st, C.Send(k, g.toServer[g.taken], false, 0))
    ensures Linked(C.Do(cfg, st, C.Send(k, g.toServer[g.taken], false, 0)), k, G.Do(g, G.WriterTakes))
  {
    hide StreamTo;
    assert g.toServer[..g.taken + 1] == g.toServer[..g.taken] + [g.toServer[g.taken]];
  }

  lemma LosingKeepsLink(st: C.State, k: C.ClientKey, g: G.State)
    requires Linked(st, k, g) && G.Enabled(g, G.WriterTakes)
    ensures Linked(st, k, G.Do(G.Do(g, G.WriterTakes), G.WriterStops))
  {
    hide StreamTo;
    assert g.toServer[..g.taken] <= g.toServer[..g.taken + 1];
  }

  lemma ReturningKeepsLink(cfg: C.Config, st: C.State, k: C.ClientKey, g: G.State)
    requires Linked(st, k, g) && C.Enabled(cfg, st, C.Deliver(k, 0))
    requires var read := G.ReaderReads(C.Stream(st, k)[st.clients[k].received]);
      G.Enabled(g, read)
    ensures var read := G.ReaderReads(C.Stream(st, k)[st.clients[k].received]);
      Linked(C.Do(cfg, st, C.Deliver(k, 0)), k, G.Do(g, read))
  {
    hide StreamTo;
    var stream, n := C.Stream(st, k), st.clients[k].received;
    assert C.Stream(C.Do(cfg, st, C.Deliver(k, 0)), k) == stream;
    assert stream[..n + 1] == stream[..n] + [stream[n]];
  }

  // ---------------------------------------------------------------- every step

  lemma ClusterKeepsInv(cfg: C.Config, j: State, step: C.Step)
    requires Inv(cfg, j) && Enabled(cfg, j, InCluster(step))
    ensures Inv(cfg, Do(cfg, j, InCluster(step)))
  {
    hide C.Inv, C.Enabled, C.Do, G.Inv, Linked, UsesLink;
    CS.StepKeepsInv(cfg, j.cluster, step);
    forall k | k in j.gateways
      ensures Linked(C.Do(cfg, j.cluster, step), k, j.gateways[k])
    {
      ClusterStepKeepsLink(cfg, j.cluster, step, k, j.gateways[k]);
    }
  }

  lemma GatewayKeepsInv(cfg: C.Config, j: State, k: C.ClientKey, step: G.Step)
    requires Inv(cfg, j) && Enabled(cfg, j, InGateway(k, step))
    ensures Inv(cfg, Do(cfg, j, InGateway(k, step)))
  {
    hide C.Inv, C.Enabled, G.Enabled, G.Do, G.Inv, Linked;
    GS.StepKeepsInv(j.gateways[k], step);
    GatewayStepKeepsLink(j.cluster, k, j.gateways[k], step);
  }

  /** A transfer on the link of gateway `k` is a step of both; the other links are not used. */
  lemma TransferKeepsInv(cfg: C.Config, j: State, k: C.ClientKey, cStep: C.Step, g': G.State)
    requires Inv(cfg, j) && k in j.gateways && C.Enabled(cfg, j.cluster, cStep)
    requires forall x: C.ClientKey :: x != k ==> !UsesLink(cStep, x)
    requires G.Inv(g') && Linked(C.Do(cfg, j.cluster, cStep), k, g')
    ensures Inv(cfg, State(C.Do(cfg, j.cluster, cStep), j.gateways[k := g']))
  {
    hide C.Inv, C.Enabled, C.Do, G.Inv, Linked, UsesLink;
    CS.StepKeepsInv(cfg, j.cluster, cStep);
    forall x | x in j.gateways && x != k
      ensures Linked(C.Do(cfg, j.cluster, cStep), x, j.gateways[x])
    {
      ClusterStepKeepsLink(cfg, j.cluster, cStep, x, j.gateways[x]);
    }
  }

  lemma ForwardKeepsInv(cfg: C.Config, j: State, k: C.ClientKey)
    requires Inv(cfg, j) && Enabled(cfg, j, Forward(k))
    ensures Inv(cfg, Do(cfg, j, Forward(k)))
  {
    hide C.Inv, C.Enabled, C.Do, G.Do, G.Inv, Linked;
    var g := j.gateways[k];
    GS.StepKeepsInv(g, G.WriterTakes);
    SendingKeepsLink(cfg, j.cluster, k, g);
    TransferKeepsInv(cfg, j, k, Sending(j, k), G.Do(g, G.WriterTakes));
  }

  lemma ForwardFailsKeepsInv(cfg: C.Config, j: State, k: C.ClientKey)
    requires Inv(cfg, j) && Enabled(cfg, j, ForwardFails(k))
    ensures Inv(cfg, Do(cfg, j, ForwardFails(k)))
  {
    hide C.Inv, C.Enabled, C.Do, G.Do, G.Inv, Linked;
    var g := j.gateways[k];
    GS.StepKeepsInv(g, G.WriterTakes);
    GS.StepKeepsInv(G.Do(g, G.WriterTakes), G.WriterStops);
    LosingKeepsLink(j.cluster, k, g);
  }

  lemma ReturnKeepsInv(cfg: C.Config, j: State, k: C.ClientKey)
    requires Inv(cfg, j) && Enabled(cfg, j, Return(k))
    ensures Inv(cfg, Do(cfg, j, Return(k)))
  {
    hide C.Inv, C.Enabled, C.Do, G.Enabled, G.Do, G.Inv, Linked;
    var g := j.gateways[k];
    GS.StepKeepsInv(g, Reading(j, k));
    ReturningKeepsLink(cfg, j.cluster, k, g);
    TransferKeepsInv(cfg, j, k, C.Deliver(k, 0), G.Do(g, Reading(j, k)));
  }

  lemma StepKeepsInv(cfg: C.Config, j: State, step: Step)
    requires Inv(cfg, j) && Enabled(cfg, j, step)
    ensures Inv(cfg, Do(cfg, j, step))
  {
    hide *;
    match step {
      case InCluster(s) => ClusterKeepsInv(cfg, j, s);
      case InGateway(k, s) => GatewayKeepsInv(cfg, j, k, s);
      case Forward(k) => ForwardKeepsInv(cfg, j, k);
      case ForwardFails(k) => ForwardFailsKeepsInv(cfg, j, k);
      case Return(k) => ReturnKeepsInv(cfg, j, k);
    }
  }

  // ---------------------------------------------------------------- whole runs

  ghost predicate IsRun(cfg: C.Config, run: seq<State>, steps: seq<Step>) {
    && |run| == |steps| + 1
    && Init(cfg, run[0])
    && forall i :: 0 <= i < |steps| ==> Enabled(cfg, run[i], steps[i]) && run[i + 1] == Do(cfg, run[i], steps[i])
  }

  lemma {:induction false} RunInv(cfg: C.Config, run: seq<State>, steps: seq<Step>, i: nat)
    requires IsRun(cfg, run, steps) && i < |run|
    ensures Inv(cfg, run[i])
  {
    hide Inv, Init, Do, Enabled;
    if i == 0 {
      InitInv(cfg, run[0]);
    } else {
      RunInv(cfg, run, steps, i - 1);
      StepKeepsInv(cfg, run[i - 1], steps[i - 1]);
    }
  }

  /** Cluster and gateways only grow, in any run. */
  ghost predicate Grows(j: State, j': State) {
    && CT.Grows(j.cluster, j'.cluster)
    && j'.gateways.Keys == j.gateways.Keys
    && forall k :: k in j.gateways ==> GS.Grows(j.gateways[k], j'.gateways[k])
  }

  lemma GrowsReflexive(j: State)
    ensures Grows(j, j)
  {
    hide CT.Grows, GS.Grows;
    CT.GrowsReflexive(j.cluster);
    forall k | k in j.gateways { GS.GrowsReflexive(j.gateways[k]); }
  }

  lemma GrowsTransitive(a: State, b: State, c: State)
    requires Grows(a, b) && Grows(b, c)
    ensures Grows(a, c)
  {
    hide CT.Grows, GS.Grows;
    CT.GrowsTransitive(a.cluster, b.cluster, c.cluster);
    forall k | k in a.gateways { GS.GrowsTransitive(a.gateways[k], b.gateways[k], c.gateways[k]); }
  }

  lemma OneGatewayGrows(j: State, j': State, k: C.ClientKey)
    requires CT.Grows(j.cluster, j'.cluster) && k in j.gateways && k in j'.gateways
    requires j'.gateways == j.gateways[k := j'.gateways[k]] && GS.Grows(j.gateways[k], j'.gateways[k])
    ensures Grows(j, j')
  {
    hide CT.Grows, GS.Grows;
    forall x | x in j.gateways { GS.GrowsReflexive(j.gateways[x]); }
  }

  lemma StepGrows(cfg: C.Config, j: State, step: Step)
    requires Inv(cfg, j) && Enabled(cfg, j, step)
    ensures Grows(j, Do(cfg, j, step))
  {
    hide C.Inv, C.Enabled, C.Do, G.Enabled, G.Do, G.Inv, Linked, UsesLink, Grows, CT.Grows, GS.Grows;
    CT.GrowsReflexive(j.cluster);
    match step {
      case InCluster(s) =>
        CT.StepGrows(cfg, j.cluster, s);
        SameGatewaysGrow(j, Do(cfg, j, step));
      case InGateway(k, s) =>
        GS.StepGrows(j.gateways[k], s);
        OneGatewayGrows(j, Do(cfg, j, step), k);
      case Forward(k) =>
        CT.StepGrows(cfg, j.cluster, Sending(j, k));
        GS.StepGrows(j.gateways[k], G.WriterTakes);
        OneGatewayGrows(j, Do(cfg, j, step), k);
      case ForwardFails(k) =>
        LosingGrows(j.gateways[k]);
        OneGatewayGrows(j, Do(cfg, j, step), k);
      case Return(k) =>
        CT.StepGrows(cfg, j.cluster, C.Deliver(k, 0));
        GS.StepGrows(j.gateways[k], Reading(j, k));
        OneGatewayGrows(j, Do(cfg, j, step), k);
    }
  }

  lemma SameGatewaysGrow(j: State, j': State)
    requires CT.Grows(j.cluster, j'.cluster) && j'.gateways == j.gateways
    ensures Grows(j, j')
  {
    hide CT.Grows, GS.Grows;
    forall x | x in j.gateways { GS.GrowsReflexive(j.gateways[x]); }
  }

  lemma LosingGrows(g: G.State)
    requires G.Enabled(g, G.WriterTakes)
    ensures GS.Grows(g, G.Do(G.Do(g, G.WriterTakes), G.WriterStops))
  {
    hide GS.Grows;
    var g1 := G.Do(g, G.WriterTakes);
    GS.StepGrows(g, G.WriterTakes);
    GS.StepGrows(g1, G.WriterStops);
    GS.GrowsTransitive(g, g1, G.Do(g1, G.WriterStops));
  }

  lemma {:induction false} RunGrows(cfg: C.Config, run: seq<State>, steps: seq<Step>, i: nat, j: nat)
    requires IsRun(cfg, run, steps) && i <= j < |run|
    ensures Grows(run[i], run[j])
    decreases j - i
  {
    hide Inv, Init, Do, Enabled, Grows;
    if i == j {
      GrowsReflexive(run[i]);
    } else {
      RunGrows(cfg, run, steps, i, j - 1);
      RunInv(cfg, run, steps, j - 1);
      StepGrows(cfg, run[j - 1], steps[j - 1]);
      GrowsTransitive(run[i], run[j - 1], run[j]);
    }
  }
}
