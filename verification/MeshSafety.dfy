/** Every step of start-up keeps its invariant. */
module MeshSafety {
  import opened KV
  import opened Networks
  import opened Mesh

  // ---------------------------------------------------------------- links

  lemma BindOk(nodes: set<NodeId>, dialing: set<(NodeId, NodeId)>, bound: set<NodeId>, links: seq<Link>, n: NodeId)
    requires LinksOk(nodes, dialing, bound, links)
    ensures LinksOk(nodes, dialing, bound + {n}, links)
  {
  }

  lemma ConnectOk(nodes: set<NodeId>, dialing: set<(NodeId, NodeId)>, bound: set<NodeId>, links: seq<Link>,
                  hi: NodeId, lo: NodeId)
    requires LinksOk(nodes, dialing, bound, links) && (hi, lo) in dialing && lo in bound
    ensures LinksOk(nodes, dialing - {(hi, lo)}, bound, links + [Link(hi, lo, 0, 0)])
  {
    var links' := links + [Link(hi, lo, 0, 0)];
    assert links'[|links|] == Link(hi, lo, 0, 0);
    forall h: NodeId, o: NodeId | IsPair(nodes, h, o) && (h, o) !in dialing - {(hi, lo)}
      ensures HasLink(links', h, o)
    {
      if (h, o) !in dialing {
        var l :| 0 <= l < |links| && links[l].dialer == h && links[l].listener == o;
        assert links'[l] == links[l];
      }
    }
    assert forall l :: 0 <= l < |links| ==> links'[l] == links[l] && LinkOk(nodes, dialing, bound, links[l]);
  }

  lemma ConnectSlotsOk(nodes: set<NodeId>, dialing: set<(NodeId, NodeId)>, links: seq<Link>,
                       slots: map<NodeId, map<NodeId, nat>>, hi: NodeId, lo: NodeId)
    requires SlotsOk(nodes, dialing, links, slots) && (hi, lo) in dialing && IsPair(nodes, hi, lo)
    ensures SlotsOk(nodes, dialing - {(hi, lo)}, links + [Link(hi, lo, 0, 0)], slots)
  {
    var links' := links + [Link(hi, lo, 0, 0)];
    assert lo !in slots[hi] && hi !in slots[lo];
    assert forall l :: 0 <= l < |links| ==> links'[l] == links[l];
  }

  lemma DialingIsPair(nodes: set<NodeId>, dialing: set<(NodeId, NodeId)>, bound: set<NodeId>, links: seq<Link>,
                      hi: NodeId, lo: NodeId)
    requires LinksOk(nodes, dialing, bound, links) && (hi, lo) in dialing
    ensures IsPair(nodes, hi, lo)
  {
  }

  lemma LinkIsOk(nodes: set<NodeId>, dialing: set<(NodeId, NodeId)>, bound: set<NodeId>, links: seq<Link>, l: nat)
    requires LinksOk(nodes, dialing, bound, links) && l < |links|
    ensures LinkOk(nodes, dialing, bound, links[l])
  {
  }

  /** Moving link `l` on, without changing which nodes it joins. */
  lemma MoveOk(nodes: set<NodeId>, dialing: set<(NodeId, NodeId)>, bound: set<NodeId>, links: seq<Link>, l: nat,
               k: Link)
    requires LinksOk(nodes, dialing, bound, links) && l < |links|
    requires k.dialer == links[l].dialer && k.listener == links[l].listener && LinkOk(nodes, dialing, bound, k)
    ensures LinksOk(nodes, dialing, bound, links[l := k])
  {
    var links' := links[l := k];
    forall hi: NodeId, lo: NodeId | IsPair(nodes, hi, lo) && (hi, lo) !in dialing
      ensures HasLink(links', hi, lo)
    {
      assert HasLink(links, hi, lo);
      var m :| 0 <= m < |links| && links[m].dialer == hi && links[m].listener == lo;
      assert links'[m].dialer == hi && links'[m].listener == lo;
    }
    assert forall m :: 0 <= m < |links| ==>
      links'[m].dialer == links[m].dialer && links'[m].listener == links[m].listener;
  }

  lemma MoveSlotsOk(nodes: set<NodeId>, dialing: set<(NodeId, NodeId)>, links: seq<Link>,
                    slots: map<NodeId, map<NodeId, nat>>, l: nat, k: Link)
    requires SlotsOk(nodes, dialing, links, slots) && l < |links|
    requires k.dialer == links[l].dialer && k.listener == links[l].listener
    requires (k.dial == 3 <==> links[l].dial == 3) && (k.acc == 3 <==> links[l].acc == 3)
    ensures SlotsOk(nodes, dialing, links[l := k], slots)
  {
    assert forall m :: 0 <= m < |links| && m != l ==> links[l := k][m] == links[m];
  }

  /** Filling the slot of `n` for the other end when its side of link `l` gets to its end. */
  lemma FillSlotsOk(nodes: set<NodeId>, dialing: set<(NodeId, NodeId)>, bound: set<NodeId>, links: seq<Link>,
                    slots: map<NodeId, map<NodeId, nat>>, l: nat, n: NodeId, row: map<NodeId, nat>)
    requires LinksOk(nodes, dialing, bound, links) && SlotsOk(nodes, dialing, links, slots) && IsQueued(links, n, l)
    requires n in slots && row == slots[n] + map[OtherEnd(links[l], n) := l]
    ensures SlotsOk(nodes, dialing, links[l := SideMoved(links[l], n, 3)], slots[n := row])
  {
    var links', slots' := links[l := SideMoved(links[l], n, 3)], slots[n := row];
    assert LinkOk(nodes, dialing, bound, links[l]);
    forall m | 0 <= m < |links|
      ensures SideOk(links'[m].dial, m, slots'[links'[m].dialer], links'[m].listener)
      ensures SideOk(links'[m].acc, m, slots'[links'[m].listener], links'[m].dialer)
    {
      assert LinkOk(nodes, dialing, bound, links[m]);
      if m != l {
        assert links'[m] == links[m];
        assert links[m].dialer != links[l].dialer || links[m].listener != links[l].listener;
      }
    }
  }

  // ---------------------------------------------------------------- channels

  /** Changing links without putting any end on its way or taking it off leaves every channel right. */
  lemma SameQueues(links: seq<Link>, links': seq<Link>, channel: map<NodeId, seq<Arrival>>)
    requires QueuesOk(links, channel)
    requires forall n: NodeId, l: nat :: IsQueued(links', n, l) <==> IsQueued(links, n, l)
    ensures QueuesOk(links', channel)
  {
    hide IsQueued;
  }

  /** One end of link `l` is put on its way. */
  lemma EndQueued(links: seq<Link>, links': seq<Link>, channel: map<NodeId, seq<Arrival>>, n: NodeId, l: nat)
    requires QueuesOk(links, channel) && n in channel && |channel[n]| < CHANNEL_SIZE
    requires !IsQueued(links, n, l)
    requires forall x: NodeId, m: nat :: IsQueued(links', x, m) <==> IsQueued(links, x, m) || (x == n && m == l)
    ensures QueuesOk(links', channel[n := channel[n] + [FromPeer(l)]])
  {
    hide IsQueued;
    assert QueueOk(n, links, channel[n]);
    assert FromPeer(l) !in channel[n];
  }

  /** The first end in the channel of `n` is taken off. */
  lemma EndTaken(links: seq<Link>, links': seq<Link>, channel: map<NodeId, seq<Arrival>>, n: NodeId, l: nat)
    requires QueuesOk(links, channel) && n in channel && channel[n] != [] && channel[n][0] == FromPeer(l)
    requires forall x: NodeId, m: nat :: IsQueued(links', x, m) <==> IsQueued(links, x, m) && !(x == n && m == l)
    ensures QueuesOk(links', channel[n := channel[n][1..]])
  {
    hide IsQueued;
    var q := channel[n];
    assert QueueOk(n, links, q);
    forall m: nat
      ensures FromPeer(m) in q[1..] <==> IsQueued(links', n, m)
    {
      InTail(q, FromPeer(m));
    }
  }

  lemma InTail(q: seq<Arrival>, a: Arrival)
    requires q != [] && forall i, j :: 0 <= i < j < |q| ==> q[i] != q[j]
    ensures a in q[1..] <==> a in q && a != q[0]
  {
    assert q == [q[0]] + q[1..];
    if a in q[1..] {
      var i :| 0 <= i < |q| - 1 && q[1..][i] == a;
      assert q[i + 1] == a;
    }
  }

  lemma ClientTaken(links: seq<Link>, channel: map<NodeId, seq<Arrival>>, n: NodeId, id: ClientId)
    requires QueuesOk(links, channel) && n in channel && channel[n] != [] && channel[n][0] == FromClient(id)
    ensures QueuesOk(links, channel[n := channel[n][1..]])
    ensures Ids(channel[n][1..]) == Ids(channel[n]) - {id}
  {
    hide IsQueued;
    var q := channel[n];
    assert QueueOk(n, links, q);
    forall a: Arrival { InTail(q, a); }
  }

  lemma TakingAnEndKeepsIds(q: seq<Arrival>)
    requires q != [] && q[0].FromPeer?
    ensures Ids(q[1..]) == Ids(q)
  {
    assert q == [q[0]] + q[1..];
  }

  lemma ClientQueued(links: seq<Link>, channel: map<NodeId, seq<Arrival>>, n: NodeId, id: ClientId)
    requires QueuesOk(links, channel) && n in channel && |channel[n]| < CHANNEL_SIZE && id !in Ids(channel[n])
    ensures QueuesOk(links, channel[n := channel[n] + [FromClient(id)]])
    ensures Ids(channel[n] + [FromClient(id)]) == Ids(channel[n]) + {id}
  {
    hide IsQueued;
    assert QueueOk(n, links, channel[n]);
    assert FromClient(id) !in channel[n];
  }

  lemma QueueingAnEndKeepsIds(q: seq<Arrival>, l: nat)
    ensures Ids(q + [FromPeer(l)]) == Ids(q)
  {
  }

  /** The channel of a complete node holds no end of a link: all of them are in their slots. */
  lemma CompleteHasNoEnds(nodes: set<NodeId>, dialing: set<(NodeId, NodeId)>, bound: set<NodeId>, links: seq<Link>,
                          slots: map<NodeId, map<NodeId, nat>>, clients: set<ClientId>, need: nat, n: NodeId, l: nat)
    requires LinksOk(nodes, dialing, bound, links) && SlotsOk(nodes, dialing, links, slots) && n in slots
    requires Complete(nodes, n, slots[n], clients, need)
    ensures !IsQueued(links, n, l)
  {
    if l < |links| {
      assert LinkOk(nodes, dialing, bound, links[l]);
      assert SideOk(links[l].dial, l, slots[links[l].dialer], links[l].listener);
      assert SideOk(links[l].acc, l, slots[links[l].listener], links[l].dialer);
    }
  }

  lemma NoEndsNoQueue(links: seq<Link>, channel: map<NodeId, seq<Arrival>>, n: NodeId)
    requires QueuesOk(links, channel) && n in channel && forall l: nat :: !IsQueued(links, n, l)
    ensures QueuesOk(links, channel[n := []])
  {
    hide IsQueued;
  }

  // ---------------------------------------------------------------- every step keeps the invariant

  lemma ConnectStepsKeepInv(cfg: map<NodeId, nat>, st: State, step: Step)
    requires Inv(cfg, st) && Enabled(cfg, st, step) && (step.Bind? || step.Connect?)
    ensures Inv(cfg, Do(cfg, st, step))
  {
    hide AllClientsOk, LinksOk, SlotsOk, DoneOk, QueuesOk, Complete;
    var st' := Do(cfg, st, step);
    SameQueues(st.links, st'.links, st.channel);
    if step.Bind? {
      BindOk(cfg.Keys, st.dialing, st.bound, st.links, step.n);
    } else {
      DialingIsPair(cfg.Keys, st.dialing, st.bound, st.links, step.hi, step.lo);
      ConnectOk(cfg.Keys, st.dialing, st.bound, st.links, step.hi, step.lo);
      ConnectSlotsOk(cfg.Keys, st.dialing, st.links, st.slots, step.hi, step.lo);
    }
  }

  lemma LinkStepsKeepInv(cfg: map<NodeId, nat>, st: State, step: Step)
    requires Inv(cfg, st) && Enabled(cfg, st, step) && (step.SendHandshake? || step.Accept?)
    ensures Inv(cfg, Do(cfg, st, step))
  {
    hide AllClientsOk, LinksOk, SlotsOk, DoneOk, QueuesOk, Complete;
    var l, st' := step.l, Do(cfg, st, step);
    LinkIsOk(cfg.Keys, st.dialing, st.bound, st.links, l);
    MoveOk(cfg.Keys, st.dialing, st.bound, st.links, l, st'.links[l]);
    MoveSlotsOk(cfg.Keys, st.dialing, st.links, st.slots, l, st'.links[l]);
    SameQueues(st.links, st'.links, st.channel);
  }

  /** A channel that is not done changes: the done nodes stay as they are. */
  lemma ChannelDoneOk(cfg: map<NodeId, nat>, done: set<NodeId>, slots: map<NodeId, map<NodeId, nat>>,
                      clients: map<NodeId, set<ClientId>>, channel: map<NodeId, seq<Arrival>>, n: NodeId,
                      q: seq<Arrival>)
    requires DoneOk(cfg, done, slots, clients, channel) && n in cfg && n !in done
    ensures DoneOk(cfg, done, slots, clients, channel[n := q])
  {
    hide Complete;
  }

  lemma QueueStepsKeepInv(cfg: map<NodeId, nat>, st: State, step: Step)
    requires Inv(cfg, st) && Enabled(cfg, st, step) && (step.QueueOwn? || step.ReadHandshake?)
    ensures Inv(cfg, Do(cfg, st, step))
  {
    hide AllClientsOk, LinksOk, SlotsOk, DoneOk, QueuesOk, Complete, Ids;
    var l, st' := step.l, Do(cfg, st, step);
    var n := if step.QueueOwn? then st.links[l].dialer else st.links[l].listener;
    LinkIsOk(cfg.Keys, st.dialing, st.bound, st.links, l);
    MoveOk(cfg.Keys, st.dialing, st.bound, st.links, l, st'.links[l]);
    MoveSlotsOk(cfg.Keys, st.dialing, st.links, st.slots, l, st'.links[l]);
    EndQueued(st.links, st'.links, st.channel, n, l);
    SameIdsOk(st, n, st.channel[n] + [FromPeer(l)]);
    ChannelDoneOk(cfg, st.done, st.slots, st.clients, st.channel, n, st.channel[n] + [FromPeer(l)]);
  }

  lemma SameIdsOk(st: State, n: NodeId, q: seq<Arrival>)
    requires AllClientsOk(st.maxClientId, st.waiting, st.channel, st.clients, st.lost) && n in st.channel
    requires (exists l :: q == st.channel[n] + [FromPeer(l)]) ||
             (st.channel[n] != [] && st.channel[n][0].FromPeer? && q == st.channel[n][1..])
    ensures AllClientsOk(st.maxClientId, st.waiting, st.channel[n := q], st.clients, st.lost)
  {
    hide ClientsOk;
    if l :| q == st.channel[n] + [FromPeer(l)] {
      QueueingAnEndKeepsIds(st.channel[n], l);
    } else {
      TakingAnEndKeepsIds(st.channel[n]);
    }
  }

  /** One node's clients change places. */
  lemma OneNodesClientsOk(max: map<NodeId, nat>, waiting: map<NodeId, set<ClientId>>,
                          channel: map<NodeId, seq<Arrival>>,
                          clients: map<NodeId, set<ClientId>>, lost: map<NodeId, set<ClientId>>, n: NodeId,
                          m: nat, w: set<ClientId>, q: seq<Arrival>, c: set<ClientId>, l: set<ClientId>)
    requires AllClientsOk(max, waiting, channel, clients, lost) && n in max && ClientsOk(m, w, Ids(q), c, l)
    ensures AllClientsOk(max[n := m], waiting[n := w], channel[n := q], clients[n := c], lost[n := l])
  {
    hide ClientsOk, Ids;
  }

  lemma Unchanged<K, V>(m: map<K, V>, k: K)
    requires k in m
    ensures m[k := m[k]] == m
  {
  }

  lemma NewClientOk(max: nat, waiting: set<ClientId>, queued: set<ClientId>, clients: set<ClientId>,
                    lost: set<ClientId>)
    requires ClientsOk(max, waiting, queued, clients, lost)
    ensures ClientsOk(max + 1, waiting + {max + 1}, queued, clients, lost)
  {
    assert max + 1 !in UpTo(max);
    assert UpTo(max + 1) == UpTo(max) + {max + 1};
  }

  lemma ClientConnectsKeepsInv(cfg: map<NodeId, nat>, st: State, n: NodeId)
    requires Inv(cfg, st) && Enabled(cfg, st, ClientConnects(n))
    ensures Inv(cfg, Do(cfg, st, ClientConnects(n)))
  {
    hide AllClientsOk, LinksOk, SlotsOk, DoneOk, QueuesOk, Complete;
  }

  lemma RegisteringOk(st: State, n: NodeId)
    requires AllClientsOk(st.maxClientId, st.waiting, st.channel, st.clients, st.lost) && n in st.maxClientId
    ensures n in st.waiting
    ensures var id := st.maxClientId[n] + 1;
      AllClientsOk(st.maxClientId[n := id], st.waiting[n := st.waiting[n] + {id}], st.channel, st.clients, st.lost)
  {
    hide AllClientsOk, ClientsOk, Ids, UpTo;
    var id := st.maxClientId[n] + 1;
    NodesClientsOk(st, n);
    NewClientOk(st.maxClientId[n], st.waiting[n], Ids(st.channel[n]), st.clients[n], st.lost[n]);
    OneNodesClientsOk(st.maxClientId, st.waiting, st.channel, st.clients, st.lost, n,
                      id, st.waiting[n] + {id}, st.channel[n], st.clients[n], st.lost[n]);
    Unchanged(st.channel, n);
    Unchanged(st.clients, n);
    Unchanged(st.lost, n);
  }

  lemma ClientRegistersKeepsInv(cfg: map<NodeId, nat>, st: State, n: NodeId)
    requires Inv(cfg, st) && Enabled(cfg, st, ClientRegisters(n))
    ensures Inv(cfg, Do(cfg, st, ClientRegisters(n)))
  {
    hide AllClientsOk, LinksOk, SlotsOk, DoneOk, QueuesOk, Complete, HasRoom, CanTake, Listening;
    RegisteringOk(st, n);
  }

  lemma ClientLostKeepsInv(cfg: map<NodeId, nat>, st: State, n: NodeId, id: ClientId)
    requires Inv(cfg, st) && Enabled(cfg, st, ClientLost(n, id))
    ensures Inv(cfg, Do(cfg, st, ClientLost(n, id)))
  {
    hide AllClientsOk, LinksOk, SlotsOk, DoneOk, QueuesOk, ClientsOk, Ids, Complete;
    NodesClientsOk(st, n);
    LosingOk(st.maxClientId[n], st.waiting[n], Ids(st.channel[n]), st.clients[n], st.lost[n], id);
    OneNodesClientsOk(st.maxClientId, st.waiting, st.channel, st.clients, st.lost, n,
                      st.maxClientId[n], st.waiting[n] - {id}, st.channel[n], st.clients[n], st.lost[n] + {id});
    Unchanged(st.maxClientId, n);
    Unchanged(st.channel, n);
    Unchanged(st.clients, n);
  }

  lemma NodesClientsOk(st: State, n: NodeId)
    requires AllClientsOk(st.maxClientId, st.waiting, st.channel, st.clients, st.lost)
    requires n in st.maxClientId
    ensures n in st.waiting && n in st.channel && n in st.clients && n in st.lost
    ensures ClientsOk(st.maxClientId[n], st.waiting[n], Ids(st.channel[n]), st.clients[n], st.lost[n])
  {
  }

  lemma LosingOk(max: nat, waiting: set<ClientId>, queued: set<ClientId>, clients: set<ClientId>, lost: set<ClientId>,
                 id: ClientId)
    requires ClientsOk(max, waiting, queued, clients, lost) && id in waiting
    ensures ClientsOk(max, waiting - {id}, queued, clients, lost + {id})
  {
  }

  lemma QueueingOk(max: nat, waiting: set<ClientId>, queued: set<ClientId>, clients: set<ClientId>,
                   lost: set<ClientId>, id: ClientId)
    requires ClientsOk(max, waiting, queued, clients, lost) && id in waiting
    ensures id !in queued && ClientsOk(max, waiting - {id}, queued + {id}, clients, lost)
  {
  }

  lemma ConnectingOk(max: nat, waiting: set<ClientId>, queued: set<ClientId>, clients: set<ClientId>,
                     lost: set<ClientId>, id: ClientId)
    requires ClientsOk(max, waiting, queued, clients, lost) && id in queued
    ensures id !in clients && ClientsOk(max, waiting, queued - {id}, clients + {id}, lost)
  {
  }

  lemma DroppingOk(max: nat, waiting: set<ClientId>, queued: set<ClientId>, clients: set<ClientId>, lost: set<ClientId>)
    requires ClientsOk(max, waiting, queued, clients, lost)
    ensures ClientsOk(max, waiting, Ids([]), clients, lost + queued)
  {
    assert Ids([]) == {};
  }

  lemma ClientQueuesKeepsInv(cfg: map<NodeId, nat>, st: State, n: NodeId, id: ClientId)
    requires Inv(cfg, st) && Enabled(cfg, st, ClientQueues(n, id))
    ensures Inv(cfg, Do(cfg, st, ClientQueues(n, id)))
  {
    hide AllClientsOk, LinksOk, SlotsOk, DoneOk, QueuesOk, ClientsOk, Ids, Complete;
    NodesClientsOk(st, n);
    var q := st.channel[n] + [FromClient(id)];
    QueueingOk(st.maxClientId[n], st.waiting[n], Ids(st.channel[n]), st.clients[n], st.lost[n], id);
    ClientQueued(st.links, st.channel, n, id);
    OneNodesClientsOk(st.maxClientId, st.waiting, st.channel, st.clients, st.lost, n,
                      st.maxClientId[n], st.waiting[n] - {id}, q, st.clients[n], st.lost[n]);
    Unchanged(st.maxClientId, n);
    Unchanged(st.clients, n);
    Unchanged(st.lost, n);
    ChannelDoneOk(cfg, st.done, st.slots, st.clients, st.channel, n, q);
  }

  // ---------------------------------------------------------------- the main loop

  lemma TakenPeerKeepsInv(cfg: map<NodeId, nat>, st: State, n: NodeId)
    requires Inv(cfg, st) && Enabled(cfg, st, Take(n)) && st.channel[n][0].FromPeer?
    ensures Inv(cfg, Taken(st, n))
  {
    hide AllClientsOk, LinksOk, SlotsOk, DoneOk, QueuesOk, Complete, Ids;
    var l, st' := st.channel[n][0].l, Taken(st, n);
    FirstIsQueued(st, n);
    LinkIsOk(cfg.Keys, st.dialing, st.bound, st.links, l);
    MoveOk(cfg.Keys, st.dialing, st.bound, st.links, l, st'.links[l]);
    FillSlotsOk(cfg.Keys, st.dialing, st.bound, st.links, st.slots, l, n, st'.slots[n]);
    EndTaken(st.links, st'.links, st.channel, n, l);
    SameIdsOk(st, n, st.channel[n][1..]);
    SlotsDoneOk(cfg, st.done, st.slots, st.clients, st.channel, n, st'.slots[n]);
    ChannelDoneOk(cfg, st.done, st'.slots, st.clients, st.channel, n, st.channel[n][1..]);
  }

  lemma FirstIsQueued(st: State, n: NodeId)
    requires QueuesOk(st.links, st.channel) && n in st.channel && st.channel[n] != [] && st.channel[n][0].FromPeer?
    ensures IsQueued(st.links, n, st.channel[n][0].l)
  {
    assert QueueOk(n, st.links, st.channel[n]);
    assert st.channel[n][0] in st.channel[n];
  }

  lemma SlotsDoneOk(cfg: map<NodeId, nat>, done: set<NodeId>, slots: map<NodeId, map<NodeId, nat>>,
                    clients: map<NodeId, set<ClientId>>, channel: map<NodeId, seq<Arrival>>, n: NodeId,
                    row: map<NodeId, nat>)
    requires DoneOk(cfg, done, slots, clients, channel) && n in cfg && n !in done
    ensures DoneOk(cfg, done, slots[n := row], clients, channel)
  {
    hide Complete;
  }

  lemma ClientsDoneOk(cfg: map<NodeId, nat>, done: set<NodeId>, slots: map<NodeId, map<NodeId, nat>>,
                      clients: map<NodeId, set<ClientId>>, channel: map<NodeId, seq<Arrival>>, n: NodeId,
                      cs: set<ClientId>)
    requires DoneOk(cfg, done, slots, clients, channel) && n in cfg && n !in done
    ensures DoneOk(cfg, done, slots, clients[n := cs], channel)
  {
    hide Complete;
  }

  lemma FirstIsId(q: seq<Arrival>)
    requires q != [] && q[0].FromClient?
    ensures q[0].id in Ids(q)
  {
  }

  lemma TakenClientKeepsInv(cfg: map<NodeId, nat>, st: State, n: NodeId)
    requires Inv(cfg, st) && Enabled(cfg, st, Take(n)) && st.channel[n][0].FromClient?
    ensures Inv(cfg, Taken(st, n)) && st.channel[n][0].id !in st.clients[n]
  {
    hide AllClientsOk, LinksOk, SlotsOk, DoneOk, QueuesOk, ClientsOk, Ids, Complete;
    var id, q := st.channel[n][0].id, st.channel[n][1..];
    NodesClientsOk(st, n);
    FirstIsId(st.channel[n]);
    ConnectingOk(st.maxClientId[n], st.waiting[n], Ids(st.channel[n]), st.clients[n], st.lost[n], id);
    ClientTaken(st.links, st.channel, n, id);
    OneNodesClientsOk(st.maxClientId, st.waiting, st.channel, st.clients, st.lost, n,
                      st.maxClientId[n], st.waiting[n], q, st.clients[n] + {id}, st.lost[n]);
    Unchanged(st.maxClientId, n);
    Unchanged(st.waiting, n);
    Unchanged(st.lost, n);
    ClientsDoneOk(cfg, st.done, st.slots, st.clients, st.channel, n, st.clients[n] + {id});
    ChannelDoneOk(cfg, st.done, st.slots, st.clients[n := st.clients[n] + {id}], st.channel, n, q);
  }

  lemma AfterArrivalKeepsInv(cfg: map<NodeId, nat>, st: State, n: NodeId)
    requires Inv(cfg, st) && n in cfg && n !in st.done
    ensures Inv(cfg, AfterArrival(cfg, st, n))
  {
    hide AllClientsOk, LinksOk, SlotsOk, DoneOk, QueuesOk, ClientsOk, IsQueued, Ids, Complete;
    if Complete(cfg.Keys, n, st.slots[n], st.clients[n], cfg[n]) {
      forall l: nat
        ensures !IsQueued(st.links, n, l)
      {
        CompleteHasNoEnds(cfg.Keys, st.dialing, st.bound, st.links, st.slots, st.clients[n], cfg[n], n, l);
      }
      NoEndsNoQueue(st.links, st.channel, n);
      NodesClientsOk(st, n);
      DroppingOk(st.maxClientId[n], st.waiting[n], Ids(st.channel[n]), st.clients[n], st.lost[n]);
      OneNodesClientsOk(st.maxClientId, st.waiting, st.channel, st.clients, st.lost, n,
                        st.maxClientId[n], st.waiting[n], [], st.clients[n], st.lost[n] + Ids(st.channel[n]));
      Unchanged(st.maxClientId, n);
      Unchanged(st.waiting, n);
      Unchanged(st.clients, n);
      CompleteDoneOk(cfg, st.done, st.slots, st.clients, st.channel, n);
    }
  }

  lemma CompleteDoneOk(cfg: map<NodeId, nat>, done: set<NodeId>, slots: map<NodeId, map<NodeId, nat>>,
                       clients: map<NodeId, set<ClientId>>, channel: map<NodeId, seq<Arrival>>, n: NodeId)
    requires DoneOk(cfg, done, slots, clients, channel) && n in cfg
    requires Complete(cfg.Keys, n, slots[n], clients[n], cfg[n])
    ensures DoneOk(cfg, done + {n}, slots, clients, channel[n := []])
  {
    hide Complete;
  }

  lemma TakeKeepsInv(cfg: map<NodeId, nat>, st: State, n: NodeId)
    requires Inv(cfg, st) && Enabled(cfg, st, Take(n))
    ensures Inv(cfg, Do(cfg, st, Take(n)))
  {
    hide AllClientsOk, LinksOk, SlotsOk, DoneOk, QueuesOk, Complete, AfterArrival;
    if st.channel[n][0].FromPeer? {
      TakenPeerKeepsInv(cfg, st, n);
    } else {
      TakenClientKeepsInv(cfg, st, n);
    }
    AfterArrivalKeepsInv(cfg, Taken(st, n), n);
  }

  lemma StepKeepsInv(cfg: map<NodeId, nat>, st: State, step: Step)
    requires Inv(cfg, st) && Enabled(cfg, st, step)
    ensures Inv(cfg, Do(cfg, st, step))
  {
    hide *;
    match step {
      case Bind(_) => ConnectStepsKeepInv(cfg, st, step);
      case Connect(_, _) => ConnectStepsKeepInv(cfg, st, step);
      case SendHandshake(_) => LinkStepsKeepInv(cfg, st, step);
      case QueueOwn(_) => QueueStepsKeepInv(cfg, st, step);
      case Accept(_) => LinkStepsKeepInv(cfg, st, step);
      case ReadHandshake(_) => QueueStepsKeepInv(cfg, st, step);
      case ClientConnects(n) => ClientConnectsKeepsInv(cfg, st, n);
      case ClientRegisters(n) => ClientRegistersKeepsInv(cfg, st, n);
      case ClientQueues(n, id) => ClientQueuesKeepsInv(cfg, st, n, id);
      case ClientLost(n, id) => ClientLostKeepsInv(cfg, st, n, id);
      case Take(n) => TakeKeepsInv(cfg, st, n);
    }
  }
}
