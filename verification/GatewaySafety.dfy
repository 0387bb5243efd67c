/** Every step of the gateway keeps its invariant, and what follows for whole runs. */
module GatewaySafety {
  import opened KV
  import opened Gateway

  // ---------------------------------------------------------------- what does not change

  lemma SentStays(hs: map<HandlerId, Handler>, hs': map<HandlerId, Handler>, toServer: seq<ClientMessage>)
    requires SentOk(hs, toServer)
    requires forall h :: h in hs && HasSent(hs[h]) ==>
      h in hs' && HasSent(hs'[h]) && hs'[h].id == hs[h].id && hs'[h].cmd == hs[h].cmd
    requires forall h :: h in hs' && HasSent(hs'[h]) ==> h in hs && HasSent(hs[h])
    ensures SentOk(hs', toServer)
  {
    forall i | 0 <= i < |toServer|
      ensures HasSender(hs', toServer[i])
    {
      assert HasSender(hs, toServer[i]);
      var h :| SentBy(hs, toServer[i], h);
      assert SentBy(hs', toServer[i], h);
    }
  }

  /** A registered handler moves on: same table, same reader, only its pc changes, and what was sent may grow. */
  predicate Moves(g: State, g': State, h: HandlerId, pc: Pc) {
    && h in g.handlers && Registers(g.handlers[h])
    && g' == g.(handlers := Moved(g, h, pc), toServer := g'.toServer)
    && (pc.Waiting? || pc.CleaningUp? || (pc.Done? && g.handlers[h].id !in g.table.pending))
  }

  lemma MoveKeepsIds(g: State, g': State, h: HandlerId, pc: Pc)
    requires IdsOk(g) && Moves(g, g', h, pc)
    ensures IdsOk(g')
  {
  }

  lemma MoveKeepsPending(g: State, g': State, h: HandlerId, pc: Pc)
    requires PendingOk(g) && Moves(g, g', h, pc)
    ensures PendingOk(g')
  {
    hide FirstReply;
    forall id | id in g'.table.pending
      ensures PendingEntryOk(g', id, g'.table.pending[id])
    {
      assert PendingEntryOk(g, id, g.table.pending[id]);
    }
  }

  lemma MoveKeepsReader(g: State, g': State, h: HandlerId, pc: Pc)
    requires ReaderOk(g) && Moves(g, g', h, pc)
    ensures ReaderOk(g')
  {
    hide FirstReply;
  }

  lemma MoveKeepsOthers(g: State, g': State, h: HandlerId, pc: Pc, x: HandlerId)
    requires Moves(g, g', h, pc) && x in g.handlers && x != h && ChannelOk(g, x) && OutcomeOk(g, x)
    ensures ChannelOk(g', x) && OutcomeOk(g', x)
  {
    hide FirstReply;
  }

  lemma MoveKeepsInv(g: State, g': State, h: HandlerId, pc: Pc)
    requires Inv(g) && Moves(g, g', h, pc) && QueueOk(g')
    requires SentOk(g'.handlers, g'.toServer)
    requires ChannelOk(g', h) && OutcomeOk(g', h)
    ensures Inv(g')
  {
    hide QueueOk, IdsOk, PendingOk, ReaderOk, ChannelOk, OutcomeOk, SentOk, Registers;
    MoveKeepsIds(g, g', h, pc);
    MoveKeepsPending(g, g', h, pc);
    MoveKeepsReader(g, g', h, pc);
    forall x | x in g'.handlers && x != h
      ensures ChannelOk(g', x) && OutcomeOk(g', x)
    {
      MoveKeepsOthers(g, g', h, pc, x);
    }
  }

  // ---------------------------------------------------------------- handlers

  /** Handler `h` has not registered yet: nothing but itself and the id counter changes. */
  predicate Prepares(g: State, g': State, h: HandlerId) {
    && (h in g.handlers ==> g.handlers[h].pc.Entered?) && h in g'.handlers
    && (g'.handlers[h].pc.Entered? || g'.handlers[h].pc.Allocated?)
    && g' == g.(handlers := g.handlers[h := g'.handlers[h]], table := g.table.(counter := g'.table.counter))
  }

  lemma PreparingKeepsPending(g: State, g': State, h: HandlerId)
    requires PendingOk(g) && Prepares(g, g', h)
    ensures PendingOk(g')
  {
    hide FirstReply;
    forall id | id in g'.table.pending
      ensures PendingEntryOk(g', id, g'.table.pending[id])
    {
      assert PendingEntryOk(g, id, g.table.pending[id]);
    }
  }

  lemma PreparingKeepsReader(g: State, g': State, h: HandlerId)
    requires ReaderOk(g) && Prepares(g, g', h)
    ensures ReaderOk(g')
  {
    hide FirstReply;
  }

  lemma PreparingKeepsHandler(g: State, g': State, h: HandlerId, x: HandlerId)
    requires Prepares(g, g', h) && x in g'.handlers && (x in g.handlers ==> ChannelOk(g, x) && OutcomeOk(g, x))
    ensures ChannelOk(g', x) && OutcomeOk(g', x)
  {
    hide FirstReply;
  }

  lemma PreparingKeepsInv(g: State, g': State, h: HandlerId)
    requires Inv(g) && Prepares(g, g', h) && IdsOk(g') && SentOk(g'.handlers, g'.toServer)
    ensures Inv(g')
  {
    hide IdsOk, PendingOk, ReaderOk, ChannelOk, OutcomeOk, SentOk, Prepares;
    PreparingKeepsPending(g, g', h);
    PreparingKeepsReader(g, g', h);
    forall x | x in g'.handlers
      ensures ChannelOk(g', x) && OutcomeOk(g', x)
    {
      PreparingKeepsHandler(g, g', h, x);
    }
    assert QueueOk(g') by {
      PreparingKeepsQueue(g, g', h);
    }
  }

  lemma PreparingKeepsQueue(g: State, g': State, h: HandlerId)
    requires QueueOk(g) && Prepares(g, g', h)
    ensures QueueOk(g')
  {
  }

  lemma EnterKeepsInv(g: State, h: HandlerId, cmd: KVCommand)
    requires Inv(g) && Enabled(g, Enter(h, cmd))
    ensures Inv(Do(g, Enter(h, cmd)))
  {
    hide SentOk, PendingOk, ReaderOk, ChannelOk, OutcomeOk;
    var g' := Do(g, Enter(h, cmd));
    SentStays(g.handlers, g'.handlers, g.toServer);
    PreparingKeepsInv(g, g', h);
  }

  lemma AllocateKeepsInv(g: State, h: HandlerId)
    requires Inv(g) && Enabled(g, Allocate(h))
    ensures Inv(Do(g, Allocate(h)))
  {
    hide SentOk, PendingOk, ReaderOk, ChannelOk, OutcomeOk;
    var g' := Do(g, Allocate(h));
    SentStays(g.handlers, g'.handlers, g.toServer);
    PreparingKeepsInv(g, g', h);
  }

  lemma NothingReadSince(msgs: seq<ServerMessage>, id: CommandId)
    ensures FirstReply(msgs, |msgs|, id) == None
  {
  }

  /** Nobody else registers under an id that was just allocated. */
  lemma OwnIdIsFree(g: State, h: HandlerId)
    requires Inv(g) && At(g, h, Allocated)
    ensures g.handlers[h].id !in g.table.pending
  {
    hide FirstReply, SentOk, QueueOk, ReaderOk, ChannelOk, OutcomeOk;
    forall id | id in g.table.pending
      ensures id != g.handlers[h].id
    {
      assert PendingEntryOk(g, id, g.table.pending[id]);
    }
  }

  lemma InsertingKeepsTable(g: State, h: HandlerId)
    requires Inv(g) && Enabled(g, Insert(h))
    ensures IdsOk(Do(g, Insert(h))) && PendingOk(Do(g, Insert(h))) && ReaderOk(Do(g, Insert(h)))
  {
    hide FirstReply, SentOk, QueueOk, ChannelOk, OutcomeOk;
    OwnIdIsFree(g, h);
    NothingReadSince(g.fromServer, g.handlers[h].id);
    var g' := Do(g, Insert(h));
    forall id | id in g'.table.pending
      ensures PendingEntryOk(g', id, g'.table.pending[id])
    {
      if id in g.table.pending {
        assert PendingEntryOk(g, id, g.table.pending[id]);
      }
    }
  }

  lemma InsertKeepsInv(g: State, h: HandlerId)
    requires Inv(g) && Enabled(g, Insert(h))
    ensures Inv(Do(g, Insert(h)))
  {
    hide FirstReply, SentOk, IdsOk, PendingOk, ReaderOk, ChannelOk, OutcomeOk, Registered;
    var g' := Do(g, Insert(h));
    InsertingKeepsTable(g, h);
    SentStays(g.handlers, g'.handlers, g.toServer);
    forall x | x in g'.handlers
      ensures ChannelOk(g', x) && OutcomeOk(g', x)
    {
      InsertingKeepsHandler(g, h, x);
    }
  }

  lemma InsertingKeepsHandler(g: State, h: HandlerId, x: HandlerId)
    requires Inv(g) && Enabled(g, Insert(h)) && x in g.handlers
    ensures ChannelOk(Do(g, Insert(h)), x) && OutcomeOk(Do(g, Insert(h)), x)
  {
    hide FirstReply, SentOk;
    assert ChannelOk(g, x) && OutcomeOk(g, x);
    NothingReadSince(g.fromServer, g.handlers[h].id);
    OwnIdIsFree(g, h);
  }

  lemma SendsKeepInv(g: State, step: Step)
    requires Inv(g) && Enabled(g, step) && (step.SendOk? || step.SendFails?)
    ensures Inv(Do(g, step))
  {
    hide FirstReply;
    var h, g' := step.h, Do(g, step);
    assert ChannelOk(g, h);
    if step.SendOk? {
      RequestIsNew(g, h);
      SentGrows(g.handlers, g'.handlers, g.toServer, h);
      MoveKeepsInv(g, g', h, Waiting);
    } else {
      SentStays(g.handlers, g'.handlers, g.toServer);
      MoveKeepsInv(g, g', h, CleaningUp(SenderUnavailable));
    }
  }

  lemma RequestIsNew(g: State, h: HandlerId)
    requires Inv(g) && At(g, h, Inserted)
    ensures forall i :: 0 <= i < |g.toServer| ==> g.toServer[i].id != g.handlers[h].id
  {
    hide FirstReply;
    forall i | 0 <= i < |g.toServer|
      ensures g.toServer[i].id != g.handlers[h].id
    {
      assert HasSender(g.handlers, g.toServer[i]);
      var x :| SentBy(g.handlers, g.toServer[i], x);
    }
  }

  lemma SentGrows(hs: map<HandlerId, Handler>, hs': map<HandlerId, Handler>, toServer: seq<ClientMessage>, h: HandlerId)
    requires SentOk(hs, toServer) && h in hs && !HasSent(hs[h]) && h in hs' && hs' == hs[h := hs'[h]] && HasSent(hs'[h])
    requires forall i :: 0 <= i < |toServer| ==> toServer[i].id != hs'[h].id
    ensures SentOk(hs', toServer + [Append(hs'[h].id, hs'[h].cmd)])
  {
    var more := toServer + [Append(hs'[h].id, hs'[h].cmd)];
    forall i | 0 <= i < |more|
      ensures HasSender(hs', more[i])
    {
      if i < |toServer| {
        assert HasSender(hs, toServer[i]);
        var x :| SentBy(hs, toServer[i], x);
        assert SentBy(hs', more[i], x);
      } else {
        assert SentBy(hs', more[i], h);
      }
    }
  }

  lemma FullIsNotPending(g: State, h: HandlerId)
    requires Inv(g) && At(g, h, Waiting) && h in g.table.slots && g.table.slots[h].Full?
    ensures g.handlers[h].id !in g.table.pending
  {
    hide FirstReply, SentOk, QueueOk, ReaderOk;
    assert ChannelOk(g, h);
    forall id | id in g.table.pending
      ensures id != g.handlers[h].id
    {
      assert PendingEntryOk(g, id, g.table.pending[id]);
    }
  }

  lemma WaitingStepsKeepInv(g: State, step: Step)
    requires Inv(g) && Enabled(g, step) && (step.Receive? || step.SeesClosed? || step.TimesOut?)
    ensures Inv(Do(g, step))
  {
    hide FirstReply, SentOk, IdsOk, PendingOk;
    var h, g' := step.h, Do(g, step);
    SentStays(g.handlers, g'.handlers, g.toServer);
    assert ChannelOk(g, h);
    if step.Receive? {
      FullIsNotPending(g, h);
    }
    MoveKeepsInv(g, g', h, g'.handlers[h].pc);
  }

  lemma CleansUpKeepsInv(g: State, h: HandlerId)
    requires Inv(g) && Enabled(g, CleansUp(h))
    ensures Inv(Do(g, CleansUp(h)))
  {
    hide FirstReply, SentOk, IdsOk, PendingOk, ReaderOk, Removed;
    var g' := Do(g, CleansUp(h));
    var g1 := g.(table := g'.table);
    RemovingOwnEntry(g, h);
    SentStays(g.handlers, g'.handlers, g.toServer);
    MoveKeepsInv(g1, g', h, g'.handlers[h].pc);
  }

  lemma RemovingOwnEntry(g: State, h: HandlerId)
    requires Inv(g) && h in g.handlers && g.handlers[h].pc.CleaningUp?
    ensures Inv(g.(table := Removed(g.table, g.handlers[h].id)))
    ensures g.handlers[h].id !in Removed(g.table, g.handlers[h].id).pending
  {
    hide FirstReply, SentOk;
    var id, g' := g.handlers[h].id, g.(table := Removed(g.table, g.handlers[h].id));
    assert id in g.table.pending ==> g.table.pending[id] == h;
    forall x | x in g'.handlers
      ensures ChannelOk(g', x) && OutcomeOk(g', x)
    {
      assert ChannelOk(g, x) && OutcomeOk(g, x);
    }
  }

  // ---------------------------------------------------------------- the reader

  /** What the reader has read only grows, and a first reply once found stays. */
  lemma ReadStep(msgs: seq<ServerMessage>, m: ServerMessage, since: nat, id: CommandId)
    requires since <= |msgs|
    ensures FirstReply(msgs, since, id).Some? ==> FirstReply(msgs + [m], since, id) == FirstReply(msgs, since, id)
    ensures (m.StartSignal? || m.id != id) ==> FirstReply(msgs + [m], since, id) == FirstReply(msgs, since, id)
    ensures FirstReply(msgs, since, id).None? && !m.StartSignal? && m.id == id ==>
      FirstReply(msgs + [m], since, id) == Some(m)
  {
    FirstReplyStep(msgs, m, since, id);
  }

  lemma ReaderReadsKeepsInv(g: State, m: ServerMessage)
    requires Inv(g) && Enabled(g, ReaderReads(m))
    ensures Inv(Do(g, ReaderReads(m)))
  {
    hide FirstReply, SentOk;
    var g' := Do(g, ReaderReads(m));
    forall id | id in g'.table.pending
      ensures PendingEntryOk(g', id, g'.table.pending[id])
    {
      assert PendingEntryOk(g, id, g.table.pending[id]);
      ReadStep(g.fromServer, m, g.handlers[g.table.pending[id]].since, id);
    }
    if !m.StartSignal? && m.id in g.table.pending {
      assert PendingEntryOk(g, m.id, g.table.pending[m.id]);
      ReadStep(g.fromServer, m, g.handlers[g.table.pending[m.id]].since, m.id);
    }
    forall x | x in g'.handlers
      ensures ChannelOk(g', x) && OutcomeOk(g', x)
    {
      ReadingKeepsHandler(g, m, x);
    }
  }

  lemma ReadingKeepsHandler(g: State, m: ServerMessage, h: HandlerId)
    requires Inv(g) && Enabled(g, ReaderReads(m)) && h in g.handlers
    ensures ChannelOk(Do(g, ReaderReads(m)), h) && OutcomeOk(Do(g, ReaderReads(m)), h)
  {
    hide FirstReply, SentOk, IdsOk, PendingOk, ReaderOk, QueueOk;
    var x := g.handlers[h];
    assert ChannelOk(g, h) && OutcomeOk(g, h);
    if x.since <= |g.fromServer| {
      ReadStep(g.fromServer, m, x.since, x.id);
    }
    ReadingKeepsSenders(g, m, h);
  }

  /** Taking a sender from the table keeps it alive in the reader's hand; the others stay in the table. A reply to
      this handler's id is either the one it waits for or comes when no sender is left for it. */
  lemma ReadingKeepsSenders(g: State, m: ServerMessage, h: HandlerId)
    requires Inv(g) && Enabled(g, ReaderReads(m)) && h in g.handlers
    ensures SenderAlive(Do(g, ReaderReads(m)), h) <==> SenderAlive(g, h)
    ensures SenderAlive(g, h) && !m.StartSignal? && m.id == g.handlers[h].id ==> m.id in g.table.pending
  {
    hide FirstReply, SentOk, ChannelOk, OutcomeOk, QueueOk;
    forall id | id in g.table.pending
      ensures g.table.pending[id] in g.handlers && g.handlers[g.table.pending[id]].id == id
    {
      assert PendingEntryOk(g, id, g.table.pending[id]);
    }
  }

  lemma ReaderResolvesKeepsInv(g: State)
    requires Inv(g) && Enabled(g, ReaderResolves)
    ensures Inv(Do(g, ReaderResolves))
  {
    hide FirstReply, SentOk;
  }

  lemma ReaderEndsKeepsInv(g: State)
    requires Inv(g) && (g.reader == Reading)
    ensures Inv(Do(g, ReaderEnds))
  {
    hide FirstReply, SentOk;
  }

  lemma ReaderClearsKeepsInv(g: State)
    requires Inv(g) && Enabled(g, ReaderClears)
    ensures Inv(Do(g, ReaderClears))
  {
    hide FirstReply, SentOk;
    var g' := Do(g, ReaderClears);
    forall x | x in g'.handlers
      ensures ChannelOk(g', x) && OutcomeOk(g', x)
    {
      assert ChannelOk(g, x) && OutcomeOk(g, x);
      var id := g.handlers[x].id;
      if id in g.table.pending {
        assert PendingEntryOk(g, id, g.table.pending[id]);
        assert g.table.pending[id] in g.table.pending.Values;
      }
    }
  }

  lemma WriterKeepsInv(g: State, step: Step)
    requires Inv(g) && Enabled(g, step) && (step.WriterTakes? || step.WriterStops?)
    ensures Inv(Do(g, step))
  {
    hide FirstReply, SentOk;
    var g' := Do(g, step);
    forall x | x in g'.handlers
      ensures ChannelOk(g', x) && OutcomeOk(g', x)
    {
      assert ChannelOk(g, x) && OutcomeOk(g, x);
    }
  }

  lemma StepKeepsInv(g: State, step: Step)
    requires Inv(g) && Enabled(g, step)
    ensures Inv(Do(g, step))
  {
    hide Inv, Do;
    match step {
      case Enter(h, cmd) => EnterKeepsInv(g, h, cmd);
      case Allocate(h) => AllocateKeepsInv(g, h);
      case Insert(h) => InsertKeepsInv(g, h);
      case SendOk(_) => SendsKeepInv(g, step);
      case SendFails(_) => SendsKeepInv(g, step);
      case Receive(_) => WaitingStepsKeepInv(g, step);
      case SeesClosed(_) => WaitingStepsKeepInv(g, step);
      case TimesOut(_) => WaitingStepsKeepInv(g, step);
      case CleansUp(h) => CleansUpKeepsInv(g, h);
      case ReaderReads(m) => ReaderReadsKeepsInv(g, m);
      case ReaderResolves => ReaderResolvesKeepsInv(g);
      case ReaderEnds => ReaderEndsKeepsInv(g);
      case ReaderClears => ReaderClearsKeepsInv(g);
      case WriterTakes => WriterKeepsInv(g, step);
      case WriterStops => WriterKeepsInv(g, step);
    }
  }

  // ---------------------------------------------------------------- whole runs

  ghost predicate IsRun(run: seq<State>, steps: seq<Step>) {
    && |run| == |steps| + 1
    && Init(run[0])
    && forall i :: 0 <= i < |steps| ==> Enabled(run[i], steps[i]) && run[i + 1] == Do(run[i], steps[i])
  }

  lemma {:induction false} RunInv(run: seq<State>, steps: seq<Step>, i: nat)
    requires IsRun(run, steps) && i < |run|
    ensures Inv(run[i])
  {
    hide Do, Enabled;
    if i > 0 {
      RunInv(run, steps, i - 1);
      hide Inv;
      StepKeepsInv(run[i - 1], steps[i - 1]);
    }
  }

  /** Outcomes are final, requests keep their command and id, and what was sent stays sent. */
  ghost predicate Grows(g: State, g': State) {
    && g.toServer <= g'.toServer && g.taken <= g'.taken && g.fromServer <= g'.fromServer
    && forall h :: h in g.handlers ==> h in g'.handlers && HandlerGrows(g.handlers[h], g'.handlers[h])
  }

  predicate HandlerGrows(x: Handler, x': Handler) {
    && x'.cmd == x.cmd
    && (HasId(x) ==> HasId(x') && x'.id == x.id)
    && (x.pc.Done? ==> x' == x)
  }

  lemma {:induction false} RunGrows(run: seq<State>, steps: seq<Step>, i: nat, j: nat)
    requires IsRun(run, steps) && i <= j < |run|
    ensures Grows(run[i], run[j])
    decreases j - i
  {
    hide IsRun, Grows;
    if i == j {
      GrowsReflexive(run[i]);
    } else {
      RunGrows(run, steps, i, j - 1);
      assert |run| == |steps| + 1 by { RunLength(run, steps); }
      OneStepGrows(run, steps, j - 1);
      GrowsTransitive(run[i], run[j - 1], run[j]);
    }
  }

  lemma RunLength(run: seq<State>, steps: seq<Step>)
    requires IsRun(run, steps)
    ensures |run| == |steps| + 1
  {
  }

  lemma GrowsReflexive(a: State)
    ensures Grows(a, a)
  {
  }

  lemma GrowsTransitive(a: State, b: State, c: State)
    requires Grows(a, b) && Grows(b, c)
    ensures Grows(a, c)
  {
  }

  lemma StepGrows(g: State, step: Step)
    requires Enabled(g, step)
    ensures Grows(g, Do(g, step))
  {
    hide Registered, Removed, AllCleared;
  }

  lemma OneStepGrows(run: seq<State>, steps: seq<Step>, i: nat)
    requires IsRun(run, steps) && i < |steps|
    ensures i + 1 < |run| && Grows(run[i], run[i + 1])
  {
    hide Do, Enabled, Init, Grows;
    StepGrows(run[i], steps[i]);
  }

  /** At most one outcome per request, and what it means: a success carries the request's own id, and is the
      first such reply the server sent after the request was registered; the two connection errors are
      reported only once that connection half is gone, the closed channel only if no reply ever came. */
  lemma OneRightOutcome(run: seq<State>, steps: seq<Step>, i: nat, j: nat, h: HandlerId)
    requires IsRun(run, steps) && i <= j < |run|
    requires h in run[i].handlers && run[i].handlers[h].pc.Done?
    ensures h in run[j].handlers && run[j].handlers[h] == run[i].handlers[h]
    ensures var x, read := run[j].handlers[h], run[j].fromServer;
      match x.pc.outcome
      case Success(m) =>
        m in read && !m.StartSignal? && m.id == x.id && FirstReply(read, x.since, x.id) == Some(m)
      case Failure(SenderUnavailable) => !run[j].writerAlive
      case Failure(ChannelClosed) => run[j].reader == Cleared && FirstReply(read, x.since, x.id) == None
      case Failure(Timeout) => true
  {
    RunInv(run, steps, j);
    RunGrows(run, steps, i, j);
    var x := run[j].handlers[h];
    assert OutcomeOk(run[j], h);
    FirstReplyIsReply(run[j].fromServer, x.since, x.id);
  }

  /** Pending ids are allocated ids of unfinished handlers, so once every handler is done the table is empty. */
  lemma NothingLeaks(run: seq<State>, steps: seq<Step>, i: nat)
    requires IsRun(run, steps) && i < |run|
    ensures forall id :: id in run[i].table.pending ==> id < run[i].table.counter
    ensures forall id :: id in run[i].table.pending ==>
      exists h :: h in run[i].handlers && run[i].handlers[h].id == id && !run[i].handlers[h].pc.Done?
    ensures (forall h :: h in run[i].handlers ==> run[i].handlers[h].pc.Done?) ==> run[i].table.pending == map[]
  {
    RunInv(run, steps, i);
    var g := run[i];
    forall id | id in g.table.pending
      ensures id < g.table.counter
      ensures exists h :: h in g.handlers && g.handlers[h].id == id && !g.handlers[h].pc.Done?
    {
      assert PendingEntryOk(g, id, g.table.pending[id]);
    }
    assert g.table.pending == map[] || exists id :: id in g.table.pending;
  }

  /** How many of its own steps a handler still has to take, at most. */
  function StepsLeft(pc: Pc): nat {
    match pc
    case Entered => 5
    case Allocated => 4
    case Inserted => 3
    case Waiting => 2
    case CleaningUp(_) => 1
    case Done(_) => 0
  }

  predicate IsOwn(step: Step, h: HandlerId) {
    (step.Allocate? || step.Insert? || step.SendOk? || step.SendFails? || step.Receive? || step.SeesClosed? ||
     step.TimesOut? || step.CleansUp?) && step.h == h
  }

  ghost predicate CanMove(g: State, h: HandlerId) {
    exists step :: IsOwn(step, h) && Enabled(g, step)
  }

  /** The handler waits for room in the queue to a writer that is alive but takes nothing. No timeout runs yet. */
  predicate Blocked(g: State, h: HandlerId) {
    At(g, h, Inserted) && g.writerAlive && |g.toServer| >= g.taken + CAPACITY
  }

  lemma OwnStep(g: State, h: HandlerId) returns (step: Step)
    requires Inv(g) && h in g.handlers && !g.handlers[h].pc.Done? && !Blocked(g, h)
    ensures IsOwn(step, h) && Enabled(g, step)
  {
    hide FirstReply, SentOk, IdsOk, PendingOk, ReaderOk;
    assert ChannelOk(g, h);
    match g.handlers[h].pc {
      case Entered => step := Allocate(h);
      case Allocated => step := Insert(h);
      case Inserted => step := if g.writerAlive then SendOk(h) else SendFails(h);
      case Waiting =>
        var slot := g.table.slots[h];
        step := if slot.Full? then Receive(h) else if slot.Closed? then SeesClosed(h) else TimesOut(h);
      case CleaningUp(_) => step := CleansUp(h);
    }
  }

  /** In every reachable state an unfinished handler has a step of its own, unless and only unless it waits for
      room in the full queue of a living writer; then only the writer can let it go on, and the next message it
      takes does. In particular no waiting handler is left without a sender. Every step of its own brings it
      nearer its outcome, and no step of another task sets it back. */
  lemma StuckExactlyIfBlocked(run: seq<State>, steps: seq<Step>, i: nat, h: HandlerId)
    requires IsRun(run, steps) && i < |run| && h in run[i].handlers && !run[i].handlers[h].pc.Done?
    ensures CanMove(run[i], h) <==> !Blocked(run[i], h)
    ensures Blocked(run[i], h) ==> Enabled(run[i], WriterTakes) && CanMove(Do(run[i], WriterTakes), h)
    ensures Blocked(run[i], h) ==> forall step :: Enabled(run[i], step) && !step.WriterTakes? && !step.WriterStops? ==>
      Blocked(Do(run[i], step), h)
    ensures forall step :: Enabled(run[i], step) ==>
      && h in Do(run[i], step).handlers
      && StepsLeft(Do(run[i], step).handlers[h].pc) <=
           StepsLeft(run[i].handlers[h].pc) - (if IsOwn(step, h) then 1 else 0)
  {
    RunInv(run, steps, i);
    var g := run[i];
    hide Inv, IsRun;
    if Blocked(g, h) {
      BlockedIsFull(g, h);
      StepKeepsInv(g, WriterTakes);
      var step := OwnStep(Do(g, WriterTakes), h);
    } else {
      var step := OwnStep(g, h);
    }
    forall step | Enabled(g, step)
      ensures h in Do(g, step).handlers
      ensures StepsLeft(Do(g, step).handlers[h].pc) <= StepsLeft(g.handlers[h].pc) - (if IsOwn(step, h) then 1 else 0)
    {
      StepsOnlyGoDown(g, step, h);
    }
    forall step | Blocked(g, h) && Enabled(g, step) && !step.WriterTakes? && !step.WriterStops?
      ensures Blocked(Do(g, step), h)
    {
      OnlyTheWriterUnblocks(g, step, h);
    }
  }

  lemma OnlyTheWriterUnblocks(g: State, step: Step, h: HandlerId)
    requires Blocked(g, h) && Enabled(g, step) && !step.WriterTakes? && !step.WriterStops?
    ensures Blocked(Do(g, step), h)
  {
    hide Registered, Removed, AllCleared;
  }

  lemma BlockedIsFull(g: State, h: HandlerId)
    requires Inv(g) && Blocked(g, h)
    ensures |g.toServer| == g.taken + CAPACITY && Enabled(g, WriterTakes) && !CanMove(g, h)
  {
    hide IdsOk, PendingOk, ReaderOk, SentOk, ChannelOk, OutcomeOk;
  }

  lemma StepsOnlyGoDown(g: State, step: Step, h: HandlerId)
    requires Enabled(g, step) && h in g.handlers && !g.handlers[h].pc.Done?
    ensures h in Do(g, step).handlers
    ensures StepsLeft(Do(g, step).handlers[h].pc) <= StepsLeft(g.handlers[h].pc) - (if IsOwn(step, h) then 1 else 0)
  {
    hide Registered, Removed, AllCleared;
  }

  // ---------------------------------------------------------------- a full queue can be reached

  lemma OneMore(run: seq<State>, steps: seq<Step>, step: Step) returns (run': seq<State>, steps': seq<Step>)
    requires IsRun(run, steps) && Enabled(run[|steps|], step)
    ensures IsRun(run', steps') && |steps'| == |steps| + 1 && run'[|steps'|] == Do(run[|steps|], step)
  {
    hide Enabled, Do, Init;
    run', steps' := run + [Do(run[|steps|], step)], steps + [step];
    forall i | 0 <= i < |steps'|
      ensures Enabled(run'[i], steps'[i]) && run'[i + 1] == Do(run'[i], steps'[i])
    {
      if i < |steps| {
        assert steps'[i] == steps[i] && run'[i] == run[i] && run'[i + 1] == run[i + 1];
      }
    }
  }

  /** Handlers 0 to n - 1 put their requests into the queue, and the writer takes none. */
  predicate Filled(g: State, n: nat) {
    (forall h :: h in g.handlers ==> h < n) && g.writerAlive && |g.toServer| == n && g.taken == 0
  }

  /** Handler `n` gets as far as it needs no room in the queue. */
  lemma NextInserts(run: seq<State>, steps: seq<Step>, n: nat, cmd: KVCommand)
    returns (run': seq<State>, steps': seq<Step>)
    requires IsRun(run, steps) && Filled(run[|steps|], n)
    ensures IsRun(run', steps')
    ensures At(run'[|steps'|], n, Inserted)
    ensures var g := run'[|steps'|];
      g.writerAlive && |g.toServer| == n && g.taken == 0 && forall h :: h in g.handlers ==> h <= n
  {
    hide IsRun, Registered;
    run', steps' := OneMore(run, steps, Enter(n, cmd));
    run', steps' := OneMore(run', steps', Allocate(n));
    run', steps' := OneMore(run', steps', Insert(n));
  }

  lemma {:induction false} QueueFills(n: nat, cmd: KVCommand) returns (run: seq<State>, steps: seq<Step>)
    requires n <= CAPACITY
    ensures IsRun(run, steps) && Filled(run[|steps|], n)
  {
    if n == 0 {
      run, steps := [State(Table(0, map[], map[]), map[], Reading, true, [], [], 0)], [];
    } else {
      hide IsRun;
      run, steps := QueueFills(n - 1, cmd);
      run, steps := NextInserts(run, steps, n - 1, cmd);
      run, steps := OneMore(run, steps, SendOk(n - 1));
    }
  }

  /** Such a state is reached: a handler can wait longer than any timeout while the writer takes nothing. */
  lemma AHandlerCanBeBlocked(cmd: KVCommand) returns (run: seq<State>, steps: seq<Step>, h: HandlerId)
    ensures IsRun(run, steps) && Blocked(run[|steps|], h) && !CanMove(run[|steps|], h)
    ensures |run[|steps|].toServer| == 1024 && run[|steps|].taken == 0
  {
    hide IsRun, Inv;
    run, steps := QueueFills(CAPACITY, cmd);
    h := CAPACITY;
    run, steps := NextInserts(run, steps, h, cmd);
    RunLength(run, steps);
    RunInv(run, steps, |steps|);
    BlockedIsFull(run[|steps|], h);
  }
}
