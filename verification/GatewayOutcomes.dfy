/** What each handler's outcome is, from what happened to it, in every run of the gateway. */
module GatewayOutcomes {
  import opened KV
  import opened Gateway
  import opened GatewaySafety

  /** It is settled that handler `h` ends with `o`: its reply is in its channel, its channel is closed, the writer
      is gone before it could send, or it has left `submit_command`'s last wait already. */
  predicate Settled(g: State, h: HandlerId, o: Outcome) {
    && h in g.handlers
    && match g.handlers[h].pc
       case Inserted => !g.writerAlive && o == Failure(SenderUnavailable)
       case Waiting =>
         && h in g.table.slots
         && (match g.table.slots[h]
             case Full(m) => o == Success(m)
             case Closed => o == Failure(ChannelClosed)
             case Empty => false)
       case CleaningUp(error) => o == Failure(error)
       case Done(outcome) => o == outcome
       case _ => false
  }

  /** A channel that is full or closed stays so: its sender is gone. */
  lemma ChannelStays(g: State, step: Step, h: HandlerId)
    requires Inv(g) && Enabled(g, step) && At(g, h, Waiting) && h in g.table.slots && g.table.slots[h] != Empty
    ensures h in Do(g, step).table.slots && Do(g, step).table.slots[h] == g.table.slots[h]
  {
    hide FirstReply, SentOk, QueueOk, IdsOk, PendingOk, OutcomeOk, HoldingOk;
    assert ChannelOk(g, h);
    if step.ReaderResolves? {
      assert g.reader.h != h;
    }
  }

  lemma SettledStays(g: State, step: Step, h: HandlerId, o: Outcome)
    requires Inv(g) && Enabled(g, step) && Settled(g, h, o)
    ensures Settled(Do(g, step), h, o)
  {
    hide Inv, Registered, Removed, AllCleared;
    if At(g, h, Waiting) {
      ChannelStays(g, step, h);
    }
  }

  lemma {:induction false} OutcomeIsSettled(run: seq<State>, steps: seq<Step>, i: nat, j: nat, h: HandlerId, o: Outcome)
    requires IsRun(run, steps) && i <= j < |run| && Settled(run[i], h, o)
    ensures Settled(run[j], h, o)
    decreases j - i
  {
    hide Init, Inv, Enabled, Do, Settled;
    if i < j {
      OutcomeIsSettled(run, steps, i, j - 1, h, o);
      RunInv(run, steps, j - 1);
      SettledStays(run[j - 1], steps[j - 1], h, o);
    }
  }

  predicate EndsWith(g: State, h: HandlerId, o: Outcome) {
    h in g.handlers && (g.handlers[h].pc.Done? ==> g.handlers[h].pc.outcome == o)
  }

  predicate ChannelIs(g: State, h: HandlerId, slot: Slot) {
    At(g, h, Waiting) && h in g.table.slots && g.table.slots[h] == slot
  }

  /** What a handler ends with, once it ends. A reply in its channel is what it returns, whatever time it takes to
      do so; a closed channel and a writer gone before it could send are reported as such. */
  lemma OutcomeFollows(run: seq<State>, steps: seq<Step>, i: nat, j: nat, h: HandlerId)
    requires IsRun(run, steps) && i <= j < |run| && h in run[i].handlers
    ensures forall m :: ChannelIs(run[i], h, Full(m)) ==> EndsWith(run[j], h, Success(m))
    ensures ChannelIs(run[i], h, Closed) ==> EndsWith(run[j], h, Failure(ChannelClosed))
    ensures At(run[i], h, Inserted) && !run[i].writerAlive ==> EndsWith(run[j], h, Failure(SenderUnavailable))
  {
    hide IsRun, Inv;
    forall o | Settled(run[i], h, o)
      ensures EndsWith(run[j], h, o)
    {
      OutcomeIsSettled(run, steps, i, j, h, o);
    }
    forall m | ChannelIs(run[i], h, Full(m))
      ensures EndsWith(run[j], h, Success(m))
    {
      assert Settled(run[i], h, Success(m));
    }
    assert ChannelIs(run[i], h, Closed) ==> Settled(run[i], h, Failure(ChannelClosed));
    assert At(run[i], h, Inserted) && !run[i].writerAlive ==> Settled(run[i], h, Failure(SenderUnavailable));
  }

  /** The steps that settle the outcome of a handler waiting on an empty channel: its timeout, the reader handing
      over its reply, or the reader giving up. */
  lemma StepSettles(g: State, step: Step, h: HandlerId)
    requires Inv(g) && Enabled(g, step) && ChannelIs(g, h, Empty)
    ensures step == TimesOut(h) ==> Settled(Do(g, step), h, Failure(Timeout))
    ensures step == ReaderClears ==> Settled(Do(g, step), h, Failure(ChannelClosed))
    ensures step == ReaderResolves && g.reader.h == h ==> Settled(Do(g, step), h, Success(g.reader.msg))
  {
    hide FirstReply, SentOk, QueueOk, IdsOk, PendingOk, ReaderOk, OutcomeOk;
    assert ChannelOk(g, h);
  }

  lemma StepDecides(run: seq<State>, steps: seq<Step>, i: nat, j: nat, h: HandlerId)
    requires IsRun(run, steps) && i < j < |run| && ChannelIs(run[i], h, Empty)
    ensures steps[i] == TimesOut(h) ==> EndsWith(run[j], h, Failure(Timeout))
    ensures steps[i] == ReaderClears ==> EndsWith(run[j], h, Failure(ChannelClosed))
    ensures run[i].reader.Holding? && run[i].reader.h == h && steps[i] == ReaderResolves ==>
      EndsWith(run[j], h, Success(run[i].reader.msg))
  {
    hide Init, Inv, Enabled, Do;
    RunInv(run, steps, i);
    StepSettles(run[i], steps[i], h);
    forall o | Settled(run[i + 1], h, o)
      ensures EndsWith(run[j], h, o)
    {
      OutcomeIsSettled(run, steps, i + 1, j, h, o);
    }
  }

  predicate HasTimedOut(g: State, h: HandlerId) {
    h in g.handlers && (g.handlers[h].pc == CleaningUp(Timeout) || g.handlers[h].pc == Done(Failure(Timeout)))
  }

  lemma TimingOut(g: State, step: Step, h: HandlerId)
    requires Enabled(g, step) && HasTimedOut(Do(g, step), h) && !HasTimedOut(g, h)
    ensures step == TimesOut(h) && ChannelIs(g, h, Empty)
  {
    hide Registered, Removed, AllCleared;
  }

  /** Only a handler whose channel was empty when it stopped waiting ends with a timeout. */
  lemma {:induction false} OnlyEmptyTimesOut(run: seq<State>, steps: seq<Step>, j: nat, h: HandlerId) returns (i: nat)
    requires IsRun(run, steps) && j < |run| && HasTimedOut(run[j], h)
    ensures i < j && i < |steps| && steps[i] == TimesOut(h) && ChannelIs(run[i], h, Empty)
  {
    hide Init, Enabled, Do, HasTimedOut, ChannelIs;
    NobodyAtFirst(run[0], h);
    if HasTimedOut(run[j - 1], h) {
      i := OnlyEmptyTimesOut(run, steps, j - 1, h);
    } else {
      i := j - 1;
      TimingOut(run[i], steps[i], h);
    }
  }

  lemma NobodyAtFirst(g: State, h: HandlerId)
    requires Init(g)
    ensures h !in g.handlers && !HasTimedOut(g, h)
  {
  }

  // ---------------------------------------------------------------- after the connection is lost

  /** The reader is gone for good, and handler `h` still waits for it, or has given up. */
  predicate WaitsInVain(g: State, h: HandlerId) {
    && g.reader == Cleared && h in g.handlers
    && (ChannelIs(g, h, Empty) || HasTimedOut(g, h))
  }

  lemma VainStays(g: State, step: Step, h: HandlerId)
    requires Inv(g) && Enabled(g, step) && WaitsInVain(g, h)
    ensures WaitsInVain(Do(g, step), h)
  {
    hide FirstReply, SentOk, QueueOk, ReaderOk, OutcomeOk;
    if ChannelIs(g, h, Empty) {
      assert ChannelOk(g, h);
    }
  }

  /** The reader does not come back: a request that starts to wait after it cleared the table can only time out. */
  lemma {:induction false} LostConnectionMeansTimeout(run: seq<State>, steps: seq<Step>, i: nat, j: nat, h: HandlerId)
    requires IsRun(run, steps) && i <= j < |run| && WaitsInVain(run[i], h)
    ensures WaitsInVain(run[j], h) && EndsWith(run[j], h, Failure(Timeout))
    decreases j - i
  {
    hide Init, Inv, Enabled, Do;
    if i < j {
      LostConnectionMeansTimeout(run, steps, i, j - 1, h);
      RunInv(run, steps, j - 1);
      hide WaitsInVain;
      VainStays(run[j - 1], steps[j - 1], h);
      VainEnds(run[j], h);
    }
  }

  lemma VainEnds(g: State, h: HandlerId)
    requires WaitsInVain(g, h)
    ensures EndsWith(g, h, Failure(Timeout))
  {
  }

  // ---------------------------------------------------------------- whose command it is

  lemma StepKeepsCommand(g: State, step: Step, h: HandlerId)
    requires Enabled(g, step) && h in Do(g, step).handlers
    ensures if h in g.handlers then Do(g, step).handlers[h].cmd == g.handlers[h].cmd
            else step == Enter(h, Do(g, step).handlers[h].cmd)
  {
    hide Registered, Removed, AllCleared;
  }

  /** A handler's command is the one its caller came with. */
  lemma {:induction false} CommandIsCallers(run: seq<State>, steps: seq<Step>, j: nat, h: HandlerId) returns (i: nat)
    requires IsRun(run, steps) && j < |run| && h in run[j].handlers
    ensures i < j && i < |steps| && h !in run[i].handlers && steps[i] == Enter(h, run[j].handlers[h].cmd)
  {
    hide Init, Enabled, Do;
    NobodyAtFirst(run[0], h);
    StepKeepsCommand(run[j - 1], steps[j - 1], h);
    if h in run[j - 1].handlers {
      i := CommandIsCallers(run, steps, j - 1, h);
    } else {
      i := j - 1;
    }
  }

  // ---------------------------------------------------------------- every outcome occurs

  /** A first handler, registered and about to send. */
  function FirstInserted(cmd: KVCommand): State {
    State(Table(1, map[0 := 0], map[0 := Empty]), map[0 := Handler(cmd, 0, 0, Inserted)], Reading, true, [], [], 0)
  }

  lemma FirstInserts(cmd: KVCommand) returns (run: seq<State>, steps: seq<Step>)
    ensures IsRun(run, steps) && |run| == |steps| + 1 && run[|steps|] == FirstInserted(cmd)
  {
    run, steps := [State(Table(0, map[], map[]), map[], Reading, true, [], [], 0)], [];
    assert IsRun(run, steps);
    hide IsRun;
    run, steps := OneMore(run, steps, Enter(0, cmd));
    assert run[|steps|].handlers == map[0 := Handler(cmd, 0, 0, Entered)];
    run, steps := OneMore(run, steps, Allocate(0));
    assert run[|steps|].handlers == map[0 := Handler(cmd, 0, 0, Allocated)];
    run, steps := OneMore(run, steps, Insert(0));
    assert run[|steps|].handlers == map[0 := Handler(cmd, 0, 0, Inserted)];
    assert run[|steps|].table.pending == map[0 := 0] && run[|steps|].table.slots == map[0 := Empty];
    RunLength(run, steps);
  }

  /** All four outcomes occur: for any command and any reply to it there is a run in which the handler ends so. */
  lemma EveryOutcomeOccurs(cmd: KVCommand, o: Outcome) returns (run: seq<State>, steps: seq<Step>)
    requires o.Success? ==> !o.msg.StartSignal? && o.msg.id == 0
    ensures IsRun(run, steps) && |run| == |steps| + 1
    ensures 0 in run[|steps|].handlers && run[|steps|].handlers[0] == Handler(cmd, 0, 0, Done(o))
  {
    run, steps := FirstInserts(cmd);
    hide IsRun;
    if o.Success? {
      run, steps := Succeeds(run, steps, cmd, o.msg);
    } else {
      match o.error {
        case SenderUnavailable => run, steps := EndsUnavailable(run, steps, cmd);
        case ChannelClosed => run, steps := EndsClosed(run, steps, cmd);
        case Timeout => run, steps := EndsTimedOut(run, steps, cmd);
      }
    }
    RunLength(run, steps);
  }

  lemma Succeeds(run0: seq<State>, steps0: seq<Step>, cmd: KVCommand, m: ServerMessage)
    returns (run: seq<State>, steps: seq<Step>)
    requires IsRun(run0, steps0) && |run0| == |steps0| + 1 && run0[|steps0|] == FirstInserted(cmd)
    requires !m.StartSignal? && m.id == 0
    ensures IsRun(run, steps) && |run| == |steps| + 1
    ensures 0 in run[|steps|].handlers && run[|steps|].handlers[0] == Handler(cmd, 0, 0, Done(Success(m)))
  {
    hide IsRun;
    run, steps := OneMore(run0, steps0, SendOk(0));
    run, steps := OneMore(run, steps, ReaderReads(m));
    run, steps := OneMore(run, steps, ReaderResolves);
    run, steps := OneMore(run, steps, Receive(0));
    RunLength(run, steps);
  }

  lemma EndsUnavailable(run0: seq<State>, steps0: seq<Step>, cmd: KVCommand)
    returns (run: seq<State>, steps: seq<Step>)
    requires IsRun(run0, steps0) && |run0| == |steps0| + 1 && run0[|steps0|] == FirstInserted(cmd)
    ensures IsRun(run, steps) && |run| == |steps| + 1 && 0 in run[|steps|].handlers
    ensures run[|steps|].handlers[0] == Handler(cmd, 0, 0, Done(Failure(SenderUnavailable)))
  {
    hide IsRun;
    run, steps := OneMore(run0, steps0, WriterStops);
    run, steps := OneMore(run, steps, SendFails(0));
    run, steps := OneMore(run, steps, CleansUp(0));
    RunLength(run, steps);
  }

  lemma EndsClosed(run0: seq<State>, steps0: seq<Step>, cmd: KVCommand)
    returns (run: seq<State>, steps: seq<Step>)
    requires IsRun(run0, steps0) && |run0| == |steps0| + 1 && run0[|steps0|] == FirstInserted(cmd)
    ensures IsRun(run, steps) && |run| == |steps| + 1 && 0 in run[|steps|].handlers
    ensures run[|steps|].handlers[0] == Handler(cmd, 0, 0, Done(Failure(ChannelClosed)))
  {
    hide IsRun;
    run, steps := OneMore(run0, steps0, SendOk(0));
    run, steps := OneMore(run, steps, ReaderEnds);
    RunLength(run, steps);
    assert 0 in run[|steps|].table.pending && run[|steps|].table.pending[0] == 0;
    run, steps := OneMore(run, steps, ReaderClears);
    run, steps := OneMore(run, steps, SeesClosed(0));
    run, steps := OneMore(run, steps, CleansUp(0));
    RunLength(run, steps);
  }

  lemma EndsTimedOut(run0: seq<State>, steps0: seq<Step>, cmd: KVCommand)
    returns (run: seq<State>, steps: seq<Step>)
    requires IsRun(run0, steps0) && |run0| == |steps0| + 1 && run0[|steps0|] == FirstInserted(cmd)
    ensures IsRun(run, steps) && |run| == |steps| + 1 && 0 in run[|steps|].handlers
    ensures run[|steps|].handlers[0] == Handler(cmd, 0, 0, Done(Failure(Timeout)))
  {
    hide IsRun;
    run, steps := OneMore(run0, steps0, SendOk(0));
    run, steps := OneMore(run, steps, TimesOut(0));
    run, steps := OneMore(run, steps, CleansUp(0));
    RunLength(run, steps);
  }
}
