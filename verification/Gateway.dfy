/** The HTTP gateway (src/gateway/main.rs): many request handlers and one reader task share a table of
    pending requests. Handlers run to completion; between two awaits each task runs alone. */
module Gateway {
  import opened KV

  type HandlerId = nat

  /** A oneshot channel as its receiver sees it: nothing yet, a message, or its sender dropped. */
  datatype Slot = Empty | Full(msg: ServerMessage) | Closed

  /** The shared state: the id counter, and who waits for which command id. `slots` holds the channels. */
  datatype Table = Table(counter: nat, pending: map<CommandId, HandlerId>, slots: map<HandlerId, Slot>)

  datatype GatewayError = SenderUnavailable | ChannelClosed | Timeout

  datatype Outcome = Success(msg: ServerMessage) | Failure(error: GatewayError)

  /** Where a handler stands in `submit_command`. */
  datatype Pc = Entered | Allocated | Inserted | Waiting | CleaningUp(error: GatewayError) | Done(outcome: Outcome)

  /** `since` is how much the reader had read when the handler registered. */
  datatype Handler = Handler(cmd: KVCommand, id: CommandId, since: nat, pc: Pc)

  /** How many messages the queue to the writer holds before a sender has to wait. */
  const CAPACITY: nat := 1024

  datatype Reader = Reading | Holding(h: HandlerId, msg: ServerMessage) | Stopped | Cleared

  /** `toServer` is all that was ever put into the queue to the writer, which has taken the first `taken`. */
  datatype State = State(
    table: Table,
    handlers: map<HandlerId, Handler>,
    reader: Reader,
    writerAlive: bool,
    fromServer: seq<ServerMessage>,
    toServer: seq<ClientMessage>,
    taken: nat)

  datatype Step =
    | Enter(h: HandlerId, cmd: KVCommand)
    | Allocate(h: HandlerId)
    | Insert(h: HandlerId)
    | SendOk(h: HandlerId)
    | SendFails(h: HandlerId)
    | Receive(h: HandlerId)
    | SeesClosed(h: HandlerId)
    | TimesOut(h: HandlerId)
    | CleansUp(h: HandlerId)
    | ReaderReads(msg: ServerMessage)
    | ReaderResolves
    | ReaderEnds
    | ReaderClears
    | WriterTakes
    | WriterStops

  // ---------------------------------------------------------------- the table

  /** Dropping a sender closes a channel that carries no message. */
  function DropSender(slots: map<HandlerId, Slot>, h: HandlerId): map<HandlerId, Slot> {
    if h in slots && slots[h] == Empty then slots[h := Closed] else slots
  }

  /** Inserting under an id that is taken drops the sender that was there. */
  function Registered(t: Table, id: CommandId, h: HandlerId): Table {
    var slots := if id in t.pending then DropSender(t.slots, t.pending[id]) else t.slots;
    t.(pending := t.pending[id := h], slots := slots[h := Empty])
  }

  function Removed(t: Table, id: CommandId): Table {
    if id in t.pending then t.(pending := t.pending - {id}, slots := DropSender(t.slots, t.pending[id])) else t
  }

  function AllCleared(t: Table): Table {
    t.(pending := map[],
       slots := map h | h in t.slots ::
         if t.slots[h] == Empty && h in t.pending.Values then Closed else t.slots[h])
  }

  /** A channel after its sender was dropped, or not. */
  function Dropped(slot: Slot, dropped: bool): Slot {
    if dropped && slot == Empty then Closed else slot
  }

  function SenderAt(pending: map<CommandId, HandlerId>, id: CommandId): set<HandlerId> {
    if id in pending then {pending[id]} else {}
  }

  /** The table object. Each method is one critical section of the source. */
  class AppState {
    var cmdIdCounter: nat
    var pending: map<CommandId, HandlerId>
    var slots: map<HandlerId, Slot>

    ghost function View(): Table
      reads this
    {
      Table(cmdIdCounter, pending, slots)
    }

    constructor ()
      ensures View() == Table(0, map[], map[])
    {
      cmdIdCounter, pending, slots := 0, map[], map[];
    }

    method FetchAdd() returns (id: CommandId)
      modifies this`cmdIdCounter
      ensures id == old(cmdIdCounter) && View() == old(View()).(counter := id + 1)
    {
      id := cmdIdCounter;
      cmdIdCounter := cmdIdCounter + 1;
    }

    method InsertPending(id: CommandId, h: HandlerId)
      modifies this`pending, this`slots
      ensures View() == Registered(old(View()), id, h)
      ensures pending == old(pending)[id := h] && h in slots && slots[h] == Empty
      ensures slots.Keys == old(slots).Keys + {h}
      ensures var closed := SenderAt(old(pending), id);
        forall x :: x in old(slots) && x != h ==> slots[x] == Dropped(old(slots)[x], x in closed)
    {
      if id in pending {
        slots := DropSender(slots, pending[id]);
      }
      pending, slots := pending[id := h], slots[h := Empty];
    }

    method RemovePending(id: CommandId)
      modifies this`pending, this`slots
      ensures View() == Removed(old(View()), id)
      ensures pending.Keys == old(pending).Keys - {id} && forall x :: x in pending ==> pending[x] == old(pending)[x]
      ensures slots.Keys == old(slots).Keys
      ensures forall x :: x in slots ==> slots[x] == Dropped(old(slots)[x], x in SenderAt(old(pending), id))
    {
      if id in pending {
        slots := DropSender(slots, pending[id]);
        pending := pending - {id};
      }
    }

    method ClearPending()
      modifies this`pending, this`slots
      ensures View() == AllCleared(old(View()))
      ensures pending == map[] && slots.Keys == old(slots).Keys
      ensures forall x :: x in slots ==> slots[x] == Dropped(old(slots)[x], x in old(pending).Values)
    {
      slots := map h | h in slots :: if slots[h] == Empty && h in pending.Values then Closed else slots[h];
      pending := map[];
    }

    /** The reader's part under the lock: take the sender waiting for a reply, if there is one. */
    method TakeSender(msg: ServerMessage) returns (sender: Option<HandlerId>)
      modifies this`pending
      ensures sender == if !msg.StartSignal? && msg.id in old(pending) then Some(old(pending)[msg.id]) else None
      ensures View() == old(View()).(pending := if sender.Some? then old(pending) - {msg.id} else old(pending))
    {
      sender := None;
      if !msg.StartSignal? && msg.id in pending {
        sender := Some(pending[msg.id]);
        pending := pending - {msg.id};
      }
    }

    /** `reader_task` on its own, with no handler interfering: every waiting handler ends up with the first
        reply to its id, or with its channel closed, and the table ends up empty. */
    method ReaderTask(incoming: seq<ServerMessage>)
      requires forall id :: id in pending ==> pending[id] in slots && slots[pending[id]] == Empty
      requires forall id, id' :: id in pending && id' in pending && id != id' ==> pending[id] != pending[id']
      modifies this`pending, this`slots
      ensures pending == map[]
      ensures forall id :: id in old(pending) ==> old(pending)[id] in slots
      ensures forall id :: id in old(pending) ==>
        slots[old(pending)[id]] == match FirstReply(incoming, 0, id) case Some(m) => Full(m) case None => Closed
    {
      for i := 0 to |incoming|
        invariant forall id :: id in pending ==> id in old(pending) && pending[id] == old(pending)[id]
        invariant forall id :: id in old(pending) ==> old(pending)[id] in slots
        invariant forall id :: id in old(pending) ==> (id in pending <==> FirstReply(incoming[..i], 0, id) == None)
        invariant forall id :: id in pending ==> slots[pending[id]] == Empty
        invariant forall id :: id in old(pending) && id !in pending ==>
          slots[old(pending)[id]] == Full(FirstReply(incoming[..i], 0, id).value)
      {
        assert incoming[..i + 1][..i] == incoming[..i];
        forall id { FirstReplyStep(incoming[..i], incoming[i], 0, id); }
        assert incoming[..i] + [incoming[i]] == incoming[..i + 1];
        var sender := TakeSender(incoming[i]);
        if sender.Some? {
          slots := slots[sender.value := Full(incoming[i])];
        }
      }
      assert incoming[..|incoming|] == incoming;
      ClearPending();
    }
  }

  // ---------------------------------------------------------------- the protocol

  /** The first reply to `id` among the messages from position `since` on. */
  function FirstReply(msgs: seq<ServerMessage>, since: nat, id: CommandId): Option<ServerMessage> {
    if |msgs| <= since then None
    else
      var before, last := FirstReply(msgs[..|msgs| - 1], since, id), msgs[|msgs| - 1];
      if before.Some? then before
      else if !last.StartSignal? && last.id == id then Some(last)
      else None
  }

  lemma FirstReplyStep(msgs: seq<ServerMessage>, m: ServerMessage, since: nat, id: CommandId)
    requires since <= |msgs|
    ensures var before := FirstReply(msgs, since, id);
      FirstReply(msgs + [m], since, id) ==
        if before.Some? then before else if !m.StartSignal? && m.id == id then Some(m) else None
  {
    assert (msgs + [m])[..|msgs|] == msgs;
  }

  lemma {:induction false} FirstReplyIsReply(msgs: seq<ServerMessage>, since: nat, id: CommandId)
    ensures var r := FirstReply(msgs, since, id);
      r.Some? ==> r.value in msgs && !r.value.StartSignal? && r.value.id == id
  {
    if |msgs| > since {
      FirstReplyIsReply(msgs[..|msgs| - 1], since, id);
    }
  }

  predicate Init(g: State) {
    g == State(Table(0, map[], map[]), map[], Reading, true, [], [], 0)
  }

  predicate At(g: State, h: HandlerId, pc: Pc) {
    h in g.handlers && g.handlers[h].pc == pc
  }

  predicate Enabled(g: State, step: Step) {
    match step
    case Enter(h, _) => h !in g.handlers
    case Allocate(h) => At(g, h, Entered)
    case Insert(h) => At(g, h, Allocated)
    case SendOk(h) => At(g, h, Inserted) && g.writerAlive && |g.toServer| < g.taken + CAPACITY
    case SendFails(h) => At(g, h, Inserted) && !g.writerAlive
    case Receive(h) => At(g, h, Waiting) && h in g.table.slots && g.table.slots[h].Full?
    case SeesClosed(h) => At(g, h, Waiting) && h in g.table.slots && g.table.slots[h] == Closed
    case TimesOut(h) => At(g, h, Waiting) && h in g.table.slots && g.table.slots[h] == Empty
    case CleansUp(h) => h in g.handlers && g.handlers[h].pc.CleaningUp?
    case ReaderReads(_) => g.reader == Reading
    case ReaderResolves => g.reader.Holding?
    case ReaderEnds => g.reader == Reading
    case ReaderClears => g.reader == Stopped
    case WriterTakes => g.writerAlive && g.taken < |g.toServer|
    case WriterStops => true
  }

  function Moved(g: State, h: HandlerId, pc: Pc): map<HandlerId, Handler>
    requires h in g.handlers
  {
    g.handlers[h := g.handlers[h].(pc := pc)]
  }

  function Do(g: State, step: Step): State
    requires Enabled(g, step)
  {
    match step
    case Enter(h, cmd) => g.(handlers := g.handlers[h := Handler(cmd, 0, 0, Entered)])
    case Allocate(h) =>
      g.(table := g.table.(counter := g.table.counter + 1),
         handlers := g.handlers[h := g.handlers[h].(id := g.table.counter, pc := Allocated)])
    case Insert(h) =>
      g.(table := Registered(g.table, g.handlers[h].id, h),
         handlers := g.handlers[h := g.handlers[h].(since := |g.fromServer|, pc := Inserted)])
    case SendOk(h) =>
      g.(toServer := g.toServer + [Append(g.handlers[h].id, g.handlers[h].cmd)], handlers := Moved(g, h, Waiting))
    case SendFails(h) => g.(handlers := Moved(g, h, CleaningUp(SenderUnavailable)))
    case Receive(h) => g.(handlers := Moved(g, h, Done(Success(g.table.slots[h].msg))))
    case SeesClosed(h) => g.(handlers := Moved(g, h, CleaningUp(ChannelClosed)))
    case TimesOut(h) => g.(handlers := Moved(g, h, CleaningUp(Timeout)))
    case CleansUp(h) =>
      g.(table := Removed(g.table, g.handlers[h].id), handlers := Moved(g, h, Done(Failure(g.handlers[h].pc.error))))
    case ReaderReads(m) =>
      var g1 := g.(fromServer := g.fromServer + [m]);
      if !m.StartSignal? && m.id in g.table.pending
      then g1.(table := g.table.(pending := g.table.pending - {m.id}), reader := Holding(g.table.pending[m.id], m))
      else g1
    case ReaderResolves =>
      g.(table := g.table.(slots := g.table.slots[g.reader.h := Full(g.reader.msg)]), reader := Reading)
    case ReaderEnds => g.(reader := Stopped)
    case ReaderClears => g.(table := AllCleared(g.table), reader := Cleared)
    case WriterTakes => g.(taken := g.taken + 1)
    case WriterStops => g.(writerAlive := false)
  }

  // ---------------------------------------------------------------- the invariant

  predicate HasId(x: Handler) {
    !x.pc.Entered?
  }

  predicate Registers(x: Handler) {
    x.pc.Inserted? || x.pc.Waiting? || x.pc.CleaningUp?
  }

  /** No two handlers share a command id, and every id was allocated. */
  predicate IdsOk(g: State) {
    && (forall h :: h in g.handlers && HasId(g.handlers[h]) ==> g.handlers[h].id < g.table.counter)
    && (forall h, h' :: h in g.handlers && h' in g.handlers && h != h' &&
                        HasId(g.handlers[h]) && HasId(g.handlers[h']) ==>
          g.handlers[h].id != g.handlers[h'].id)
  }

  /** A pending entry belongs to a registered, unfinished handler with that id, not yet replied to. */
  predicate PendingOk(g: State) {
    forall id :: id in g.table.pending ==> PendingEntryOk(g, id, g.table.pending[id])
  }

  predicate PendingEntryOk(g: State, id: CommandId, h: HandlerId) {
    && h in g.handlers && g.handlers[h].id == id && Registers(g.handlers[h])
    && g.handlers[h].since <= |g.fromServer| && FirstReply(g.fromServer, g.handlers[h].since, id) == None
  }

  /** Between taking a sender and using it, the reader holds the first reply to that sender's id. */
  predicate ReaderOk(g: State) {
    g.reader.Holding? ==> HoldingOk(g, g.reader.h, g.reader.msg)
  }

  predicate HoldingOk(g: State, h: HandlerId, msg: ServerMessage) {
    && h in g.handlers && HasId(g.handlers[h]) && !g.handlers[h].pc.Allocated?
    && g.handlers[h].id !in g.table.pending && g.handlers[h].since <= |g.fromServer|
    && FirstReply(g.fromServer, g.handlers[h].since, g.handlers[h].id) == Some(msg)
  }

  predicate SenderAlive(g: State, h: HandlerId)
    requires h in g.handlers
  {
    || (g.handlers[h].id in g.table.pending && g.table.pending[g.handlers[h].id] == h)
    || (g.reader.Holding? && g.reader.h == h)
  }

  /** While a handler waits, its channel agrees with what the reader has read for it: empty exactly while
      some sender for it lives, full with the first reply, closed only after the connection was lost. */
  predicate ChannelOk(g: State, h: HandlerId)
    requires h in g.handlers
  {
    var x := g.handlers[h];
    var first := FirstReply(g.fromServer, x.since, x.id);
    (x.pc.Inserted? || x.pc.Waiting?) ==>
      && h in g.table.slots && x.since <= |g.fromServer|
      && (g.table.slots[h] == Empty <==> SenderAlive(g, h))
      && (g.table.slots[h].Full? ==> first == Some(g.table.slots[h].msg))
      && (g.table.slots[h].Closed? ==> g.reader.Cleared? && first == None)
  }

  predicate OutcomeOk(g: State, h: HandlerId)
    requires h in g.handlers
  {
    var x := g.handlers[h];
    var first := FirstReply(g.fromServer, x.since, x.id);
    match x.pc
    case Done(Success(m)) => first == Some(m) && x.since <= |g.fromServer|
    case Done(Failure(SenderUnavailable)) => !g.writerAlive
    case CleaningUp(SenderUnavailable) => !g.writerAlive
    case Done(Failure(ChannelClosed)) => g.reader.Cleared? && first == None && x.since <= |g.fromServer|
    case CleaningUp(ChannelClosed) => g.reader.Cleared? && first == None && x.since <= |g.fromServer|
    case _ => true
  }

  /** The handler has put its request into the queue: it is past that point, and not because it could not. */
  predicate HasSent(x: Handler) {
    match x.pc
    case Waiting => true
    case CleaningUp(error) => error != SenderUnavailable
    case Done(outcome) => outcome != Failure(SenderUnavailable)
    case _ => false
  }

  predicate SentBy(handlers: map<HandlerId, Handler>, m: ClientMessage, h: HandlerId) {
    h in handlers && HasSent(handlers[h]) && m == Append(handlers[h].id, handlers[h].cmd)
  }

  ghost predicate HasSender(handlers: map<HandlerId, Handler>, m: ClientMessage) {
    exists h :: SentBy(handlers, m, h)
  }

  /** What was sent to the server is one request each of distinct handlers, and of each that got past sending. */
  ghost predicate SentOk(handlers: map<HandlerId, Handler>, toServer: seq<ClientMessage>) {
    && (forall i :: 0 <= i < |toServer| ==> HasSender(handlers, toServer[i]))
    && (forall i, j :: 0 <= i < j < |toServer| ==> toServer[i].id != toServer[j].id)
    && (forall h :: h in handlers && HasSent(handlers[h]) ==> Append(handlers[h].id, handlers[h].cmd) in toServer)
  }

  /** The queue to the writer never holds more than its capacity. */
  predicate QueueOk(g: State) {
    g.taken <= |g.toServer| <= g.taken + CAPACITY
  }

  ghost predicate Inv(g: State) {
    && QueueOk(g) && IdsOk(g) && PendingOk(g) && ReaderOk(g) && SentOk(g.handlers, g.toServer)
    && (forall h :: h in g.handlers ==> ChannelOk(g, h) && OutcomeOk(g, h))
  }
}
