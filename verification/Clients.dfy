/** The benchmark client (src/client/client.rs) and its request bookkeeping (src/client/data_collection.rs). */
module Clients {
  import opened KV

  datatype RequestData = RequestData(requestTime: Timestamp, write: bool, responseTime: Option<Timestamp>)

  datatype Data = Data(requests: seq<RequestData>, responseCount: nat)

  function WithRequest(d: Data, now: Timestamp, isWrite: bool): Data {
    d.(requests := d.requests + [RequestData(now, isWrite, None)])
  }

  function WithResponse(d: Data, id: CommandId, now: Timestamp): Data
    requires id < |d.requests|
  {
    Data(d.requests[id := d.requests[id].(responseTime := Some(now))], d.responseCount + 1)
  }

  /** Waiting for the start signal, sending requests, done, or stopped by a panic of the source: a first
      message that is no start signal, or a response id that indexes past the recorded requests. */
  datatype Phase = Waiting | Running | Finished | Panicked

  datatype ClientState = ClientState(phase: Phase, data: Data)

  function OnMessage(s: ClientState, m: ServerMessage, now: Timestamp): (r: ClientState)
    ensures r.phase == Panicked <==>
      || s.phase == Panicked || (s.phase == Waiting && !m.StartSignal?)
      || (s.phase == Running && !m.StartSignal? && m.id >= |s.data.requests|)
  {
    match s.phase
    case Waiting => if m.StartSignal? then s.(phase := Running) else s.(phase := Panicked)
    case Running =>
      if m.StartSignal? then s
      else if m.id < |s.data.requests| then s.(data := WithResponse(s.data, m.id, now))
      else s.(phase := Panicked)
    case _ => s
  }

  /** `usize::to_string`. */
  function Decimal(n: nat): string {
    if n < 10 then ["0123456789"[n]] else Decimal(n / 10) + ["0123456789"[n % 10]]
  }

  /** The request with this id: keys and values are the id itself. */
  function RequestNo(id: CommandId, isWrite: bool): ClientMessage {
    var key := Decimal(id);
    Append(id, if isWrite then Put(key, key) else Get(key))
  }

  // ---------------------------------------------------------------- numerals

  function DigitValue(c: char): nat {
    if '0' <= c <= '9' then c as int - '0' as int else 0
  }

  /** The number a string of digits stands for. */
  function Numeral(s: string): nat {
    if |s| == 0 then 0 else Numeral(s[..|s| - 1]) * 10 + DigitValue(s[|s| - 1])
  }

  /** One digit or more, without a leading zero. */
  predicate IsNumeral(s: string) {
    && |s| > 0 && (forall i :: 0 <= i < |s| ==> '0' <= s[i] <= '9')
    && (|s| > 1 ==> s[0] != '0')
  }

  lemma DigitsAreDigits(d: nat)
    requires d < 10
    ensures '0' <= "0123456789"[d] <= '9' && DigitValue("0123456789"[d]) == d
  {
  }

  /** The decimal form of a number is a numeral without leading zeros, and reads as that number. */
  lemma {:induction false} DecimalIsNumeral(n: nat)
    ensures IsNumeral(Decimal(n)) && Numeral(Decimal(n)) == n
    ensures n > 0 ==> Decimal(n)[0] != '0'
  {
    hide DigitValue;
    DigitsAreDigits(n % 10);
    if n < 10 {
      assert Decimal(n)[..0] == [];
    } else {
      DecimalIsNumeral(n / 10);
      assert Decimal(n)[..|Decimal(n)| - 1] == Decimal(n / 10);
    }
  }

  /** Different requests use different keys. */
  lemma KeysDiffer(m: CommandId, isWrite: bool, n: CommandId, isWrite': bool)
    ensures m != n ==> RequestNo(m, isWrite).kvCmd.key != RequestNo(n, isWrite').kvCmd.key
  {
    DecimalIsNumeral(m);
    DecimalIsNumeral(n);
  }

  /** Entry `id` gets its response time and nothing else changes. */
  predicate Answers(before: seq<RequestData>, after: seq<RequestData>, id: CommandId, now: Timestamp) {
    && id < |before| == |after|
    && after[id].responseTime == Some(now)
    && after[id].requestTime == before[id].requestTime && after[id].write == before[id].write
    && forall m :: 0 <= m < |before| && m != id ==> after[m] == before[m]
  }

  class ClientData {
    var requestData: seq<RequestData>
    var responseCount: nat

    ghost function View(): Data
      reads this
    {
      Data(requestData, responseCount)
    }

    constructor ()
      ensures View() == Data([], 0)
    {
      requestData, responseCount := [], 0;
    }

    method NewRequest(isWrite: bool, now: Timestamp)
      modifies this
      ensures View() == WithRequest(old(View()), now, isWrite)
      ensures requestData == old(requestData) + [RequestData(now, isWrite, None)] && responseCount == old(responseCount)
    {
      requestData := requestData + [RequestData(now, isWrite, None)];
    }

    /** The index must be in range, or the source panics. */
    method NewResponse(commandId: CommandId, now: Timestamp)
      requires commandId < |requestData|
      modifies this
      ensures View() == WithResponse(old(View()), commandId, now)
      ensures Answers(old(requestData), requestData, commandId, now) && responseCount == old(responseCount) + 1
    {
      requestData := requestData[commandId := requestData[commandId].(responseTime := Some(now))];
      responseCount := responseCount + 1;
    }
  }

  // ---------------------------------------------------------------- the event loop

  /** What wakes the loop: a message, the request timer with the coin it tosses, or the end of an interval. */
  datatype ClientEvent =
    | Message(msg: ServerMessage, now: Timestamp)
    | RequestTick(isWrite: bool, now: Timestamp)
    | IntervalTick

  function IntervalsOver(es: seq<ClientEvent>): nat {
    if |es| == 0 then 0 else IntervalsOver(es[..|es| - 1]) + (if es[|es| - 1].IntervalTick? then 1 else 0)
  }

  /** The kinds of the requests that fall due. */
  function Kinds(es: seq<ClientEvent>): seq<bool> {
    if |es| == 0 then []
    else Kinds(es[..|es| - 1]) + (if es[|es| - 1].RequestTick? then [es[|es| - 1].isWrite] else [])
  }

  /** What the events leave recorded. */
  function Recorded(es: seq<ClientEvent>): ClientState {
    if |es| == 0 then ClientState(Running, Data([], 0))
    else
      var before := Recorded(es[..|es| - 1]);
      match es[|es| - 1]
      case Message(m, now) => OnMessage(before, m, now)
      case RequestTick(isWrite, now) => before.(data := WithRequest(before.data, now, isWrite))
      case IntervalTick => before
  }

  /** Each reply answers a request that fell due before it. */
  predicate RepliesInRange(es: seq<ClientEvent>) {
    forall i :: 0 <= i < |es| && es[i].Message? && !es[i].msg.StartSignal? ==> es[i].msg.id < |Kinds(es[..i])|
  }

  lemma {:induction false} RecordedRequests(es: seq<ClientEvent>)
    requires RepliesInRange(es)
    ensures Recorded(es).phase == Running && |Recorded(es).data.requests| == |Kinds(es)|
  {
    if |es| > 0 {
      var init := es[..|es| - 1];
      assert forall i :: 0 <= i < |init| ==> init[..i] == es[..i];
      RecordedRequests(init);
    }
  }

  /** What event `i` adds. */
  lemma NextEvent(es: seq<ClientEvent>, i: nat)
    requires i < |es|
    ensures IntervalsOver(es[..i + 1]) == IntervalsOver(es[..i]) + (if es[i].IntervalTick? then 1 else 0)
    ensures Kinds(es[..i + 1]) == Kinds(es[..i]) + (if es[i].RequestTick? then [es[i].isWrite] else [])
    ensures var before := Recorded(es[..i]);
      Recorded(es[..i + 1]) ==
        match es[i]
        case Message(m, now) => OnMessage(before, m, now)
        case RequestTick(isWrite, now) => before.(data := WithRequest(before.data, now, isWrite))
        case IntervalTick => before
  {
    hide OnMessage, WithRequest;
    assert es[..i + 1][..i] == es[..i];
  }

  lemma RepliesInRangeSoFar(es: seq<ClientEvent>, i: nat)
    requires RepliesInRange(es) && i < |es|
    ensures |Recorded(es[..i]).data.requests| == |Kinds(es[..i])|
    ensures es[i].Message? && !es[i].msg.StartSignal? ==> es[i].msg.id < |Kinds(es[..i])|
  {
    hide Recorded, Kinds;
    assert forall j :: 0 <= j < i ==> es[..i][j] == es[j] && es[..i][..j] == es[..j];
    RecordedRequests(es[..i]);
  }

  /** The requests sent: numbered from 0, of the kinds that fell due. */
  function Requests(kinds: seq<bool>): seq<ClientMessage> {
    seq(|kinds|, i requires 0 <= i < |kinds| => RequestNo(i, kinds[i]))
  }

  lemma OneMoreRequest(kinds: seq<bool>, isWrite: bool)
    ensures Requests(kinds + [isWrite]) == Requests(kinds) + [RequestNo(|kinds|, isWrite)]
  {
  }

  lemma NoEvents(es: seq<ClientEvent>)
    ensures IntervalsOver(es[..0]) == 0 && Kinds(es[..0]) == []
    ensures Recorded(es[..0]) == ClientState(Running, Data([], 0))
  {
  }

  class Client {
    const clientData: ClientData
    var finalRequestCount: Option<nat>
    var nextRequestId: nat

    /** The next id is the number of requests recorded, and a final count once set is one of the past. */
    ghost predicate Valid()
      reads this, clientData
    {
      && nextRequestId == |clientData.requestData|
      && (finalRequestCount.Some? ==> finalRequestCount.value <= |clientData.requestData|)
    }

    constructor ()
      ensures Valid() && nextRequestId == 0 && finalRequestCount == None && fresh(clientData)
    {
      clientData := new ClientData();
      finalRequestCount, nextRequestId := None, 0;
    }

    method SendRequest(isWrite: bool, now: Timestamp) returns (request: ClientMessage)
      requires Valid()
      modifies this`nextRequestId, clientData
      ensures Valid() && clientData.View() == WithRequest(old(clientData.View()), now, isWrite)
      ensures request == RequestNo(|old(clientData.requestData)|, isWrite)
      ensures request.id == |old(clientData.requestData)|
      ensures IsNumeral(request.kvCmd.key) && Numeral(request.kvCmd.key) == request.id
      ensures request.kvCmd == if isWrite then Put(request.kvCmd.key, request.kvCmd.key) else Get(request.kvCmd.key)
      ensures clientData.requestData == old(clientData.requestData) + [RequestData(now, isWrite, None)]
    {
      DecimalIsNumeral(nextRequestId);
      var key := Decimal(nextRequestId);
      var cmd := if isWrite then Put(key, key) else Get(key);
      request := Append(nextRequestId, cmd);
      clientData.NewRequest(isWrite, now);
      nextRequestId := nextRequestId + 1;
    }

    method HandleServerMessage(msg: ServerMessage, now: Timestamp)
      requires Valid() && (!msg.StartSignal? ==> msg.id < |clientData.requestData|)
      modifies clientData
      ensures Valid()
      ensures ClientState(Running, clientData.View()) ==
        OnMessage(ClientState(Running, old(clientData.View())), msg, now)
      ensures msg.StartSignal? ==> clientData.View() == old(clientData.View())
      ensures !msg.StartSignal? ==>
        Answers(old(clientData.requestData), clientData.requestData, msg.id, now)
        && clientData.responseCount == old(clientData.responseCount) + 1
    {
      if !msg.StartSignal? {
        clientData.NewResponse(msg.id, now);
      }
    }

    /** Since requests are only ever added, the comparison of counts comes to nothing: the run is finished
        exactly once the final count is set, whatever has been answered. */
    method RunFinished() returns (finished: bool)
      requires Valid()
      ensures finished <==> finalRequestCount.Some?
    {
      finished := finalRequestCount.Some? && |clientData.requestData| >= finalRequestCount.value;
    }

    /** The branch taken when the last interval ends: the run is over at once, whatever is still unanswered. */
    method LastIntervalEnds() returns (finished: bool)
      requires Valid()
      modifies this`finalRequestCount
      ensures Valid() && finished && finalRequestCount == Some(|clientData.requestData|)
    {
      finalRequestCount := Some(|clientData.requestData|);
      finished := RunFinished();
    }

    /** `run`, on a new client: nothing is sent unless the first message is a start signal and there is an interval
        at all. Then one request is sent at each request tick, numbered from 0, until as many intervals are over as
        configured; at that moment the run is over. All that happened until then is recorded, nothing after it. */
    method Run(first: ServerMessage, intervals: nat, events: seq<ClientEvent>)
      returns (started: bool, sent: seq<ClientMessage>, used: nat, over: bool)
      requires Valid() && clientData.View() == Data([], 0) && finalRequestCount == None && RepliesInRange(events)
      modifies this`nextRequestId, this`finalRequestCount, clientData
      ensures started <==> first.StartSignal?
      ensures !started || intervals == 0 ==> sent == [] && used == 0 && clientData.View() == Data([], 0)
      ensures used <= |events| && sent == Requests(Kinds(events[..used]))
      ensures Valid() && ClientState(Running, clientData.View()) == Recorded(events[..used])
      ensures started && intervals > 0 ==>
        (over <==> IntervalsOver(events[..used]) == intervals) && IntervalsOver(events[..used]) <= intervals
      ensures started && intervals > 0 && over ==> used > 0 && events[used - 1].IntervalTick?
      ensures started && intervals > 0 && !over ==> used == |events|
    {
      started, sent, used, over := first.StartSignal?, [], 0, false;
      assert Requests([]) == [];
      hide OnMessage, WithRequest, WithResponse, Answers, Recorded, Kinds, IntervalsOver, RepliesInRange, RequestNo;
      hide Requests, IsNumeral, Numeral;
      NoEvents(events);
      if !started || intervals == 0 {
        over := true;
        return;
      }
      var left: nat := intervals - 1;
      while used < |events|
        invariant used <= |events| && Valid() && finalRequestCount == None && !over
        invariant sent == Requests(Kinds(events[..used])) && nextRequestId == |sent|
        invariant ClientState(Running, clientData.View()) == Recorded(events[..used])
        invariant IntervalsOver(events[..used]) + left + 1 == intervals
      {
        NextEvent(events, used);
        RepliesInRangeSoFar(events, used);
        match events[used] {
          case Message(msg, now) =>
            HandleServerMessage(msg, now);
            over := RunFinished();
          case RequestTick(isWrite, now) =>
            ghost var kinds := Kinds(events[..used]);
            var request := SendRequest(isWrite, now);
            OneMoreRequest(kinds, isWrite);
            sent := sent + [request];
          case IntervalTick =>
            if left > 0 {
              left := left - 1;
            } else {
              over := LastIntervalEnds();
            }
        }
        used := used + 1;
        if over {
          return;
        }
      }
    }
  }
}
