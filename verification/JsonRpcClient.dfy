/**
 * The JSON-RPC 2.0 client over stdio: calls wait in a pending table on which
 * responses, timeouts and the close of the stream all race, and every call is
 * settled at most once. Message shapes follow sections 4 and 5 of the JSON-RPC
 * 2.0 Specification.
 */
module JsonRpcClient {
  import opened Wrappers
  import opened JsonRpcFraming

  // ---------- what a line says ----------

  /** The `id` member. Absent and null are the same to this client, but not to the
      specification, which has no ids that are neither number nor string nor null. */
  datatype Id = AbsentId | NullId | Number(value: real) | TextId | OtherId

  /** The `error` member, as far as its presence and truthiness matter. */
  datatype ErrorField = NoError | FalsyError | TruthyError

  /** `methodName` is the `method` member when that is a string. */
  datatype Message = Message(id: Id, methodName: Option<string>, hasResult: bool, error: ErrorField)

  datatype Decoded = Blank | Unparseable | NotAnObject | Parsed(msg: Message)

  datatype Kind = Response | Request | Notification | Invalid

  function ClassifyInbound(msg: Message): Kind {
    var hasId := !msg.id.AbsentId? && !msg.id.NullId?;
    var hasMethod := msg.methodName.Some? && msg.methodName.value != "";
    if hasId && hasMethod then Request
    else if hasId && (msg.hasResult || !msg.error.NoError?) then Response
    else if !hasId && hasMethod then Notification
    else Invalid
  }

  /** The three kinds of message as sections 4, 4.1 and 5 of the specification have
      them. A request names a method and has an id, which may be null; a notification
      names one and has none. A response has an id, null among others when that of the
      request could not be read, and either a result or an error object. */
  predicate Conforms(msg: Message, kind: Kind) {
    var identified := msg.id.NullId? || msg.id.Number? || msg.id.TextId?;
    match kind
    case Request => msg.methodName.Some? && identified && !msg.hasResult && msg.error.NoError?
    case Notification => msg.methodName.Some? && msg.id.AbsentId? && !msg.hasResult && msg.error.NoError?
    case Response => msg.methodName.None? && identified
                     && (if msg.hasResult then msg.error.NoError? else msg.error.TruthyError?)
    case Invalid => false
  }

  /** A conforming message is of one kind, and is taken for it if and only if its id is
      not null and it does not name the empty method. Otherwise a request with a null
      id is taken for a notification, and everything else is dropped as invalid. */
  lemma ConformingMessagesAreRecognised(msg: Message, kind: Kind)
    requires Conforms(msg, kind)
    ensures forall other :: Conforms(msg, other) ==> other == kind
    ensures ClassifyInbound(msg) == kind <==> !msg.id.NullId? && msg.methodName != Some("")
    ensures ClassifyInbound(msg) != kind ==>
              ClassifyInbound(msg) == if kind.Request? && msg.methodName != Some("") then Notification else Invalid
  {}

  // ---------- the calls ----------

  datatype Outcome = Resolved | RpcError | TimedOut | Closed

  datatype Settlement = Settlement(id: nat, outcome: Outcome)

  /** What a line was handed to, besides the calls. */
  datatype Handed = OnRequest(msg: Message) | OnNotify(msg: Message) | OnInvalid

  /** `pending` says of each waiting call whether it has a timeout. */
  datatype Calls = Calls(nextId: nat, pending: map<nat, bool>, settled: seq<Settlement>, handed: seq<Handed>)

  const INITIAL := Calls(1, map[], [], [])

  function Settle(c: Calls, id: nat, outcome: Outcome): Calls {
    c.(pending := c.pending - {id}, settled := c.settled + [Settlement(id, outcome)])
  }

  function Hand(c: Calls, h: Handed): Calls {
    c.(handed := c.handed + [h])
  }

  function Issue(c: Calls, timeoutMs: int): Calls {
    c.(nextId := c.nextId + 1, pending := c.pending[c.nextId := timeoutMs > 0])
  }

  /** The pending call that a numeric id names, if it names one. */
  function PendingFor(c: Calls, value: real): Option<nat> {
    if value >= 0.0 && value.Floor as real == value && value.Floor as nat in c.pending
    then Some(value.Floor as nat) else None
  }

  function ConsumeLine(c: Calls, d: Decoded): Calls {
    match d
    case Blank => c
    case Unparseable => Hand(c, OnInvalid)
    case NotAnObject => Hand(c, OnInvalid)
    case Parsed(msg) =>
      match ClassifyInbound(msg)
      case Invalid => Hand(c, OnInvalid)
      case Request => Hand(c, OnRequest(msg))
      case Notification => Hand(c, OnNotify(msg))
      case Response =>
        if !msg.id.Number? then Hand(c, OnInvalid)
        else
          match PendingFor(c, msg.id.value)
          case None => Hand(c, OnInvalid)
          case Some(id) => Settle(c, id, if msg.error.TruthyError? then RpcError else Resolved)
  }

  /** The timer of a call without a timeout never existed; one whose call is gone
      finds nothing to delete. */
  function FireTimeout(c: Calls, id: nat): Calls {
    if id in c.pending && c.pending[id] then Settle(c, id, TimedOut) else c
  }

  /** The settlements of a close, in the order in which the calls were issued. */
  function ClosedFrom(pending: map<nat, bool>, below: nat): seq<Settlement> {
    if below == 0 then []
    else ClosedFrom(pending, below - 1) + (if below - 1 in pending then [Settlement(below - 1, Closed)] else [])
  }

  function RejectAll(c: Calls): Calls {
    c.(pending := map[], settled := c.settled + ClosedFrom(c.pending, c.nextId))
  }

  datatype Event = Call(timeoutMs: int) | Line(d: Decoded) | Timeout(id: nat) | Close

  function Step(c: Calls, e: Event): Calls {
    match e
    case Call(timeoutMs) => Issue(c, timeoutMs)
    case Line(d) => ConsumeLine(c, d)
    case Timeout(id) => FireTimeout(c, id)
    case Close => RejectAll(c)
  }

  function Run(trace: seq<Event>): Calls {
    if trace == [] then INITIAL else Step(Run(trace[..|trace| - 1]), trace[|trace| - 1])
  }

  // ---------- settled at most once ----------

  /** How often a call has been settled. */
  function Times(settled: seq<Settlement>, id: nat): nat {
    if settled == [] then 0
    else Times(settled[..|settled| - 1], id) + (if settled[|settled| - 1].id == id then 1 else 0)
  }

  predicate Issued(c: Calls, id: nat) { 1 <= id < c.nextId }

  ghost predicate Consistent(c: Calls) {
    && c.nextId >= 1
    && (forall id | id in c.pending :: Issued(c, id))
    && (forall id: nat :: Times(c.settled, id) == if Issued(c, id) && id !in c.pending then 1 else 0)
  }

  lemma TimesSnoc(settled: seq<Settlement>, x: Settlement, id: nat)
    ensures Times(settled + [x], id) == Times(settled, id) + (if x.id == id then 1 else 0)
  {
    assert (settled + [x])[..|settled|] == settled;
  }

  lemma {:induction false} TimesClosed(settled: seq<Settlement>, pending: map<nat, bool>, below: nat, id: nat)
    ensures Times(settled + ClosedFrom(pending, below), id)
         == Times(settled, id) + (if id < below && id in pending then 1 else 0)
  {
    if below == 0 {
      assert settled + [] == settled;
    } else {
      TimesClosed(settled, pending, below - 1, id);
      if below - 1 in pending {
        var x := Settlement(below - 1, Closed);
        TimesSnoc(settled + ClosedFrom(pending, below - 1), x, id);
        assert settled + ClosedFrom(pending, below) == settled + ClosedFrom(pending, below - 1) + [x];
      } else {
        assert ClosedFrom(pending, below) == ClosedFrom(pending, below - 1);
      }
    }
  }

  lemma SettleKeepsConsistent(c: Calls, id: nat, outcome: Outcome)
    requires Consistent(c) && id in c.pending
    ensures Consistent(Settle(c, id, outcome))
  {
    forall i: nat
      ensures Times(Settle(c, id, outcome).settled, i) == Times(c.settled, i) + (if i == id then 1 else 0)
    {
      TimesSnoc(c.settled, Settlement(id, outcome), i);
    }
  }

  lemma StepKeepsConsistent(c: Calls, e: Event)
    requires Consistent(c)
    ensures Consistent(Step(c, e))
    ensures c.settled <= Step(c, e).settled
  {
    match e
    case Call(_) =>
    case Line(d) =>
      if d.Parsed? && ClassifyInbound(d.msg).Response? && d.msg.id.Number? && PendingFor(c, d.msg.id.value).Some? {
        SettleKeepsConsistent(c, PendingFor(c, d.msg.id.value).value, if d.msg.error.TruthyError? then RpcError else Resolved);
      }
    case Timeout(id) =>
      if id in c.pending { SettleKeepsConsistent(c, id, TimedOut); }
    case Close =>
      forall id: nat
        ensures Times(RejectAll(c).settled, id)
             == Times(c.settled, id) + (if id < c.nextId && id in c.pending then 1 else 0)
      {
        TimesClosed(c.settled, c.pending, c.nextId, id);
      }
  }

  /** In every interleaving of calls, lines, timeouts and closes, every issued call
      is either pending or settled, never both, and settled at most once. */
  lemma {:induction false} CallsSettleOnce(trace: seq<Event>)
    ensures Consistent(Run(trace))
  {
    if trace != [] {
      CallsSettleOnce(trace[..|trace| - 1]);
      StepKeepsConsistent(Run(trace[..|trace| - 1]), trace[|trace| - 1]);
    }
  }

  /** A settlement is never taken back or changed. */
  lemma {:induction false} SettlementsStay(past: seq<Event>, future: seq<Event>)
    ensures Run(past).settled <= Run(past + future).settled
  {
    if future == [] {
      assert past + future == past;
    } else {
      var before, e := future[..|future| - 1], future[|future| - 1];
      SettlementsStay(past, before);
      assert past + future == (past + before) + [e];
      assert ((past + before) + [e])[..|past + before|] == past + before;
      CallsSettleOnce(past + before);
      StepKeepsConsistent(Run(past + before), e);
    }
  }

  /** After a close no call issued before it is pending: each has been settled, and
      stays settled exactly once whatever follows. */
  lemma CloseSettlesEverything(past: seq<Event>, future: seq<Event>, id: nat)
    requires Issued(Run(past), id)
    ensures var c := Run(past + [Close] + future);
            id !in c.pending && Times(c.settled, id) == 1
  {
    var closed := past + [Close];
    assert closed[..|past|] == past;
    assert Run(closed).pending == map[];
    CallsSettleOnce(closed + future);
    StillSettled(closed, future, id);
  }

  lemma {:induction false} StillSettled(closed: seq<Event>, future: seq<Event>, id: nat)
    requires Issued(Run(closed), id) && id !in Run(closed).pending
    ensures Issued(Run(closed + future), id) && id !in Run(closed + future).pending
  {
    if future == [] {
      assert closed + future == closed;
    } else {
      var before, e := future[..|future| - 1], future[|future| - 1];
      StillSettled(closed, before, id);
      assert closed + future == (closed + before) + [e];
      assert ((closed + before) + [e])[..|closed + before|] == closed + before;
    }
  }

  /** Which lines settle a call: those with a result or an error and without a method,
      whose numeric id names a pending call.
      Such a line settles that call and no other, as an error exactly when its
      error member is truthy; every other line changes no call. */
  lemma OnlyMatchingResponsesSettle(c: Calls, d: Decoded)
    requires Consistent(c)
    ensures var r := ConsumeLine(c, d);
            var matching := d.Parsed? && (d.msg.methodName == None || d.msg.methodName == Some(""))
                            && (d.msg.hasResult || !d.msg.error.NoError?) && d.msg.id.Number?
                            && exists id | id in c.pending :: id as real == d.msg.id.value;
            && (!matching ==> r.pending == c.pending && r.settled == c.settled)
            && (matching ==> exists id :: id in c.pending && id as real == d.msg.id.value
                               && r.pending == c.pending - {id} && r.handed == c.handed
                               && r.settled == c.settled + [Settlement(id, if d.msg.error.TruthyError? then RpcError else Resolved)])
  {
    if d.Parsed? && ClassifyInbound(d.msg).Response? && d.msg.id.Number? {
      if id :| id in c.pending && id as real == d.msg.id.value {
        assert d.msg.id.value.Floor == id;
        assert PendingFor(c, d.msg.id.value) == Some(id);
      }
    }
  }

  /** A response whose error is null resolves its call, although it has no result. */
  lemma NullErrorResolves()
    ensures Run([Call(0), Line(Parsed(Message(Number(1.0), None, false, FalsyError)))]).settled == [Settlement(1, Resolved)]
  {
    var call, line := Call(0), Line(Parsed(Message(Number(1.0), None, false, FalsyError)));
    assert [call][..0] == [] && [call, line][..1] == [call];
    var c := Run([call]);
    assert Run([]) == INITIAL && c == Issue(INITIAL, 0);
    assert PendingFor(c, 1.0) == Some(1);
  }

  // ---------- timeouts, closes and what is handed on ----------

  /** How many calls were made. */
  function CallsIn(trace: seq<Event>): nat {
    if trace == [] then 0
    else CallsIn(trace[..|trace| - 1]) + if trace[|trace| - 1].Call? then 1 else 0
  }

  /** The timeout that call number `id` was made with. */
  function TimeoutOf(trace: seq<Event>, id: nat): Option<int> {
    if trace == [] then None
    else
      var before, e := trace[..|trace| - 1], trace[|trace| - 1];
      if e.Call? && id == CallsIn(before) + 1 then Some(e.timeoutMs) else TimeoutOf(before, id)
  }

  /** Calls are numbered from 1 in the order in which they are made, and those that wait
      keep whether they were made with a timeout. */
  ghost predicate Numbered(c: Calls, trace: seq<Event>) {
    && c.nextId == CallsIn(trace) + 1
    && forall id | id in c.pending ::
         id <= CallsIn(trace) && TimeoutOf(trace, id).Some? && (c.pending[id] <==> TimeoutOf(trace, id).value > 0)
  }

  lemma RunSnoc(trace: seq<Event>, e: Event)
    ensures Run(trace + [e]) == Step(Run(trace), e)
  {
    assert (trace + [e])[..|trace|] == trace;
  }

  lemma OnlyCallsAdd(c: Calls, e: Event)
    requires !e.Call?
    ensures Step(c, e).nextId == c.nextId
    ensures forall id | id in Step(c, e).pending :: id in c.pending && Step(c, e).pending[id] == c.pending[id]
  {}

  lemma {:induction false} CallsAreNumbered(trace: seq<Event>)
    ensures Numbered(Run(trace), trace)
  {
    if trace != [] {
      var before, e := trace[..|trace| - 1], trace[|trace| - 1];
      CallsAreNumbered(before);
      if !e.Call? {
        OnlyCallsAdd(Run(before), e);
        hide Step;
      }
    }
  }

  /** A call gets the next number, and waits. */
  lemma CallsWait(trace: seq<Event>, timeoutMs: int)
    ensures var c, r := Run(trace), Run(trace + [Call(timeoutMs)]);
            var id := CallsIn(trace) + 1;
            && id !in c.pending && id in r.pending && r.pending.Keys == c.pending.Keys + {id} && r.settled == c.settled
  {
    CallsAreNumbered(trace);
    RunSnoc(trace, Call(timeoutMs));
  }

  /** The timer of a call settles it, as timed out, when the call was made with a
      positive timeout and still waits. Otherwise it changes nothing. */
  lemma TimeoutsSettleExactly(trace: seq<Event>, id: nat)
    ensures var c, r := Run(trace), Run(trace + [Timeout(id)]);
            if id in c.pending && TimeoutOf(trace, id).Some? && TimeoutOf(trace, id).value > 0
            then id !in r.pending && r == c.(pending := c.pending - {id}, settled := c.settled + [Settlement(id, TimedOut)])
            else r == c
  {
    CallsAreNumbered(trace);
    RunSnoc(trace, Timeout(id));
  }

  lemma {:induction false} ClosedInOrder(pending: map<nat, bool>, below: nat)
    ensures var tail := ClosedFrom(pending, below);
            && (forall s | s in tail :: s.outcome == Closed && s.id in pending && s.id < below)
            && (forall j, k :: 0 <= j < k < |tail| ==> tail[j].id < tail[k].id)
            && (forall id: nat | id in pending && id < below :: Settlement(id, Closed) in tail)
  {
    if below > 0 {
      ClosedInOrder(pending, below - 1);
      var rest, tail := ClosedFrom(pending, below - 1), ClosedFrom(pending, below);
      if below - 1 in pending {
        assert tail == rest + [Settlement(below - 1, Closed)];
      } else {
        assert tail == rest;
      }
    }
  }

  /** A close settles exactly the calls that wait, each as closed, in the order in which
      they were made. */
  lemma ClosesRejectAll(trace: seq<Event>) returns (tail: seq<Settlement>)
    ensures var c, r := Run(trace), Run(trace + [Close]);
            && r.pending == map[] && r.settled == c.settled + tail
            && (forall s | s in tail :: s.outcome == Closed && s.id in c.pending)
            && (forall j, k :: 0 <= j < k < |tail| ==> tail[j].id < tail[k].id)
            && (forall id | id in c.pending :: Settlement(id, Closed) in tail)
  {
    RunSnoc(trace, Close);
    CallsAreNumbered(trace);
    var c := Run(trace);
    tail := ClosedFrom(c.pending, c.nextId);
    ClosedInOrder(c.pending, c.nextId);
  }

  /** Lines that settle no call go where they belong: a message with an id and a method
      to the request handler, one with a method alone to the notification handler, a
      blank line nowhere, and all else is reported. */
  lemma LinesAreHandedOn(c: Calls, d: Decoded)
    ensures d.Blank? ==> ConsumeLine(c, d) == c
    ensures d.Unparseable? || d.NotAnObject? ==> ConsumeLine(c, d) == c.(handed := c.handed + [OnInvalid])
    ensures d.Parsed? ==>
              var identified := d.msg.id.Number? || d.msg.id.TextId? || d.msg.id.OtherId?;
              var named := d.msg.methodName.Some? && d.msg.methodName.value != "";
              var answers := d.msg.hasResult || !d.msg.error.NoError?;
              && (identified && named ==> ConsumeLine(c, d) == c.(handed := c.handed + [OnRequest(d.msg)]))
              && (!identified && named ==> ConsumeLine(c, d) == c.(handed := c.handed + [OnNotify(d.msg)]))
              && (!named && !(identified && answers) ==> ConsumeLine(c, d) == c.(handed := c.handed + [OnInvalid]))
              && (!named && d.msg.id.Number? && answers && (forall id | id in c.pending :: id as real != d.msg.id.value)
                  ==> ConsumeLine(c, d) == c.(handed := c.handed + [OnInvalid]))
              && (!named && (d.msg.id.TextId? || d.msg.id.OtherId?) ==>
                    ConsumeLine(c, d) == c.(handed := c.handed + [OnInvalid]))
  {}

  /** The error response that section 5 asks for when a request could not be read
      settles nothing and is reported as invalid; a request with a null id reaches the
      notification handler and is never answered. */
  lemma NullIdsAreNotRecognised(name: string)
    requires name != ""
    ensures var failure := Message(NullId, None, false, TruthyError);
            var request := Message(NullId, Some(name), false, NoError);
            var c := Run([Call(0), Line(Parsed(failure)), Line(Parsed(request))]);
            && Conforms(failure, Response) && Conforms(request, Request)
            && c.handed == [OnInvalid, OnNotify(request)] && c.settled == [] && 1 in c.pending
  {
    var failure, request := Message(NullId, None, false, TruthyError), Message(NullId, Some(name), false, NoError);
    var call, first, second := Call(0), Line(Parsed(failure)), Line(Parsed(request));
    assert [call][..0] == [] && [call, first][..1] == [call] && [call, first, second][..2] == [call, first];
    assert Run([]) == INITIAL && Run([call]) == Issue(INITIAL, 0);
    assert Run([call, first]).handed == [OnInvalid];
  }

  // ---------- the client as an object ----------

  function ConsumeLines(c: Calls, decode: string -> Decoded, lines: seq<string>): Calls {
    if lines == [] then c
    else ConsumeLine(ConsumeLines(c, decode, lines[..|lines| - 1]), decode(lines[|lines| - 1]))
  }

  lemma {:induction false} ConsumeLinesJoin(c: Calls, decode: string -> Decoded, a: seq<string>, b: seq<string>)
    ensures ConsumeLines(c, decode, a + b) == ConsumeLines(ConsumeLines(c, decode, a), decode, b)
  {
    if b == [] {
      assert a + b == a;
    } else {
      ConsumeLinesJoin(c, decode, a, b[..|b| - 1]);
      assert (a + b)[..|a + b| - 1] == a + b[..|b| - 1];
    }
  }

  /** Feeding two chunks does to the calls what feeding them as one does. */
  lemma SplitFeedSettlesTheSame(c: Calls, decode: string -> Decoded, buffer: string, a: string, b: string)
    ensures ConsumeLines(ConsumeLines(c, decode, Lines(buffer + a)), decode, Lines(Tail(buffer + a) + b))
         == ConsumeLines(c, decode, Lines(buffer + (a + b)))
    ensures Tail(Tail(buffer + a) + b) == Tail(buffer + (a + b))
  {
    assert buffer + (a + b) == (buffer + a) + b;
    SplitFeedIsWholeFeed(buffer + a, b);
    ConsumeLinesJoin(c, decode, Lines(buffer + a), Lines(Tail(buffer + a) + b));
  }

  class Client {
    /** Trimming and parsing a line, which this model does not look into. */
    const decode: string -> Decoded
    var buffer: string
    var nextId: nat
    var pending: map<nat, bool>
    /** What the promises and the handlers have seen. */
    ghost var settled: seq<Settlement>
    ghost var handed: seq<Handed>

    ghost function View(): Calls
      reads this
    {
      Calls(nextId, pending, settled, handed)
    }

    ghost predicate Valid()
      reads this
    {
      Consistent(View()) && Unbroken(buffer)
    }

    constructor (decode: string -> Decoded)
      ensures Valid() && View() == INITIAL && buffer == "" && this.decode == decode
    {
      this.decode := decode;
      buffer, nextId, pending, settled, handed := "", 1, map[], [], [];
    }

    method Feed(chunk: string)
      requires Valid()
      modifies this
      ensures Valid()
      ensures buffer == Tail(old(buffer) + chunk)
      ensures View() == ConsumeLines(old(View()), decode, Lines(old(buffer) + chunk))
    {
      hide Lines, Tail, Consistent, ConsumeLine, IndexOfNewline;
      buffer := buffer + chunk;
      ghost var text := buffer;
      ghost var done: seq<string> := [];
      while true
        invariant Consistent(View())
        invariant Lines(text) == done + Lines(buffer) && Tail(text) == Tail(buffer)
        invariant View() == ConsumeLines(old(View()), decode, done)
        decreases |buffer|
      {
        var idx := IndexOfNewline(buffer);
        if idx == |buffer| { break; }
        var line := buffer[..idx];
        ghost var rest := Lines(buffer[idx + 1..]);
        FirstLineTaken(buffer, idx);
        assert done + ([line] + rest) == (done + [line]) + rest;
        buffer := buffer[idx + 1..];
        Consume(line);
        assert (done + [line])[..|done|] == done;
        done := done + [line];
      }
      UnbrokenStays(buffer);
      assert done + [] == done;
    }

    method Consume(line: string)
      requires Consistent(View())
      modifies this`pending, this`settled, this`handed
      ensures Consistent(View())
      ensures View() == ConsumeLine(old(View()), decode(line))
    {
      ghost var before := View();
      StepKeepsConsistent(before, Line(decode(line)));
      hide Consistent;
      match decode(line)
      case Blank =>
      case Unparseable => handed := handed + [OnInvalid];
      case NotAnObject => handed := handed + [OnInvalid];
      case Parsed(msg) =>
        match ClassifyInbound(msg)
        case Invalid => handed := handed + [OnInvalid];
        case Request => handed := handed + [OnRequest(msg)];
        case Notification => handed := handed + [OnNotify(msg)];
        case Response =>
          if !msg.id.Number? {
            handed := handed + [OnInvalid];
          } else {
            var v := msg.id.value;
            if v < 0.0 || v.Floor as real != v || v.Floor as nat !in pending {
              handed := handed + [OnInvalid];
            } else {
              var id := v.Floor as nat;
              pending := pending - {id};
              settled := settled + [Settlement(id, if msg.error.TruthyError? then RpcError else Resolved)];
            }
          }
    }

    method IssueCall(timeoutMs: int) returns (id: nat)
      requires Valid()
      modifies this`nextId, this`pending
      ensures Valid()
      ensures id == old(nextId) && View() == Issue(old(View()), timeoutMs)
    {
      StepKeepsConsistent(View(), Call(timeoutMs));
      id := nextId;
      nextId := nextId + 1;
      pending := pending[id := timeoutMs > 0];
    }

    /** The callback of the timer armed for `id`. */
    method OnTimer(id: nat)
      requires Valid()
      modifies this`pending, this`settled
      ensures Valid()
      ensures View() == FireTimeout(old(View()), id)
    {
      StepKeepsConsistent(View(), Timeout(id));
      if id in pending && pending[id] {
        pending := pending - {id};
        settled := settled + [Settlement(id, TimedOut)];
      }
    }

    method RejectAllPending()
      requires Valid()
      modifies this`pending, this`settled
      ensures Valid()
      ensures View() == RejectAll(old(View())) && pending == map[]
    {
      StepKeepsConsistent(View(), Close);
      for id := 0 to nextId
        invariant settled == old(settled) + ClosedFrom(pending, id)
        invariant pending == old(pending)
      {
        if id in pending {
          settled := settled + [Settlement(id, Closed)];
        }
      }
      pending := map[];
    }
  }
}
