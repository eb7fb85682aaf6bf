/**
 * A model of the RPC call buffering manager Neo.manager.RpcCall.
 *
 * The manager keeps three pieces of state: a counter `messageId` that gives
 * every registered call its id, a registry `items` of pending call records,
 * and `endPointTimeouts`, the list of endpoint URLs for which a buffer timer
 * has been armed. The timers themselves are recorded in `timers`, the log of
 * the scheduler calls the manager has made, in the order it made them.
 *
 * The pure part (ManagerState, Receive, Run) describes the manager on values;
 * the class RpcCall holds the same state in fields and its methods are proved
 * to follow the pure description.
 */
module RpcCallManager {

  /** The payload of a call, passed through untouched. */
  type Params = string

  /** A call request as handed to onMessage. */
  datatype Message = Message(service: string, methodName: string, params: Params)

  /** One pending call record in the registry. */
  datatype Call = Call(
    id: nat,
    service: string,
    methodName: string,
    params: Params,
    transactionId: nat,
    url: string)

  /** One armed buffer timer: the URL it will report and its delay in milliseconds. */
  datatype Timer = Timer(url: string, delay: nat)

  /**
   * What became of the promise onMessage returns: it stays pending forever
   * for a registered call (the manager never settles it), and it is rejected
   * when the route lookup fails before anything is registered.
   */
  datatype Outcome = Pending(id: nat) | Rejected

  /** The manager's whole state, as values. */
  datatype ManagerState = ManagerState(
    endPointTimeouts: seq<string>,
    messageId: nat,
    requestBuffer: nat,
    transactionId: nat,
    items: seq<Call>,
    timers: seq<Timer>)

  /** The new state after one onMessage, and the outcome of its promise. */
  datatype Step = Step(next: ManagerState, outcome: Outcome)

  /** The routing table maps a route key to the endpoint URL of that route. */
  type Routes = map<string, string>

  /** The key under which the routing table is asked for `service.method`. */
  function RouteKey(service: string, methodName: string): string
  {
    service + "." + methodName
  }

  predicate Routable(routes: Routes, msg: Message)
  {
    RouteKey(msg.service, msg.methodName) in routes
  }

  function UrlOf(routes: Routes, msg: Message): string
    requires Routable(routes, msg)
  {
    routes[RouteKey(msg.service, msg.methodName)]
  }

  /** The record onMessage registers for `msg` under the id `id`. */
  function RecordFor(id: nat, routes: Routes, msg: Message): Call
    requires Routable(routes, msg)
  {
    Call(id, msg.service, msg.methodName, msg.params, 0, UrlOf(routes, msg))
  }

  predicate NoDuplicates(s: seq<string>)
  {
    forall i, j :: 0 <= i < j < |s| ==> s[i] != s[j]
  }

  /** The registry is sorted strictly ascending by id (the manager's sorter). */
  predicate IdsAscending(items: seq<Call>)
  {
    forall i, j :: 0 <= i < j < |items| ==> items[i].id < items[j].id
  }

  /** The invariant every state the manager reaches keeps. */
  predicate Inv(s: ManagerState)
  {
    && s.messageId >= 1
    && IdsAscending(s.items)
    && (forall i :: 0 <= i < |s.items| ==> s.items[i].id < s.messageId)
    && (forall i :: 0 <= i < |s.items| ==> s.items[i].transactionId == 0)
    && (forall i :: 0 <= i < |s.items| ==> s.items[i].url in s.endPointTimeouts)
    && NoDuplicates(s.endPointTimeouts)
    // one timer was armed for each entry of endPointTimeouts, in the same order
    && |s.timers| == |s.endPointTimeouts|
    && (forall i :: 0 <= i < |s.timers| ==> s.timers[i].url == s.endPointTimeouts[i])
  }

  /** The state of a freshly created manager. */
  function InitialState(): (s: ManagerState)
    ensures Inv(s)
    ensures s.items == [] && s.endPointTimeouts == [] && s.timers == []
  {
    ManagerState([], 1, 20, 1, [], [])
  }

  /**
   * onMessage on values: look the route up, register a record with the
   * current messageId, bump messageId, and arm a timer for the URL unless
   * one was armed for it before.
   */
  function Receive(s: ManagerState, routes: Routes, msg: Message): (r: Step)
    // a failed lookup rejects the promise and changes nothing
    ensures !Routable(routes, msg) ==> r == Step(s, Rejected)
    ensures Routable(routes, msg) ==>
      var url := UrlOf(routes, msg);
      // exactly one record, carrying the id messageId had before the call
      && r.outcome == Pending(s.messageId)
      && r.next.items == s.items + [RecordFor(s.messageId, routes, msg)]
      && r.next.messageId == s.messageId + 1
      // the URL is now armed, and it is the only URL that may have been added
      && url in r.next.endPointTimeouts
      && s.endPointTimeouts <= r.next.endPointTimeouts
      && (forall u :: u in r.next.endPointTimeouts <==> u in s.endPointTimeouts || u == url)
      // a timer is armed exactly when the URL was not armed already
      && (url in s.endPointTimeouts ==> r.next.timers == s.timers)
      && (url !in s.endPointTimeouts ==> r.next.timers == s.timers + [Timer(url, s.requestBuffer)])
    // the buffer delay and the manager's transaction counter are not touched
    ensures r.next.requestBuffer == s.requestBuffer
    ensures r.next.transactionId == s.transactionId
    ensures Inv(s) ==> Inv(r.next)
  {
    if !Routable(routes, msg) then
      Step(s, Rejected)
    else
      var url := UrlOf(routes, msg);
      var registered := s.(items := s.items + [RecordFor(s.messageId, routes, msg)],
                           messageId := s.messageId + 1);
      var next := if url in s.endPointTimeouts then registered
                  else registered.(endPointTimeouts := s.endPointTimeouts + [url],
                                   timers := s.timers + [Timer(url, s.requestBuffer)]);
      Step(next, Pending(s.messageId))
  }

  /** Something that happens to the manager: a call request, or a buffer timer firing. */
  datatype Event = Incoming(msg: Message) | BufferTimeout(url: string)

  /** One event; a firing timer runs resolveBufferTimeout, which changes nothing. */
  function Apply(s: ManagerState, routes: Routes, e: Event): ManagerState
  {
    match e
    case Incoming(msg) => Receive(s, routes, msg).next
    case BufferTimeout(_) => s
  }

  /** The call requests among `events` whose route the table knows, in order. */
  function Routed(routes: Routes, events: seq<Event>): (ms: seq<Message>)
    ensures |ms| <= |events|
    ensures forall k :: 0 <= k < |ms| ==> Routable(routes, ms[k])
  {
    if events == [] then []
    else
      var rest := Routed(routes, events[1..]);
      match events[0]
      case Incoming(msg) => if Routable(routes, msg) then [msg] + rest else rest
      case BufferTimeout(_) => rest
  }

  /** The call requests among `events`, timer events dropped. */
  function Messages(events: seq<Event>): (es: seq<Event>)
    ensures |es| <= |events|
    ensures forall k :: 0 <= k < |es| ==> es[k].Incoming?
  {
    if events == [] then []
    else if events[0].Incoming? then [events[0]] + Messages(events[1..])
    else Messages(events[1..])
  }

  /**
   * The records registering `msgs` one after the other, starting at id
   * `firstId`: a reference description of what a run adds to the registry.
   */
  function Records(firstId: nat, routes: Routes, msgs: seq<Message>): (cs: seq<Call>)
    requires forall k :: 0 <= k < |msgs| ==> Routable(routes, msgs[k])
    ensures |cs| == |msgs|
    ensures forall k :: 0 <= k < |cs| ==>
      cs[k].id == firstId + k && cs[k].transactionId == 0 &&
      cs[k].service == msgs[k].service && cs[k].methodName == msgs[k].methodName &&
      cs[k].params == msgs[k].params && cs[k].url == UrlOf(routes, msgs[k])
    decreases |msgs|
  {
    if msgs == [] then []
    else [RecordFor(firstId, routes, msgs[0])] + Records(firstId + 1, routes, msgs[1..])
  }

  /** The state after the events, in order. */
  function Run(s: ManagerState, routes: Routes, events: seq<Event>): (r: ManagerState)
    ensures Inv(s) ==> Inv(r)
    ensures r.messageId == s.messageId + |Routed(routes, events)|
    ensures |r.items| == |s.items| + |Routed(routes, events)|
    // registry, armed URLs and timer log only ever grow at the end
    ensures s.items <= r.items
    ensures s.endPointTimeouts <= r.endPointTimeouts
    ensures s.timers <= r.timers
    ensures r.requestBuffer == s.requestBuffer
    ensures r.transactionId == s.transactionId
    decreases |events|
  {
    if events == [] then s else Run(Apply(s, routes, events[0]), routes, events[1..])
  }

  /**
   * Over any run, the registry grows by exactly one record per routed call,
   * with consecutive ids starting at the messageId the run began with.
   */
  lemma {:induction false} RunRegisters(s: ManagerState, routes: Routes, events: seq<Event>)
    ensures Run(s, routes, events).items == s.items + Records(s.messageId, routes, Routed(routes, events))
    decreases |events|
  {
    if events == [] {
      assert s.items + [] == s.items;
    } else {
      var s' := Apply(s, routes, events[0]);
      RunRegisters(s', routes, events[1..]);
      assert Run(s, routes, events) == Run(s', routes, events[1..]);
      StepRegisters(s, routes, events);
    }
  }

  /**
   * What one event adds to the registry, followed by what the rest of the
   * events add, is what all the events add.
   */
  lemma StepRegisters(s: ManagerState, routes: Routes, events: seq<Event>)
    requires events != []
    ensures var s' := Apply(s, routes, events[0]);
      s'.items + Records(s'.messageId, routes, Routed(routes, events[1..]))
        == s.items + Records(s.messageId, routes, Routed(routes, events))
  {
    var s' := Apply(s, routes, events[0]);
    var rest := Routed(routes, events[1..]);
    if events[0].Incoming? && Routable(routes, events[0].msg) {
      var msg := events[0].msg;
      var c := RecordFor(s.messageId, routes, msg);
      var tail := Records(s.messageId + 1, routes, rest);
      var all := Records(s.messageId, routes, [msg] + rest);
      assert s'.items == s.items + [c] && s'.messageId == s.messageId + 1;
      assert Routed(routes, events) == [msg] + rest;
      assert all == [c] + tail by {
        RecordsCons(s.messageId, routes, msg, rest);
      }
      AppendAfter(s'.items + tail, s.items, c, tail, all);
      assert Records(s'.messageId, routes, rest) == tail;
      assert Records(s.messageId, routes, Routed(routes, events)) == all;
    } else {
      assert s' == s;
      assert Routed(routes, events) == rest;
    }
  }

  /** Regrouping a concatenation around one element. */
  lemma AppendAfter<T>(all: seq<T>, prefix: seq<T>, c: T, tail: seq<T>, suffix: seq<T>)
    requires all == (prefix + [c]) + tail && suffix == [c] + tail
    ensures all == prefix + suffix
  {
  }

  lemma RecordsCons(firstId: nat, routes: Routes, msg: Message, rest: seq<Message>)
    requires Routable(routes, msg)
    requires forall k :: 0 <= k < |rest| ==> Routable(routes, rest[k])
    ensures Records(firstId, routes, [msg] + rest)
         == [RecordFor(firstId, routes, msg)] + Records(firstId + 1, routes, rest)
  {
  }

  /**
   * endPointTimeouts is never cleared, so a URL that is armed now never has
   * another timer armed for it, whatever happens later.
   */
  lemma {:induction false} NeverRearmed(s: ManagerState, routes: Routes, events: seq<Event>, url: string)
    requires url in s.endPointTimeouts
    ensures forall i :: |s.timers| <= i < |Run(s, routes, events).timers| ==>
      Run(s, routes, events).timers[i].url != url
    decreases |events|
  {
    if events != [] {
      var s' := Apply(s, routes, events[0]);
      assert url in s'.endPointTimeouts;
      NeverRearmed(s', routes, events[1..], url);
      assert forall i :: |s.timers| <= i < |s'.timers| ==> s'.timers[i].url != url;
    }
  }

  /** Over the manager's whole lifetime, at most one timer is armed for each URL. */
  lemma AtMostOneTimerPerUrl(routes: Routes, events: seq<Event>)
    ensures var r := Run(InitialState(), routes, events);
      forall i, j :: 0 <= i < j < |r.timers| ==> r.timers[i].url != r.timers[j].url
  {
    // the invariant that Run keeps pairs each timer with a distinct entry of endPointTimeouts
  }

  /** Firing buffer timers, in any number and at any point, has no effect on the manager. */
  lemma {:induction false} TimeoutsAreInert(s: ManagerState, routes: Routes, events: seq<Event>)
    ensures Run(s, routes, events) == Run(s, routes, Messages(events))
    decreases |events|
  {
    if events != [] {
      TimeoutsAreInert(Apply(s, routes, events[0]), routes, events[1..]);
      if events[0].Incoming? {
        assert Messages(events) == [events[0]] + Messages(events[1..]);
        assert ([events[0]] + Messages(events[1..]))[1..] == Messages(events[1..]);
      }
    }
  }

  /**
   * The registry is a collection sorted ascending by id. Inserting a record
   * at its sorted place: before the first record with a larger id.
   */
  function InsertSorted(items: seq<Call>, c: Call): (r: seq<Call>)
    ensures |r| == |items| + 1
  {
    if items == [] then [c]
    else if c.id < items[0].id then [c] + items
    else [items[0]] + InsertSorted(items[1..], c)
  }

  /**
   * Because every new id exceeds every registered id, appending a record
   * is the same as inserting it at its sorted place, and keeps the registry
   * sorted.
   */
  lemma {:induction false} AppendIsSortedInsert(items: seq<Call>, c: Call)
    requires IdsAscending(items)
    requires forall i :: 0 <= i < |items| ==> items[i].id < c.id
    ensures InsertSorted(items, c) == items + [c]
    ensures IdsAscending(items + [c])
  {
    AppendKeepsAscending(items, c);
    if items != [] {
      var tail := items[1..];
      assert IdsAscending(tail) && forall i :: 0 <= i < |tail| ==> tail[i].id < c.id by {
        assert forall i :: 0 <= i < |tail| ==> tail[i] == items[i + 1];
      }
      assert InsertSorted(items, c) == [items[0]] + InsertSorted(tail, c) by {
        assert items[0].id < c.id;
      }
      AppendIsSortedInsert(tail, c);
      assert [items[0]] + (tail + [c]) == items + [c];
    }
  }

  lemma AppendKeepsAscending(items: seq<Call>, c: Call)
    requires IdsAscending(items)
    requires forall i :: 0 <= i < |items| ==> items[i].id < c.id
    ensures IdsAscending(items + [c])
  {
  }

  /** The route key keeps service and method apart when the service name has no dot. */
  lemma RouteKeyInjective(s1: string, m1: string, s2: string, m2: string)
    requires '.' !in s1 && '.' !in s2
    requires RouteKey(s1, m1) == RouteKey(s2, m2)
    ensures s1 == s2 && m1 == m2
  {
    var k := RouteKey(s1, m1);
    // the first dot of the key ends the service name, in both readings
    assert |s1| == |s2| by {
      assert forall i :: 0 <= i < |s1| ==> k[i] == s1[i] != '.';
      assert forall i :: 0 <= i < |s2| ==> k[i] == s2[i] != '.';
      assert k[|s1|] == '.' && k[|s2|] == '.';
    }
    assert s1 == k[..|s1|] == s2;
    assert m1 == k[|s1| + 1..] == m2;
  }

  /** With dots in service names, two different routes can share one key. */
  lemma RouteKeyAmbiguous()
    ensures exists s1, m1, s2, m2 :: s1 != s2 && RouteKey(s1, m1) == RouteKey(s2, m2)
  {
    assert RouteKey("cal.events", "list") == RouteKey("cal", "events.list");
  }

  /** The manager object: the fields the source updates in place. */
  class RpcCall {
    /** URLs for which a buffer timer has been armed; never cleared. */
    var endPointTimeouts: seq<string>
    /** The id the next registered call receives. */
    var messageId: nat
    /** The buffering window in milliseconds. */
    var requestBuffer: nat
    /** Manager-level transaction counter; nothing in the manager changes it. */
    var transactionId: nat
    /** The registry of pending call records. */
    var items: seq<Call>
    /** The timers armed so far, in the order they were armed: a log of the scheduler calls. */
    ghost var timers: seq<Timer>

    ghost function State(): ManagerState
      reads this
    {
      ManagerState(endPointTimeouts, messageId, requestBuffer, transactionId, items, timers)
    }

    ghost predicate Valid()
      reads this
    {
      Inv(State())
    }

    constructor ()
      ensures Valid()
      ensures State() == InitialState()
    {
      endPointTimeouts := [];
      messageId := 1;
      requestBuffer := 20;
      transactionId := 1;
      items := [];
      timers := [];
    }

    method OnMessage(routes: Routes, msg: Message) returns (outcome: Outcome)
      requires Valid()
      modifies this
      ensures Valid()
      ensures Step(State(), outcome) == Receive(old(State()), routes, msg)
      ensures !Routable(routes, msg) ==> outcome == Rejected && State() == old(State())
      ensures Routable(routes, msg) ==>
        && outcome == Pending(old(messageId))
        && items == old(items) + [RecordFor(old(messageId), routes, msg)]
        && messageId == old(messageId) + 1
        && UrlOf(routes, msg) in endPointTimeouts
        && (UrlOf(routes, msg) in old(endPointTimeouts) ==>
              endPointTimeouts == old(endPointTimeouts) && timers == old(timers))
        && (UrlOf(routes, msg) !in old(endPointTimeouts) ==>
              && endPointTimeouts == old(endPointTimeouts) + [UrlOf(routes, msg)]
              && timers == old(timers) + [Timer(UrlOf(routes, msg), requestBuffer)])
      ensures requestBuffer == old(requestBuffer) && transactionId == old(transactionId)
    {
      var key := RouteKey(msg.service, msg.methodName);
      if key !in routes {
        // no route for the key: reading `.url` of the missing route throws,
        // so the promise is rejected
        return Rejected;
      }
      var url := routes[key];
      items := items + [Call(messageId, msg.service, msg.methodName, msg.params, 0, url)];
      outcome := Pending(messageId);
      messageId := messageId + 1;
      if url !in endPointTimeouts {
        endPointTimeouts := endPointTimeouts + [url];
        timers := timers + [Timer(url, requestBuffer)];
      }
    }

    /** Called when the buffer timer for `url` fires; it only logs. */
    method ResolveBufferTimeout(url: string)
      ensures State() == old(State())
    {
    }
  }
}
