/** A cluster worker: its per-team graph-client cache, the registration it received from the
    coordinating process, the router for inbound process messages and the tagged messages it sends
    back. The ambient correlation context (`namespace.get()`) is an opaque value `cls`, and
    `process.send` appends to an outbox. */
module ClusterWorker {
  import opened Wrappers
  import opened Strings
  import opened Json
  import opened Envelopes
  import MessageClient

  /** A graph client: the endpoint it queries and the `Authorization` header it sends. */
  datatype GraphClient = GraphClient(url: string, authorization: string)

  /** The registration confirmation; only its token is read here. */
  datatype Registration = Registration(jwt: string)

  /** A message the worker sends to the coordinating process. */
  datatype WorkerMessage =
    | Status(cls: Json, data: Json)
    | MessageOut(event: Incoming, cls: Json, message: MessageClient.Message,
                 userNames: MessageClient.Recipients, channelNames: MessageClient.Recipients,
                 options: Option<MessageClient.MessageOptions>)
    | CommandSuccess(payload: Json, cls: Json, result: Json)
    | CommandFailure(payload: Json, cls: Json, error: Json)
    | EventSuccess(payload: Json, cls: Json, results: seq<Json>)
    | EventFailure(payload: Json, cls: Json, error: Json)
  {
    /** The `type` field on the wire. */
    function Type(): string {
      match this
      case Status(_, _) => "status"
      case MessageOut(_, _, _, _, _, _) => "message"
      case CommandSuccess(_, _, _) => "command_success"
      case CommandFailure(_, _, _) => "command_failure"
      case EventSuccess(_, _, _) => "event_success"
      case EventFailure(_, _, _) => "event_failure"
    }
  }

  /** Worker state. `dispatched` records the envelopes handed to the request processor, whose
      handling is not part of this model. */
  datatype Worker = Worker(
    graphUrl: string,
    graphClients: map<string, GraphClient>,
    registration: Option<Registration>,
    outbox: seq<WorkerMessage>,
    dispatched: seq<Incoming>)

  /** A fresh worker for the given graph endpoint. */
  function Start(graphUrl: string): (w: Worker)
    ensures CacheCoherent(w)
  {
    Worker(graphUrl, map[], None, [], [])
  }

  function GraphUrlFor(graphUrl: string, teamId: string): string {
    graphUrl + "/" + teamId
  }

  function BearerHeader(jwt: string): string {
    "Bearer " + jwt
  }

  /** Every cached client is keyed by the team whose endpoint it queries and carries a bearer token. */
  predicate CacheCoherent(w: Worker) {
    forall t :: t in w.graphClients ==>
      w.graphClients[t].url == GraphUrlFor(w.graphUrl, t) && StartsWith(w.graphClients[t].authorization, "Bearer ")
  }

  /** `setRegistration`: replace the registration; cached clients are kept as they are. */
  function SetRegistration(w: Worker, registration: Registration): (w': Worker)
    ensures w'.registration == Some(registration)
    ensures w'.graphClients == w.graphClients && w'.outbox == w.outbox && w'.dispatched == w.dispatched
    ensures w'.graphUrl == w.graphUrl
    ensures CacheCoherent(w) ==> CacheCoherent(w')
  {
    w.(registration := Some(registration))
  }

  /** `createGraphClient(event)`: the cached client for the envelope's team; otherwise, with a
      registration, a new client for that team which is cached; otherwise no client. */
  function CreateGraphClient(w: Worker, event: Incoming): (r: (Option<GraphClient>, Worker))
    ensures var (client, w') := r;
            && w'.graphUrl == w.graphUrl && w'.registration == w.registration
            && w'.outbox == w.outbox && w'.dispatched == w.dispatched
            && (TeamIdOf(event) in w.graphClients ==>
                  client == Some(w.graphClients[TeamIdOf(event)]) && w' == w)
            && (TeamIdOf(event) !in w.graphClients && w.registration.Some? ==>
                  client == Some(GraphClient(GraphUrlFor(w.graphUrl, TeamIdOf(event)),
                                             BearerHeader(w.registration.value.jwt)))
                  && w'.graphClients == w.graphClients[TeamIdOf(event) := client.value])
            && (TeamIdOf(event) !in w.graphClients && w.registration.None? ==>
                  client.None? && w' == w)
    ensures CacheCoherent(w) ==> CacheCoherent(r.1)
  {
    var teamId := TeamIdOf(event);
    if teamId in w.graphClients then
      (Some(w.graphClients[teamId]), w)
    else if w.registration.Some? then
      var client := GraphClient(GraphUrlFor(w.graphUrl, teamId), BearerHeader(w.registration.value.jwt));
      (Some(client), w.(graphClients := w.graphClients[teamId := client]))
    else
      (None, w)
  }

  /** Once a client exists for a team, asking again returns the same client and changes nothing. */
  lemma CachedClientIsReused(w: Worker, first: Incoming, second: Incoming)
    requires TeamIdOf(first) == TeamIdOf(second)
    requires CreateGraphClient(w, first).0.Some?
    ensures var (c1, w1) := CreateGraphClient(w, first);
            CreateGraphClient(w1, second) == (c1, w1)
  {
  }

  /** Clients created for two different teams are different clients. */
  lemma DistinctTeamsGetDistinctClients(w: Worker, a: Incoming, b: Incoming)
    requires TeamIdOf(a) != TeamIdOf(b)
    requires CacheCoherent(w)
    requires CreateGraphClient(w, a).0.Some?
    ensures var (ca, w1) := CreateGraphClient(w, a);
            var (cb, _) := CreateGraphClient(w1, b);
            cb.Some? ==> cb.value != ca.value
  {
    var (ca, w1) := CreateGraphClient(w, a);
    var (cb, _) := CreateGraphClient(w1, b);
    if cb.Some? {
      assert ca.value.url == GraphUrlFor(w.graphUrl, TeamIdOf(a));
      assert cb.value.url == GraphUrlFor(w.graphUrl, TeamIdOf(b));
      GraphUrlInjective(w.graphUrl, TeamIdOf(a), TeamIdOf(b));
    }
  }

  lemma GraphUrlInjective(graphUrl: string, t1: string, t2: string)
    ensures GraphUrlFor(graphUrl, t1) == GraphUrlFor(graphUrl, t2) ==> t1 == t2
  {
    var n := |graphUrl + "/"|;
    assert GraphUrlFor(graphUrl, t1)[n..] == t1;
    assert GraphUrlFor(graphUrl, t2)[n..] == t2;
  }

  /** A new registration does not refresh clients already cached: they keep the old token. */
  lemma ReRegistrationKeepsCachedClients(w: Worker, event: Incoming, registration: Registration)
    requires TeamIdOf(event) in w.graphClients
    ensures CreateGraphClient(SetRegistration(w, registration), event).0 == Some(w.graphClients[TeamIdOf(event)])
  {
  }

  /** `sendMessage(payload)`: a `status` message tagged with the ambient context. */
  function SendMessage(w: Worker, cls: Json, payload: Json): (w': Worker)
    ensures w'.outbox == w.outbox + [Status(cls, payload)] && w'.outbox[|w.outbox|].Type() == "status"
    ensures w'.graphClients == w.graphClients && w'.registration == w.registration
    ensures w'.dispatched == w.dispatched && w'.graphUrl == w.graphUrl
  {
    w.(outbox := w.outbox + [Status(cls, payload)])
  }

  /** `ClusterWorkerMessageClient.doSend`: a `message` carrying the client's envelope, the ambient
      context and the message with its recipients and options; it resolves at once. */
  function DoSend(w: Worker, event: Incoming, cls: Json, msg: MessageClient.Message,
                  userNames: MessageClient.Recipients, channelNames: MessageClient.Recipients,
                  options: Option<MessageClient.MessageOptions>): (r: (Result<(), Json>, Worker))
    ensures r.0.Success?
    ensures r.1.outbox == w.outbox + [MessageOut(event, cls, msg, userNames, channelNames, options)]
    ensures r.1.outbox[|w.outbox|].Type() == "message"
    ensures r.1.graphClients == w.graphClients && r.1.registration == w.registration
    ensures r.1.dispatched == w.dispatched && r.1.graphUrl == w.graphUrl
  {
    (Success(()), w.(outbox := w.outbox + [MessageOut(event, cls, msg, userNames, channelNames, options)]))
  }

  /** How one invocation ended, as the listener hears of it. */
  datatype Completion =
    | CommandDone(payload: Json, commandOutcome: Result<Json, Json>)
    | EventDone(payload: Json, eventOutcome: Result<seq<Json>, Json>)

  /** `ClusterWorkerAutomationEventListener`: report the completion to the coordinating process. */
  function Notify(w: Worker, cls: Json, done: Completion): (w': Worker)
    ensures |w'.outbox| == |w.outbox| + 1 && w'.outbox[..|w.outbox|] == w.outbox
    ensures w'.graphClients == w.graphClients && w'.registration == w.registration
    ensures w'.dispatched == w.dispatched && w'.graphUrl == w.graphUrl
  {
    var m := match done
      case CommandDone(p, Success(result)) => CommandSuccess(p, cls, result)
      case CommandDone(p, Failure(err)) => CommandFailure(p, cls, err)
      case EventDone(p, Success(results)) => EventSuccess(p, cls, results)
      case EventDone(p, Failure(err)) => EventFailure(p, cls, err);
    w.(outbox := w.outbox + [m])
  }

  /** The listener's message names the kind of invocation and its outcome, and carries the payload,
      the ambient context and the result or the error. */
  lemma NotifyTagsOutcome(w: Worker, cls: Json, done: Completion)
    ensures var m := Notify(w, cls, done).outbox[|w.outbox|];
            && (m.Type() == "command_success" <==> done.CommandDone? && done.commandOutcome.Success?)
            && (m.Type() == "command_failure" <==> done.CommandDone? && done.commandOutcome.Failure?)
            && (m.Type() == "event_success" <==> done.EventDone? && done.eventOutcome.Success?)
            && (m.Type() == "event_failure" <==> done.EventDone? && done.eventOutcome.Failure?)
            && m.payload == done.payload && m.cls == cls
            && (done.CommandDone? && done.commandOutcome.Success? ==> m.result == done.commandOutcome.value)
            && (done.EventDone? && done.eventOutcome.Success? ==> m.results == done.eventOutcome.value)
            && (done.CommandDone? && done.commandOutcome.Failure? ==> m.error == done.commandOutcome.error)
            && (done.EventDone? && done.eventOutcome.Failure? ==> m.error == done.eventOutcome.error)
  {
  }

  /** The data of an inbound process message. */
  datatype InboundData =
    | RegistrationData(registration: Registration)
    | CommandData(command: CommandIncoming)
    | EventData(event: EventIncoming)
    | OtherData(value: Json)

  datatype Inbound = Inbound(tag: string, data: InboundData)

  /** The coordinating process sends the data its tag names. */
  predicate WellTagged(m: Inbound) {
    && (m.tag == "registration" ==> m.data.RegistrationData?)
    && (m.tag == "command" ==> m.data.CommandData?)
    && (m.tag == "event" ==> m.data.EventData?)
  }

  /** The `process.on("message")` handler of `startWorker`. */
  function Route(w: Worker, m: Inbound): (w': Worker)
    requires WellTagged(m)
    ensures m.tag == "registration" ==> w' == SetRegistration(w, m.data.registration)
    ensures m.tag == "command" ==> w' == w.(dispatched := w.dispatched + [Command(m.data.command)])
    ensures m.tag == "event" ==> w' == w.(dispatched := w.dispatched + [Event(m.data.event)])
    ensures m.tag !in {"registration", "command", "event"} ==> w' == w
    ensures w'.graphClients == w.graphClients && w'.outbox == w.outbox && w'.graphUrl == w.graphUrl
  {
    if m.tag == "registration" then SetRegistration(w, m.data.registration)
    else if m.tag == "command" then w.(dispatched := w.dispatched + [Command(m.data.command)])
    else if m.tag == "event" then w.(dispatched := w.dispatched + [Event(m.data.event)])
    else w
  }

  /** Routing a sequence of inbound messages. */
  function RouteAll(w: Worker, ms: seq<Inbound>): (w': Worker)
    requires forall i :: 0 <= i < |ms| ==> WellTagged(ms[i])
    ensures CacheCoherent(w) ==> CacheCoherent(w')
    ensures w'.graphClients == w.graphClients && w'.outbox == w.outbox
    ensures w'.dispatched == w.dispatched + Dispatchable(ms)
    decreases |ms|
  {
    if |ms| == 0 then w else RouteAll(Route(w, ms[0]), ms[1..])
  }

  /** The envelopes carried by `command` and `event` messages, in arrival order. */
  function Dispatchable(ms: seq<Inbound>): seq<Incoming>
    requires forall i :: 0 <= i < |ms| ==> WellTagged(ms[i])
  {
    if |ms| == 0 then []
    else
      assert WellTagged(ms[0]);
      var first := if ms[0].tag == "command" then [Command(ms[0].data.command)]
                   else if ms[0].tag == "event" then [Event(ms[0].data.event)]
                   else [];
      first + Dispatchable(ms[1..])
  }

  /** The registration carried by the last `registration` message of `ms`, or `current` when none
      is there. */
  function LastRegistration(current: Option<Registration>, ms: seq<Inbound>): Option<Registration>
    decreases |ms|
  {
    if |ms| == 0 then current
    else
      var next := if ms[0].tag == "registration" && ms[0].data.RegistrationData?
                  then Some(ms[0].data.registration) else current;
      LastRegistration(next, ms[1..])
  }

  /** After routing, the worker holds the registration of the last `registration` message, or
      the one it had when none arrived. */
  lemma {:induction false} RouteAllRegistration(w: Worker, ms: seq<Inbound>)
    requires forall i :: 0 <= i < |ms| ==> WellTagged(ms[i])
    ensures RouteAll(w, ms).registration == LastRegistration(w.registration, ms)
    decreases |ms|
  {
    if |ms| > 0 {
      RouteAllRegistration(Route(w, ms[0]), ms[1..]);
    }
  }

  /** One thing a worker does outside routing: take a registration, make or reuse a graph client,
      or send one of its three kinds of message. */
  datatype Step =
    | Register(registration: Registration)
    | ClientFor(event: Incoming)
    | SendStatus(statusCls: Json, payload: Json)
    | SendTo(target: Incoming, sendCls: Json, message: MessageClient.Message,
             userNames: MessageClient.Recipients, channelNames: MessageClient.Recipients,
             options: Option<MessageClient.MessageOptions>)
    | Report(reportCls: Json, done: Completion)

  function Apply(w: Worker, s: Step): Worker {
    match s
    case Register(registration) => SetRegistration(w, registration)
    case ClientFor(event) => CreateGraphClient(w, event).1
    case SendStatus(cls, payload) => SendMessage(w, cls, payload)
    case SendTo(event, cls, msg, users, channels, options) => DoSend(w, event, cls, msg, users, channels, options).1
    case Report(cls, done) => Notify(w, cls, done)
  }

  function Run(w: Worker, steps: seq<Step>): Worker
    decreases |steps|
  {
    if |steps| == 0 then w else Run(Apply(w, steps[0]), steps[1..])
  }

  /** The number of steps that put a message in the outbox. */
  function Sends(steps: seq<Step>): nat
    decreases |steps|
  {
    if |steps| == 0 then 0
    else (if steps[0].Register? || steps[0].ClientFor? then 0 else 1) + Sends(steps[1..])
  }

  /** The outbox is append-only: whatever a worker does, the messages already sent stay in place,
      exactly one message is added per send, the dispatched envelopes and endpoint are untouched,
      and a coherent client cache stays coherent. */
  lemma {:induction false} RunOnlyExtendsOutbox(w: Worker, steps: seq<Step>)
    ensures var w' := Run(w, steps);
            && |w'.outbox| == |w.outbox| + Sends(steps) && w'.outbox[..|w.outbox|] == w.outbox
            && w'.dispatched == w.dispatched && w'.graphUrl == w.graphUrl
            && (CacheCoherent(w) ==> CacheCoherent(w'))
    decreases |steps|
  {
    if |steps| > 0 {
      var next := Apply(w, steps[0]);
      assert |next.outbox| == |w.outbox| + (if steps[0].Register? || steps[0].ClientFor? then 0 else 1);
      assert next.outbox[..|w.outbox|] == w.outbox;
      assert CacheCoherent(w) ==> CacheCoherent(next);
      RunOnlyExtendsOutbox(next, steps[1..]);
      assert Run(next, steps[1..]).outbox[..|w.outbox|] == Run(next, steps[1..]).outbox[..|next.outbox|][..|w.outbox|];
    }
  }
}
