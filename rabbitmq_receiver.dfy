/** `RabbitMQReceiver`: connects to the broker with a bounded number of
    retries, declares the request and response queues, registers a consumer
    with manual acknowledgement, and for each request decodes the body,
    routes its `action` through a fixed six-entry table to a freshly built
    adapter, publishes one reply to the request's `reply_to` queue with its
    `correlation_id`, and then acknowledges the delivery.

    The broker is seen through one event log (declarations, consumer
    registration, adapter use, publications, acknowledgements); the network,
    the adapter and the unseen `try_except_decor` decorator are inputs. */
module Receiver {
  import opened Common

  /** The connection attempts allowed after the first one fails (`retries = 30`). */
  const MaxRetries: nat := 30

  // ---------------------------------------------------------------------------
  // The action table

  /** The six operations a request can name. */
  datatype Action =
    | GetRepo
    | GetBranches
    | GetCommits
    | GetCommitsByBranch
    | GetCommitByHash
    | GetContributors

  /** The name a request uses for each operation. */
  function ActionName(a: Action): string {
    match a
    case GetRepo => "get_repo"
    case GetBranches => "get_branches"
    case GetCommits => "get_commits"
    case GetCommitsByBranch => "get_commits_by_branch"
    case GetCommitByHash => "get_commit_by_hash"
    case GetContributors => "get_contributors"
  }

  const ActionNames: set<string> :=
    {"get_repo", "get_branches", "get_commits", "get_commits_by_branch", "get_commit_by_hash", "get_contributors"}

  /** The `methods` dict of `worker`: exactly the six names, each bound to
      the operation of that name. */
  function ActionTable(): (table: map<string, Action>)
    ensures table.Keys == ActionNames
    ensures forall name :: name in table ==> ActionName(table[name]) == name
  {
    map[
      "get_repo" := GetRepo,
      "get_branches" := GetBranches,
      "get_commits" := GetCommits,
      "get_commits_by_branch" := GetCommitsByBranch,
      "get_commit_by_hash" := GetCommitByHash,
      "get_contributors" := GetContributors
    ]
  }

  /** `methods[key]`: the operation registered under `key`. A key that is not
      registered raises KeyError, or TypeError when it is unhashable (a list or
      a dict). */
  function Lookup(key: Json): (r: Result<Action>)
    ensures r.Ok? <==> key.JStr? && key.s in ActionNames
    ensures r.Ok? ==> key == JStr(ActionName(r.value))
    ensures r.Err? ==> r.error == (if key.JList? || key.JDict? then TypeError else KeyError)
  {
    if key.JStr? && key.s in ActionTable() then Ok(ActionTable()[key.s])
    else if key.JList? || key.JDict? then Err(TypeError)
    else Err(KeyError)
  }

  /** Every operation is found under its own name. */
  lemma LookupActionName(a: Action)
    ensures Lookup(JStr(ActionName(a))) == Ok(a)
  {
    assert ActionName(a) in ActionTable();
  }

  // ---------------------------------------------------------------------------
  // The adapter and the worker

  /** The object `Builder(body)` yields: six methods, each returning a value
      or raising. The four without parameters are fixed results; the two with
      one parameter depend on it. */
  datatype Adapter = Adapter(
    getRepo: Result<Json>,
    getBranches: Result<Json>,
    getCommits: Result<Json>,
    getCommitsByBranch: Json -> Result<Json>,
    getCommitByHash: Json -> Result<Json>,
    getContributors: Result<Json>)

  /** How many arguments an operation takes. */
  function Arity(a: Action): nat {
    if a == GetCommitByHash || a == GetCommitsByBranch then 1 else 0
  }

  /** Calls the adapter method of an operation. */
  function Call(adapter: Adapter, a: Action, args: seq<Json>): Result<Json>
    requires |args| == Arity(a)
  {
    match a
    case GetRepo => adapter.getRepo
    case GetBranches => adapter.getBranches
    case GetCommits => adapter.getCommits
    case GetCommitsByBranch => adapter.getCommitsByBranch(args[0])
    case GetCommitByHash => adapter.getCommitByHash(args[0])
    case GetContributors => adapter.getContributors
  }

  /** The arguments `worker` passes: the body's "hash" to `get_commit_by_hash`
      and its "branch" to `get_commits_by_branch` (None when absent), nothing
      to the others. */
  function Arguments(a: Action, body: map<string, Json>): (args: seq<Json>)
    ensures |args| == Arity(a)
    ensures a == GetCommitByHash ==> args == [DictGet(body, "hash")]
    ensures a == GetCommitsByBranch ==> args == [DictGet(body, "branch")]
    ensures Arity(a) == 0 ==> args == []
  {
    if a == GetCommitByHash then [DictGet(body, "hash")]
    else if a == GetCommitsByBranch then [DictGet(body, "branch")]
    else []
  }

  /** What happens to the adapter inside the `with Builder(body)` block. */
  datatype AdapterEvent = Acquired | Invoked(action: Action, args: seq<Json>) | Released

  /** The outcome of one `worker` call and what it did with the adapter. */
  datatype WorkerRun = WorkerRun(result: Result<Json>, trace: seq<AdapterEvent>)

  /** The value of `body['action']`, when the decoded body is a dict that has it. */
  function RequestedAction(decoded: Result<Json>): Option<Json> {
    if decoded.Ok? && decoded.value.JDict? && "action" in decoded.value.fields
    then Some(decoded.value.fields["action"])
    else None
  }

  function Invoke(adapter: Adapter, a: Action, args: seq<Json>): WorkerRun
    requires |args| == Arity(a)
  {
    WorkerRun(Call(adapter, a, args), [Acquired, Invoked(a, args), Released])
  }

  /** `worker(body)`. `decoded` is what `literal_eval(body.decode())` yields
      and `builder` what `Builder(body)` yields. The body must be a dict with
      an "action" before the adapter is built. */
  function Worker(decoded: Result<Json>, builder: Result<Adapter>): (run: WorkerRun)
    ensures RequestedAction(decoded).None? ==> run.trace == [] && run.result.Err?
    ensures run.trace != [] <==> RequestedAction(decoded).Some? && builder.Ok?
  {
    match decoded
    case Err(e) => WorkerRun(Err(e), [])
    case Ok(body) =>
      if !body.JDict? then WorkerRun(Err(TypeError), [])
      else if "action" !in body.fields then WorkerRun(Err(KeyError), [])
      else
        match builder
        case Err(e) => WorkerRun(Err(e), [])
        case Ok(adapter) =>
          var name := body.fields["action"];
          if name == JStr("get_commit_by_hash") then
            Invoke(adapter, GetCommitByHash, [DictGet(body.fields, "hash")])
          else if name == JStr("get_commits_by_branch") then
            Invoke(adapter, GetCommitsByBranch, [DictGet(body.fields, "branch")])
          else
            match Lookup(name)
            case Err(e) => WorkerRun(Err(e), [Acquired, Released])
            case Ok(a) => Invoke(adapter, a, [])
  }

  /** What `worker` does with the adapter: it is acquired and released once
      on every path that built it, and in between at most one method is
      invoked, the one the table registers under the requested action, with
      the arguments that entry takes; the worker returns what that call
      returns. An unregistered action invokes nothing and fails as the table
      lookup does. */
  lemma WorkerUsesAdapterOnce(decoded: Result<Json>, builder: Result<Adapter>)
    ensures var run := Worker(decoded, builder);
      || run.trace == []
      || run.trace == [Acquired, Released]
      || (|run.trace| == 3 && run.trace[0] == Acquired && run.trace[1].Invoked? && run.trace[2] == Released)
    ensures var run := Worker(decoded, builder);
      RequestedAction(decoded).Some? && builder.Ok? ==>
        (|run.trace| == 3 <==> Lookup(RequestedAction(decoded).value).Ok?)
    ensures var run := Worker(decoded, builder);
      run.trace == [Acquired, Released] ==>
        run.result == Err(Lookup(RequestedAction(decoded).value).error)
    ensures var run := Worker(decoded, builder);
      |run.trace| == 3 ==>
        var e := run.trace[1];
        && RequestedAction(decoded) == Some(JStr(ActionName(e.action)))
        && builder.Ok?
        && e.args == Arguments(e.action, decoded.value.fields)
        && run.result == Call(builder.value, e.action, e.args)
  {
  }

  // ---------------------------------------------------------------------------
  // The broker as an event log

  /** `props` of a delivery: where the reply goes and the token it carries. */
  datatype Properties = Properties(replyTo: string, correlationId: string)

  /** One delivered request: its tag, its properties and its decoded body. */
  datatype Delivery = Delivery(deliveryTag: nat, props: Properties, decoded: Result<Json>)

  /** What code outside the model does during one callback: what `Builder`
      yields; what `try_except_decor` around `worker` makes of an exception
      (Some(v): returns v in its place; None: lets it propagate); and whether
      `basic_publish` raises. */
  datatype World = World(builder: Result<Adapter>, onWorkerError: Option<Json>, publishError: Option<Exception>)

  datatype Event =
    | QueueDeclared(queue: string)
    | ConsumeRegistered(queue: string, noAck: bool)
    | AdapterUsed(step: AdapterEvent)
    | Published(exchange: string, routingKey: string, correlationId: string, body: Json)
    | Acked(deliveryTag: nat)

  function AdapterEvents(trace: seq<AdapterEvent>): (events: seq<Event>)
    ensures |events| == |trace|
    ensures forall i :: 0 <= i < |trace| ==> events[i] == AdapterUsed(trace[i])
  {
    seq(|trace|, i requires 0 <= i < |trace| => AdapterUsed(trace[i]))
  }

  /** The value `callback` serialises: the worker's result, or what the
      decorator returns in place of the worker's exception. */
  function Reply(run: WorkerRun, w: World): Option<Json> {
    if run.result.Ok? then Some(run.result.value) else w.onWorkerError
  }

  /** The one reply `callback` publishes for a delivery, if it publishes one:
      none when there is no value to serialise or when `basic_publish` raises;
      otherwise the value, on the default exchange, routed to the delivery's
      `reply_to` with its `correlation_id`. */
  function ReplyTo(d: Delivery, w: World): (reply: Option<Event>)
    ensures reply.Some? <==> Reply(Worker(d.decoded, w.builder), w).Some? && w.publishError.None?
    ensures reply.Some? ==>
      reply.value == Published("", d.props.replyTo, d.props.correlationId, Reply(Worker(d.decoded, w.builder), w).value)
  {
    match Reply(Worker(d.decoded, w.builder), w)
    case None => None
    case Some(body) =>
      if w.publishError.Some? then None
      else Some(Published("", d.props.replyTo, d.props.correlationId, body))
  }

  /** What follows the adapter's use in a callback: the reply, if any, then
      the acknowledgement of `tag`. */
  function Answer(reply: Option<Event>, tag: nat): seq<Event> {
    match reply
    case None => []
    case Some(e) => [e, Acked(tag)]
  }

  /** What one `callback` adds to the log. */
  function CallbackEvents(d: Delivery, w: World): seq<Event> {
    AdapterEvents(Worker(d.decoded, w.builder).trace) + Answer(ReplyTo(d, w), d.deliveryTag)
  }

  /** How `callback` ends. */
  datatype CallbackExit = Returned | Raised(error: Exception)

  /** The publications in a log, in order. */
  function Replies(log: seq<Event>): (r: seq<Event>)
    ensures forall e :: e in r ==> e.Published?
  {
    if log == [] then []
    else Replies(log[..|log| - 1]) + (if log[|log| - 1].Published? then [log[|log| - 1]] else [])
  }

  /** The acknowledged delivery tags in a log, in order. */
  function Acks(log: seq<Event>): seq<nat> {
    if log == [] then []
    else Acks(log[..|log| - 1]) + (if log[|log| - 1].Acked? then [log[|log| - 1].deliveryTag] else [])
  }

  /** Both views of a log distribute over concatenation. */
  lemma {:induction false} ViewsOfConcat(a: seq<Event>, b: seq<Event>)
    ensures Replies(a + b) == Replies(a) + Replies(b)
    ensures Acks(a + b) == Acks(a) + Acks(b)
  {
    if b != [] {
      var b' := b[..|b| - 1];
      assert (a + b)[..|a + b| - 1] == a + b';
      ViewsOfConcat(a, b');
    } else {
      assert a + b == a;
    }
  }

  /** Adapter use neither publishes nor acknowledges. */
  lemma {:induction false} AdapterEventsAreSilent(trace: seq<AdapterEvent>)
    ensures Replies(AdapterEvents(trace)) == [] && Acks(AdapterEvents(trace)) == []
  {
    if trace != [] {
      var t' := trace[..|trace| - 1];
      assert AdapterEvents(trace)[..|trace| - 1] == AdapterEvents(t');
      AdapterEventsAreSilent(t');
    }
  }

  /** One callback publishes at most one reply, to the delivery's `reply_to`
      with its `correlation_id`, and acknowledges the delivery's tag exactly
      when it has published; nothing is acknowledged after a failed publish. */
  lemma CallbackRepliesOnce(d: Delivery, w: World)
    ensures var events := CallbackEvents(d, w);
      && Replies(events) == (if ReplyTo(d, w).Some? then [ReplyTo(d, w).value] else [])
      && Acks(events) == (if ReplyTo(d, w).Some? then [d.deliveryTag] else [])
    ensures ReplyTo(d, w).Some? ==>
      && ReplyTo(d, w).value.exchange == ""
      && ReplyTo(d, w).value.routingKey == d.props.replyTo
      && ReplyTo(d, w).value.correlationId == d.props.correlationId
    ensures w.publishError.Some? ==> Acks(CallbackEvents(d, w)) == []
  {
    var trace := Worker(d.decoded, w.builder).trace;
    AdapterEventsAreSilent(trace);
    ViewsOfConcat(AdapterEvents(trace), Answer(ReplyTo(d, w), d.deliveryTag));
    AnswerViews(ReplyTo(d, w), d.deliveryTag);
  }

  lemma AnswerViews(reply: Option<Event>, tag: nat)
    requires reply.Some? ==> reply.value.Published?
    ensures Replies(Answer(reply, tag)) == (if reply.Some? then [reply.value] else [])
    ensures Acks(Answer(reply, tag)) == (if reply.Some? then [tag] else [])
  {
    if reply.Some? {
      var tail := Answer(reply, tag);
      assert tail == [tail[0]] + [tail[1]];
      ViewsOfConcat([tail[0]], [tail[1]]);
      assert [tail[0]][..0] == [] && [tail[1]][..0] == [];
      assert Replies([tail[0]]) == [tail[0]] && Acks([tail[0]]) == [];
      assert Replies([tail[1]]) == [] && Acks([tail[1]]) == [tag];
    }
  }

  /** Within one callback the adapter is released before the reply is
      published, and the acknowledgement comes right after the publication,
      as the last event. */
  lemma CallbackOrder(d: Delivery, w: World)
    ensures var events := CallbackEvents(d, w);
      && (forall i, j :: 0 <= i < |events| && 0 <= j < |events| && events[i].AdapterUsed? && events[j].Published? ==> i < j)
      && (forall i :: 0 <= i < |events| && events[i].Published? ==>
            i + 2 == |events| && events[i + 1] == Acked(d.deliveryTag))
      && (forall i :: 0 <= i < |events| && events[i].Acked? ==> 0 < i && events[i - 1].Published?)
  {
  }

  /** A well-formed request for a registered operation whose adapter call
      returns `v` gets exactly one reply carrying `v`, and one acknowledgement,
      provided the publish goes through. */
  lemma RegisteredRequestGetsItsReply(d: Delivery, w: World, a: Action, v: Json)
    requires d.decoded.Ok? && d.decoded.value.JDict?
    requires DictGet(d.decoded.value.fields, "action") == JStr(ActionName(a))
    requires w.builder.Ok? && w.publishError.None?
    requires Call(w.builder.value, a, Arguments(a, d.decoded.value.fields)) == Ok(v)
    ensures Replies(CallbackEvents(d, w)) == [Published("", d.props.replyTo, d.props.correlationId, v)]
    ensures Acks(CallbackEvents(d, w)) == [d.deliveryTag]
  {
    var fields := d.decoded.value.fields;
    LookupActionName(a);
    assert RequestedAction(d.decoded) == Some(JStr(ActionName(a)));
    var run := Worker(d.decoded, w.builder);
    WorkerUsesAdapterOnce(d.decoded, w.builder);
    assert |run.trace| == 3;
    var e := run.trace[1];
    assert JStr(ActionName(e.action)) == JStr(ActionName(a));
    LookupActionName(e.action);
    assert e.action == a;
    assert run.result == Ok(v);
    assert ReplyTo(d, w) == Some(Published("", d.props.replyTo, d.props.correlationId, v));
    CallbackRepliesOnce(d, w);
  }

  /** A request whose action is not registered never reaches the adapter. */
  lemma UnregisteredActionNeverCallsAdapter(d: Delivery, w: World)
    requires RequestedAction(d.decoded).Some?
    requires Lookup(RequestedAction(d.decoded).value).Err?
    ensures forall e :: e in CallbackEvents(d, w) ==> !(e.AdapterUsed? && e.step.Invoked?)
  {
  }

  /** All the callbacks of a consuming session, in delivery order. */
  function AllEvents(incoming: seq<(Delivery, World)>): seq<Event> {
    if incoming == [] then []
    else
      var last := incoming[|incoming| - 1];
      AllEvents(incoming[..|incoming| - 1]) + CallbackEvents(last.0, last.1)
  }

  lemma AllEventsOfPrefix(incoming: seq<(Delivery, World)>, i: nat)
    requires i < |incoming|
    ensures AllEvents(incoming[..i + 1]) == AllEvents(incoming[..i]) + CallbackEvents(incoming[i].0, incoming[i].1)
  {
    assert incoming[..i + 1][..i] == incoming[..i];
  }

  lemma AllEventsStep(start: seq<Event>, before: seq<Event>, after: seq<Event>, incoming: seq<(Delivery, World)>, i: nat)
    requires i < |incoming|
    requires before == start + AllEvents(incoming[..i])
    requires after == before + CallbackEvents(incoming[i].0, incoming[i].1)
    ensures after == start + AllEvents(incoming[..i + 1])
  {
    AllEventsOfPrefix(incoming, i);
    Associative(start, AllEvents(incoming[..i]), CallbackEvents(incoming[i].0, incoming[i].1));
  }


  /** Regrouping a concatenation, stated apart so that proofs using it do
      not see the callbacks' events unfolded. */
  lemma Associative(x: seq<Event>, y: seq<Event>, z: seq<Event>)
    ensures x + y + z == x + (y + z)
  {
  }

  /** The replies of a session, one per delivery that got one, in delivery order. */
  function RepliesInOrder(incoming: seq<(Delivery, World)>): seq<Event> {
    if incoming == [] then []
    else
      var last := incoming[|incoming| - 1];
      RepliesInOrder(incoming[..|incoming| - 1])
        + (if ReplyTo(last.0, last.1).Some? then [ReplyTo(last.0, last.1).value] else [])
  }

  /** The tags of the deliveries that got a reply, in delivery order. */
  function RepliedTags(incoming: seq<(Delivery, World)>): (tags: seq<nat>)
    ensures forall t :: t in tags ==> exists i :: 0 <= i < |incoming| && incoming[i].0.deliveryTag == t
  {
    if incoming == [] then []
    else
      var last := incoming[|incoming| - 1];
      var front := RepliedTags(incoming[..|incoming| - 1]);
      assert forall t :: t in front ==> exists i :: 0 <= i < |incoming| && incoming[i].0.deliveryTag == t by {
        forall t | t in front ensures exists i :: 0 <= i < |incoming| && incoming[i].0.deliveryTag == t {
          var i :| 0 <= i < |incoming| - 1 && incoming[..|incoming| - 1][i].0.deliveryTag == t;
          assert incoming[i].0.deliveryTag == t;
        }
      }
      front + (if ReplyTo(last.0, last.1).Some? then [last.0.deliveryTag] else [])
  }

  /** A session publishes the replies in the order the requests arrived, and
      acknowledges exactly the deliveries it replied to, in that order. */
  lemma {:induction false} SessionRepliesInArrivalOrder(incoming: seq<(Delivery, World)>)
    ensures Replies(AllEvents(incoming)) == RepliesInOrder(incoming)
    ensures Acks(AllEvents(incoming)) == RepliedTags(incoming)
  {
    if incoming != [] {
      var front := incoming[..|incoming| - 1];
      var last := incoming[|incoming| - 1];
      SessionRepliesInArrivalOrder(front);
      ViewsOfConcat(AllEvents(front), CallbackEvents(last.0, last.1));
      CallbackRepliesOnce(last.0, last.1);
    }
  }

  predicate DistinctTags(incoming: seq<(Delivery, World)>) {
    forall i, j :: 0 <= i < j < |incoming| ==> incoming[i].0.deliveryTag != incoming[j].0.deliveryTag
  }

  /** When the broker hands out distinct delivery tags, no tag is
      acknowledged twice in a session. */
  lemma {:induction false} NoTagAckedTwice(incoming: seq<(Delivery, World)>)
    requires DistinctTags(incoming)
    ensures Distinct(Acks(AllEvents(incoming)))
  {
    SessionRepliesInArrivalOrder(incoming);
    RepliedTagsDistinct(incoming);
  }

  lemma {:induction false} RepliedTagsDistinct(incoming: seq<(Delivery, World)>)
    requires DistinctTags(incoming)
    ensures Distinct(RepliedTags(incoming))
  {
    if incoming != [] {
      var front := incoming[..|incoming| - 1];
      var last := incoming[|incoming| - 1];
      assert DistinctTags(front);
      RepliedTagsDistinct(front);
      var tags := RepliedTags(front);
      forall t | t in tags ensures t != last.0.deliveryTag {
        var i :| 0 <= i < |front| && front[i].0.deliveryTag == t;
        assert incoming[i] == front[i];
      }
      var all := RepliedTags(incoming);
      assert all == tags + (if ReplyTo(last.0, last.1).Some? then [last.0.deliveryTag] else []);
      forall i, j | 0 <= i < j < |all| ensures all[i] != all[j] {
        assert all[i] == tags[i] && tags[i] in tags;
        if j < |tags| {
          assert all[j] == tags[j];
          assert tags[i] != tags[j];
        } else {
          assert all[j] == last.0.deliveryTag;
          assert tags[i] != last.0.deliveryTag;
        }
      }
    }
  }

  // ---------------------------------------------------------------------------
  // The receiver

  /** The retry loop of `__init__`: `connects(k)` says whether attempt `k`
      (counting from 0) gets a channel. The loop stops at the first success,
      or raises after the attempt made when `retries` has reached 0. */
  method Connect(connects: nat -> bool) returns (attempts: nat, connected: bool)
    ensures 1 <= attempts <= MaxRetries + 1
    ensures connected <==> connects(attempts - 1)
    ensures forall k :: 0 <= k < attempts - 1 ==> !connects(k)
    ensures !connected ==> attempts == MaxRetries + 1
  {
    var retries: nat := MaxRetries;
    attempts := 0;
    while true
      invariant retries <= MaxRetries
      invariant attempts == MaxRetries - retries
      invariant forall k :: 0 <= k < attempts ==> !connects(k)
      decreases retries
    {
      var ok := connects(attempts);
      attempts := attempts + 1;
      if ok {
        connected := true;
        return;
      }
      if retries == 0 {
        connected := false;
        return;
      }
      retries := retries - 1;
    }
  }

  class Receiver {
    const requestQueue: string
    const responseQueue: string
    /** Connection attempts made by the constructor. */
    var attempts: nat
    /** Whether a channel was obtained. */
    var connected: bool
    /** Everything the receiver has done on the channel, in order. */
    var log: seq<Event>

    /** `__init__`: connect with retries, and only once connected declare the
        request queue, then the response queue, then register the consumer on
        the request queue with manual acknowledgement (`no_ack=False`). After
        31 failed attempts nothing is declared. */
    constructor (requestQueue: string, responseQueue: string, connects: nat -> bool)
      ensures this.requestQueue == requestQueue && this.responseQueue == responseQueue
      ensures 1 <= attempts <= MaxRetries + 1
      ensures connected <==> connects(attempts - 1)
      ensures forall k :: 0 <= k < attempts - 1 ==> !connects(k)
      ensures !connected ==> attempts == MaxRetries + 1 && log == []
      ensures connected ==>
        log == [QueueDeclared(requestQueue), QueueDeclared(responseQueue), ConsumeRegistered(requestQueue, false)]
    {
      this.requestQueue := requestQueue;
      this.responseQueue := responseQueue;
      var n, ok := Connect(connects);
      attempts := n;
      connected := ok;
      log := [];
      if ok {
        log := log + [QueueDeclared(requestQueue)];
        log := log + [QueueDeclared(responseQueue)];
        log := log + [ConsumeRegistered(requestQueue, false)];
      }
    }

    /** The body of `callback(channel, method, props, body)`: run the worker,
        publish its reply, then acknowledge. `exit` is how the body ends, before
        the decorator on `callback` sees it. */
    method Callback(d: Delivery, w: World) returns (exit: CallbackExit)
      requires connected
      modifies this`log
      ensures log == old(log) + CallbackEvents(d, w)
      ensures exit.Returned? <==> ReplyTo(d, w).Some?
      ensures Reply(Worker(d.decoded, w.builder), w).None? ==>
        exit == Raised(Worker(d.decoded, w.builder).result.error)
      ensures Reply(Worker(d.decoded, w.builder), w).Some? && w.publishError.Some? ==>
        exit == Raised(w.publishError.value)
    {
      var run := Worker(d.decoded, w.builder);
      log := log + AdapterEvents(run.trace);
      var response: Json;
      if run.result.Ok? {
        response := run.result.value;
      } else if w.onWorkerError.Some? {
        response := w.onWorkerError.value;
      } else {
        return Raised(run.result.error);
      }
      if w.publishError.Some? {
        return Raised(w.publishError.value);
      }
      log := log + [Published("", d.props.replyTo, d.props.correlationId, response)];
      log := log + [Acked(d.deliveryTag)];
      return Returned;
    }

    /** `channel.start_consuming()`: one callback per delivery, in order. */
    method StartConsuming(incoming: seq<(Delivery, World)>)
      requires connected
      modifies this`log
      ensures log == old(log) + AllEvents(incoming)
    {
      var i := 0;
      while i < |incoming|
        invariant 0 <= i <= |incoming|
        invariant log == old(log) + AllEvents(incoming[..i])
      {
        var before := log;
        var _ := Callback(incoming[i].0, incoming[i].1);
        AllEventsStep(old(log), before, log, incoming, i);
        i := i + 1;
      }
      assert incoming[..|incoming|] == incoming;
    }

  }
}
