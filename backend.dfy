/**
  The cloud services the server talks to, each reduced to the state the
  server's calls read and write: the table store, the object store, the topic
  service and the queue service. A call whose kind is in `env.faults` fails and
  changes nothing. Each service is a value whose member functions give the
  meaning of its calls; `Services` holds the four services and the log of
  attempted calls in fields and performs the calls in place.
 */
module Backend {
  import opened Types
  import opened Names

  /** The kinds of call the server makes (plus `Listen`, the start of the HTTP server). */
  datatype Op =
    | ListTables | CreateTable | WaitForTable
    | HeadBucket | CreateBucket
    | CreateTopic | CreateQueue | GetQueueAttributes | SetQueueAttributes | Subscribe
    | Put | Publish | SendMessage | PutObject
    | Listen

  /** One attempted call and its main argument (a name, URL or ARN). */
  datatype Call = Call(op: Op, target: string)

  /** What the backend is given rather than what it keeps: the kinds of call that
      fail in this run, and the region and endpoint the names are built from. */
  datatype Env = Env(faults: set<Op>, region: string, endpoint: string)

  /** A call that creates something and answers with its identifier. */
  datatype Created<S> = Created(after: S, id: string)

  /** The table store: the key attribute of each table, and the items of `Tasks`.
      `items` only has a meaning while `Tasks` is among the tables; every state the
      model starts from (`Scenario.Fresh`) has no items. */
  datatype TableStore = TableStore(keys: map<string, string>, items: map<string, TaskItem>)
  {
    function ListTables(env: Env): Option<set<string>>
    {
      if Op.ListTables in env.faults then None else Some(keys.Keys)
    }

    /** Creating a table that already exists is an error of the table store. */
    function CreateTable(name: string, hashKey: string, env: Env): Option<TableStore>
    {
      if Op.CreateTable in env.faults || name in keys then None
      else Some(this.(keys := keys[name := hashKey]))
    }

    /** The readiness wait, as one call: it fails when faulted or when the table is missing. */
    predicate TableReady(name: string, env: Env)
    {
      Op.WaitForTable !in env.faults && name in keys
    }

    /** The store takes an item into `Tasks` when the table exists with hash key
        `taskId` and the item's `taskId` is a non-empty string. */
    predicate Accepts(item: TaskItem)
    {
      && TableName in keys
      && keys[TableName] == HashKey
      && item.taskId.Str?
      && item.taskId.s != ""
    }

    /** Writes an item into `Tasks`, replacing an item with the same task id. */
    function Put(item: TaskItem, env: Env): Option<TableStore>
    {
      if Op.Put in env.faults || !Accepts(item) then None
      else Some(this.(items := items[item.taskId.s := item]))
    }
  }

  /** The object store: its buckets and the objects in them. */
  datatype ObjectStore = ObjectStore(buckets: set<string>, objects: map<ObjectId, StoredObject>)
  {
    /** The existence probe: any failure (missing bucket or fault) is an error. */
    predicate HeadBucket(bucket: string, env: Env)
    {
      Op.HeadBucket !in env.faults && bucket in buckets
    }

    /** Creating a bucket the caller already owns succeeds and changes nothing. */
    function CreateBucket(bucket: string, env: Env): Option<ObjectStore>
    {
      if Op.CreateBucket in env.faults then None
      else Some(this.(buckets := buckets + {bucket}))
    }

    function PutObject(bucket: string, key: string, body: Bytes, contentType: string, env: Env): Option<ObjectStore>
    {
      if Op.PutObject in env.faults || bucket !in buckets then None
      else Some(this.(objects := objects[ObjectId(bucket, key) := StoredObject(body, contentType)]))
    }
  }

  /** The topic service: topic ARNs, subscriptions, and the messages it accepted. */
  datatype TopicService = TopicService(topics: set<string>, subscriptions: set<Subscription>, published: seq<Message>)
  {
    /** Creating a topic answers with its ARN, the existing topic's when there is one. */
    function CreateTopic(name: string, env: Env): Option<Created<TopicService>>
    {
      var arn := TopicArnOf(env.region, name);
      if Op.CreateTopic in env.faults then None
      else Some(Created(this.(topics := topics + {arn}), arn))
    }

    /** Subscribing twice with the same triple leaves one subscription. */
    function Subscribe(topicArn: string, protocol: string, target: string, env: Env): Option<TopicService>
    {
      if Op.Subscribe in env.faults || topicArn !in topics then None
      else Some(this.(subscriptions := subscriptions + {Subscription(topicArn, protocol, target)}))
    }

    function Publish(topicArn: string, body: Envelope, env: Env): Option<TopicService>
    {
      if Op.Publish in env.faults || topicArn !in topics then None
      else Some(this.(published := published + [Message(topicArn, body)]))
    }
  }

  /** The queue service: queues by URL, and the messages it accepted. */
  datatype QueueService = QueueService(queues: map<string, Queue>, enqueued: seq<Message>)
  {
    /** Creating a queue answers with its URL; an existing queue is left as it is. */
    function CreateQueue(name: string, env: Env): Option<Created<QueueService>>
    {
      var url := QueueUrlOf(env.endpoint, name);
      if Op.CreateQueue in env.faults then None
      else if url in queues then Some(Created(this, url))
      else Some(Created(this.(queues := queues[url := Queue(QueueArnOf(env.region, name), None)]), url))
    }

    /** The `QueueArn` attribute of a queue. */
    function QueueArn(url: string, env: Env): Option<string>
    {
      if Op.GetQueueAttributes in env.faults || url !in queues then None
      else Some(queues[url].arn)
    }

    /** Sets the `Policy` attribute of a queue, replacing any previous one. */
    function SetPolicy(url: string, policy: Policy, env: Env): Option<QueueService>
    {
      if Op.SetQueueAttributes in env.faults || url !in queues then None
      else Some(this.(queues := queues[url := queues[url].(policy := Some(policy))]))
    }

    function SendMessage(url: string, body: Envelope, env: Env): Option<QueueService>
    {
      if Op.SendMessage in env.faults || url !in queues then None
      else Some(this.(enqueued := enqueued + [Message(url, body)]))
    }
  }

  /** The topic forwards its messages to the queue at `queueUrl`: the queue is subscribed
      by its ARN with protocol `sqs`, and its policy lets the topic send to it. */
  predicate Delivers(sns: TopicService, sqs: QueueService, topicArn: string, queueUrl: string)
  {
    && queueUrl in sqs.queues
    && Subscription(topicArn, SqsProtocol, sqs.queues[queueUrl].arn) in sns.subscriptions
    && sqs.queues[queueUrl].policy.Some?
    && PolicyAllows(sqs.queues[queueUrl].policy.value, SendMessageAction, sqs.queues[queueUrl].arn, topicArn)
  }

  /** The four services and the log of the calls attempted so far. */
  datatype State = State(
    dynamo: TableStore,
    s3: ObjectStore,
    sns: TopicService,
    sqs: QueueService,
    trace: seq<Call>,
    env: Env)

  /** A handler's result: the backend state afterwards and the response. */
  datatype Handled = Handled(after: State, response: Response)

  /** The kinds of a sequence of calls. */
  function Ops(calls: seq<Call>): seq<Op>
  {
    seq(|calls|, i requires 0 <= i < |calls| => calls[i].op)
  }

  /** The create calls are idempotent: repeating one with the same arguments on the
      state it produced answers the same and changes nothing. Creating a table twice
      is the exception: the second create is an error. */
  lemma CreateCallsIdempotent(db: TableStore, s3: ObjectStore, sns: TopicService, sqs: QueueService,
                              name: string, topicArn: string, protocol: string, target: string, env: Env)
    ensures sns.CreateTopic(name, env).Some? ==>
      var r := sns.CreateTopic(name, env).value; r.after.CreateTopic(name, env) == Some(r)
    ensures sqs.CreateQueue(name, env).Some? ==>
      var r := sqs.CreateQueue(name, env).value; r.after.CreateQueue(name, env) == Some(r)
    ensures s3.CreateBucket(name, env).Some? ==>
      var r := s3.CreateBucket(name, env).value; r.CreateBucket(name, env) == Some(r)
    ensures sns.Subscribe(topicArn, protocol, target, env).Some? ==>
      var r := sns.Subscribe(topicArn, protocol, target, env).value; r.Subscribe(topicArn, protocol, target, env) == Some(r)
    ensures db.CreateTable(name, target, env).Some? ==>
      db.CreateTable(name, target, env).value.CreateTable(name, target, env).None?
  {
  }

  /** The services as objects whose fields the calls update in place. */
  class Services {
    var dynamo: TableStore
    var s3: ObjectStore
    var sns: TopicService
    var sqs: QueueService
    var trace: seq<Call>
    const env: Env

    function Model(): State
      reads this
    {
      State(dynamo, s3, sns, sqs, trace, env)
    }

    constructor (s: State)
      ensures Model() == s
    {
      dynamo, s3, sns, sqs, trace, env := s.dynamo, s.s3, s.sns, s.sqs, s.trace, s.env;
    }

    method ListTables() returns (names: Option<set<string>>)
      modifies this
      ensures names == old(dynamo).ListTables(env)
      ensures Model() == old(Model()).(trace := old(trace) + [Call(Op.ListTables, "")])
    {
      trace := trace + [Call(Op.ListTables, "")];
      names := dynamo.ListTables(env);
    }

    method CreateTable(name: string, hashKey: string) returns (ok: bool)
      modifies this
      ensures var r := old(dynamo).CreateTable(name, hashKey, env);
        && ok == r.Some?
        && Model() == old(Model()).(dynamo := if ok then r.value else old(dynamo),
                                    trace := old(trace) + [Call(Op.CreateTable, name)])
    {
      trace := trace + [Call(Op.CreateTable, name)];
      var r := dynamo.CreateTable(name, hashKey, env);
      ok := r.Some?;
      if ok {
        dynamo := r.value;
      }
    }

    method WaitForTable(name: string) returns (ok: bool)
      modifies this
      ensures ok == old(dynamo).TableReady(name, env)
      ensures Model() == old(Model()).(trace := old(trace) + [Call(Op.WaitForTable, name)])
    {
      trace := trace + [Call(Op.WaitForTable, name)];
      ok := dynamo.TableReady(name, env);
    }

    method Put(item: TaskItem) returns (ok: bool)
      modifies this
      ensures var r := old(dynamo).Put(item, env);
        && ok == r.Some?
        && Model() == old(Model()).(dynamo := if ok then r.value else old(dynamo),
                                    trace := old(trace) + [Call(Op.Put, TableName)])
    {
      trace := trace + [Call(Op.Put, TableName)];
      var r := dynamo.Put(item, env);
      ok := r.Some?;
      if ok {
        dynamo := r.value;
      }
    }

    method HeadBucket(bucket: string) returns (ok: bool)
      modifies this
      ensures ok == old(s3).HeadBucket(bucket, env)
      ensures Model() == old(Model()).(trace := old(trace) + [Call(Op.HeadBucket, bucket)])
    {
      trace := trace + [Call(Op.HeadBucket, bucket)];
      ok := s3.HeadBucket(bucket, env);
    }

    method CreateBucket(bucket: string) returns (ok: bool)
      modifies this
      ensures var r := old(s3).CreateBucket(bucket, env);
        && ok == r.Some?
        && Model() == old(Model()).(s3 := if ok then r.value else old(s3),
                                    trace := old(trace) + [Call(Op.CreateBucket, bucket)])
    {
      trace := trace + [Call(Op.CreateBucket, bucket)];
      var r := s3.CreateBucket(bucket, env);
      ok := r.Some?;
      if ok {
        s3 := r.value;
      }
    }

    method PutObject(bucket: string, key: string, body: Bytes, contentType: string) returns (ok: bool)
      modifies this
      ensures var r := old(s3).PutObject(bucket, key, body, contentType, env);
        && ok == r.Some?
        && Model() == old(Model()).(s3 := if ok then r.value else old(s3),
                                    trace := old(trace) + [Call(Op.PutObject, bucket)])
    {
      trace := trace + [Call(Op.PutObject, bucket)];
      var r := s3.PutObject(bucket, key, body, contentType, env);
      ok := r.Some?;
      if ok {
        s3 := r.value;
      }
    }

    method CreateTopic(name: string) returns (arn: Option<string>)
      modifies this
      ensures var r := old(sns).CreateTopic(name, env);
        && arn == (if r.Some? then Some(r.value.id) else None)
        && Model() == old(Model()).(sns := if r.Some? then r.value.after else old(sns),
                                    trace := old(trace) + [Call(Op.CreateTopic, name)])
    {
      trace := trace + [Call(Op.CreateTopic, name)];
      var r := sns.CreateTopic(name, env);
      if r.Some? {
        sns := r.value.after;
        arn := Some(r.value.id);
      } else {
        arn := None;
      }
    }

    method Subscribe(topicArn: string, protocol: string, target: string) returns (ok: bool)
      modifies this
      ensures var r := old(sns).Subscribe(topicArn, protocol, target, env);
        && ok == r.Some?
        && Model() == old(Model()).(sns := if ok then r.value else old(sns),
                                    trace := old(trace) + [Call(Op.Subscribe, topicArn)])
    {
      trace := trace + [Call(Op.Subscribe, topicArn)];
      var r := sns.Subscribe(topicArn, protocol, target, env);
      ok := r.Some?;
      if ok {
        sns := r.value;
      }
    }

    method Publish(topicArn: string, body: Envelope) returns (ok: bool)
      modifies this
      ensures var r := old(sns).Publish(topicArn, body, env);
        && ok == r.Some?
        && Model() == old(Model()).(sns := if ok then r.value else old(sns),
                                    trace := old(trace) + [Call(Op.Publish, topicArn)])
    {
      trace := trace + [Call(Op.Publish, topicArn)];
      var r := sns.Publish(topicArn, body, env);
      ok := r.Some?;
      if ok {
        sns := r.value;
      }
    }

    method CreateQueue(name: string) returns (url: Option<string>)
      modifies this
      ensures var r := old(sqs).CreateQueue(name, env);
        && url == (if r.Some? then Some(r.value.id) else None)
        && Model() == old(Model()).(sqs := if r.Some? then r.value.after else old(sqs),
                                    trace := old(trace) + [Call(Op.CreateQueue, name)])
    {
      trace := trace + [Call(Op.CreateQueue, name)];
      var r := sqs.CreateQueue(name, env);
      if r.Some? {
        sqs := r.value.after;
        url := Some(r.value.id);
      } else {
        url := None;
      }
    }

    method GetQueueAttributes(url: string) returns (arn: Option<string>)
      modifies this
      ensures arn == old(sqs).QueueArn(url, env)
      ensures Model() == old(Model()).(trace := old(trace) + [Call(Op.GetQueueAttributes, url)])
    {
      trace := trace + [Call(Op.GetQueueAttributes, url)];
      arn := sqs.QueueArn(url, env);
    }

    method SetQueueAttributes(url: string, policy: Policy) returns (ok: bool)
      modifies this
      ensures var r := old(sqs).SetPolicy(url, policy, env);
        && ok == r.Some?
        && Model() == old(Model()).(sqs := if ok then r.value else old(sqs),
                                    trace := old(trace) + [Call(Op.SetQueueAttributes, url)])
    {
      trace := trace + [Call(Op.SetQueueAttributes, url)];
      var r := sqs.SetPolicy(url, policy, env);
      ok := r.Some?;
      if ok {
        sqs := r.value;
      }
    }

    method SendMessage(url: string, body: Envelope) returns (ok: bool)
      modifies this
      ensures var r := old(sqs).SendMessage(url, body, env);
        && ok == r.Some?
        && Model() == old(Model()).(sqs := if ok then r.value else old(sqs),
                                    trace := old(trace) + [Call(Op.SendMessage, url)])
    {
      trace := trace + [Call(Op.SendMessage, url)];
      var r := sqs.SendMessage(url, body, env);
      ok := r.Some?;
      if ok {
        sqs := r.value;
      }
    }

    /** Starting the HTTP server, as the last call of the start-up. */
    method Listen(port: string)
      modifies this
      ensures Model() == old(Model()).(trace := old(trace) + [Call(Op.Listen, port)])
    {
      trace := trace + [Call(Op.Listen, port)];
    }
  }
}
