/**
  What reaches the queue, and a whole run. A task's event reaches `task-queue`
  once directly (`sendMessage`) and once more through the topic when the topic
  delivers to the queue, which the bootstrap sets up: with both wired, every
  task is enqueued twice. The run starts the server on empty infrastructure,
  uploads an image and creates a task that refers to it.
 */
module Scenario {
  import opened Types
  import opened Names
  import opened Backend
  import opened Bootstrap
  import opened Tasks
  import opened Upload

  /** What arrives at a queue: an envelope sent to it directly, or the notification the
      topic service forwards for an envelope published to `topicArn`. */
  datatype Arrival = Direct(event: Envelope) | ViaTopic(topicArn: string, event: Envelope)

  /** The envelopes sent straight to the queue at `url`. */
  function DirectTo(msgs: seq<Message>, url: string): multiset<Arrival>
  {
    if |msgs| == 0 then multiset{}
    else
      var last := msgs[|msgs| - 1];
      DirectTo(msgs[..|msgs| - 1], url) + if last.target == url then multiset{Direct(last.body)} else multiset{}
  }

  /** The envelopes the topic service forwards to the queue at `url`: those published
      to a topic that delivers there. */
  function ForwardedTo(msgs: seq<Message>, sns: TopicService, sqs: QueueService, url: string): multiset<Arrival>
  {
    if |msgs| == 0 then multiset{}
    else
      var last := msgs[|msgs| - 1];
      ForwardedTo(msgs[..|msgs| - 1], sns, sqs, url)
        + if Delivers(sns, sqs, last.target, url) then multiset{ViaTopic(last.target, last.body)} else multiset{}
  }

  /** Every envelope that arrives at the queue at `url`, with its multiplicity. */
  function Arrivals(s: State, url: string): multiset<Arrival>
  {
    DirectTo(s.sqs.enqueued, url) + ForwardedTo(s.sns.published, s.sns, s.sqs, url)
  }

  /** Forwarding depends only on the subscriptions and the queues. */
  lemma {:induction false} ForwardedFrame(msgs: seq<Message>, sns: TopicService, sqs: QueueService,
                                         sns': TopicService, sqs': QueueService, url: string)
    requires sns'.subscriptions == sns.subscriptions && sqs'.queues == sqs.queues
    ensures ForwardedTo(msgs, sns', sqs', url) == ForwardedTo(msgs, sns, sqs, url)
    decreases |msgs|
  {
    if |msgs| > 0 {
      ForwardedFrame(msgs[..|msgs| - 1], sns, sqs, sns', sqs', url);
    }
  }

  /** A created task reaches the queue once by `sendMessage`, and once more exactly when
      the topic delivers to the queue; nothing else arrives. */
  lemma TaskArrivals(s: State, body: Option<TaskRequest>, id: string, now: string)
    requires HandleTasks(s, body, id, now).response.TaskCreated?
    ensures var h := HandleTasks(s, body, id, now);
      var url := TaskQueueUrl(s.env.endpoint);
      var e := EventOf(h.response.task);
      Arrivals(h.after, url) == Arrivals(s, url) + multiset{Direct(e)}
        + if Delivers(s.sns, s.sqs, TaskTopicArn(s.env.region), url)
          then multiset{ViaTopic(TaskTopicArn(s.env.region), e)} else multiset{}
  {
    var h := HandleTasks(s, body, id, now);
    var url := TaskQueueUrl(s.env.endpoint);
    var topicArn := TaskTopicArn(s.env.region);
    var e := EventOf(h.response.task);
    FanOutPayload(s, body, id, now);
    HandlerTargetsAreBootstrapNames(s.env.region, s.env.endpoint);
    var enq := h.after.sqs.enqueued;
    var pub := h.after.sns.published;
    assert enq[..|enq| - 1] == s.sqs.enqueued;
    assert pub[..|pub| - 1] == s.sns.published;
    assert DirectTo(enq, url) == DirectTo(s.sqs.enqueued, url) + multiset{Direct(e)};
    ForwardedFrame(s.sns.published, s.sns, s.sqs, h.after.sns, h.after.sqs, url);
    assert Delivers(h.after.sns, h.after.sqs, topicArn, url) == Delivers(s.sns, s.sqs, topicArn, url);
  }

  /** Not atomic: when the put and the publish succeed but the send fails, the client
      gets 500, yet the item is stored and the queue still receives the topic's copy
      whenever the topic delivers to it; nothing arrives directly. */
  lemma SendFailureStillForwards(s: State, body: Option<TaskRequest>, id: string, now: string)
    requires Truthy(Fields(body).title)
    requires var item := BuildItem(Fields(body), id, now);
      && s.dynamo.Put(item, s.env).Some?
      && s.sns.Publish(TaskTopicArn(s.env.region), EventOf(item), s.env).Some?
      && s.sqs.SendMessage(TaskQueueUrl(s.env.endpoint), EventOf(item), s.env).None?
    ensures var h := HandleTasks(s, body, id, now);
      var item := BuildItem(Fields(body), id, now);
      var url := TaskQueueUrl(s.env.endpoint);
      var topicArn := TaskTopicArn(s.env.region);
      && h.response == TaskFailed
      && h.after.dynamo.items == s.dynamo.items[item.taskId.s := item]
      && Arrivals(h.after, url) == Arrivals(s, url)
        + if Delivers(s.sns, s.sqs, topicArn, url) then multiset{ViaTopic(topicArn, EventOf(item))} else multiset{}
  {
    var h := HandleTasks(s, body, id, now);
    var url := TaskQueueUrl(s.env.endpoint);
    var topicArn := TaskTopicArn(s.env.region);
    EffectOrder(s, body, id, now);
    var pub := h.after.sns.published;
    assert pub[..|pub| - 1] == s.sns.published;
    ForwardedFrame(s.sns.published, s.sns, s.sqs, h.after.sns, h.after.sqs, url);
    assert Delivers(h.after.sns, h.after.sqs, topicArn, url) == Delivers(s.sns, s.sqs, topicArn, url);
  }

  /** Empty infrastructure, no faults. */
  function Fresh(region: string, endpoint: string): State
  {
    State(TableStore(map[], map[]), ObjectStore({}, map[]), TopicService({}, {}, []),
          QueueService(map[], []), [], Env({}, region, endpoint))
  }

  /** On a fresh backend the start-up creates the table with key `taskId`, the bucket, and
      the topic delivering to the queue, and nothing has been stored or sent yet. */
  lemma FreshStartup(region: string, endpoint: string, port: string)
    ensures var s := Startup(Fresh(region, endpoint), port);
      && s.dynamo == TableStore(map[TableName := HashKey], map[])
      && s.s3 == ObjectStore({BucketName}, map[])
      && s.sns.published == [] && s.sqs.enqueued == []
      && TaskTopicArn(region) in s.sns.topics
      && Delivers(s.sns, s.sqs, TaskTopicArn(region), TaskQueueUrl(endpoint))
      && s.env == Env({}, region, endpoint)
  {
    var s0 := Fresh(region, endpoint);
    BootstrapIsolatesSteps(s0);
    TableStepCreatesOnlyWhenMissing(s0.dynamo, s0.env);
    BucketStepCreatesOnProbeError(s0.s3, s0.env);
    BootstrapSucceedsWithoutFaults(s0);
    ChannelStepShortCircuits(s0.sns, s0.sqs, s0.env);
    ChannelStepWiring(s0.sns, s0.sqs, s0.env);
    HandlerTargetsAreBootstrapNames(region, endpoint);
  }

  /** After the start-up, a base64 upload stores the object under `images/<id>.jpg` and
      changes nothing else the task handler reads. */
  lemma FreshUpload(region: string, endpoint: string, port: string, image: string,
                    imageId: string, decode: string -> Bytes)
    requires image != ""
    ensures var s := Startup(Fresh(region, endpoint), port);
      var key := ImageKey(imageId);
      var u := HandleUpload(s, UploadRequest(None, Some(UploadBody(Str(image)))), imageId, decode);
      && u.response == Uploaded(BucketName, key, ImageUrl(endpoint, key))
      && ObjectId(BucketName, key) in u.after.s3.objects
      && u.after.dynamo == TableStore(map[TableName := HashKey], map[])
      && u.after.sns.published == [] && u.after.sqs.enqueued == []
      && TaskTopicArn(region) in u.after.sns.topics
      && Delivers(u.after.sns, u.after.sqs, TaskTopicArn(region), TaskQueueUrl(endpoint))
      && u.after.env == Env({}, region, endpoint)
  {
    var s := Startup(Fresh(region, endpoint), port);
    FreshStartup(region, endpoint, port);
    var req := UploadRequest(None, Some(UploadBody(Str(image))));
    UploadOutcome(s, req, imageId, decode);
    PayloadPresence(req, decode);
  }

  /** On a backend with the empty `Tasks` table, the topic delivering to the queue, nothing
      sent yet and no faults, a task with a title and an image key is created with its
      defaults and its event arrives at the queue twice. */
  lemma TaskOnReadyBackend(u: State, key: string, taskId: string, title: string, now: string)
    requires title != "" && taskId != "" && key != ""
    requires u.dynamo == TableStore(map[TableName := HashKey], map[])
    requires u.sns.published == [] && u.sqs.enqueued == [] && u.env.faults == {}
    requires TaskTopicArn(u.env.region) in u.sns.topics
    requires Delivers(u.sns, u.sqs, TaskTopicArn(u.env.region), TaskQueueUrl(u.env.endpoint))
    ensures var t := HandleTasks(u, Some(TaskRequest(Undefined, Str(title), Undefined, Str(key))), taskId, now);
      var item := TaskItem(Str(taskId), title, "", Some(key), now);
      && t.response == TaskCreated(item)
      && t.after.dynamo.items == map[taskId := item]
      && t.after.s3 == u.s3
      && Arrivals(t.after, TaskQueueUrl(u.env.endpoint))
           == multiset{Direct(EventOf(item)), ViaTopic(TaskTopicArn(u.env.region), EventOf(item))}
  {
    var body := Some(TaskRequest(Undefined, Str(title), Undefined, Str(key)));
    EffectOrder(u, body, taskId, now);
    TaskArrivals(u, body, taskId, now);
  }

  /** The whole run: after the start-up, a base64 upload succeeds and a task naming the
      uploaded key is created with its defaults; the item refers to the stored object, and
      its event arrives at the queue twice. */
  lemma UploadThenTask(region: string, endpoint: string, port: string, image: string,
                       imageId: string, taskId: string, title: string, now: string, decode: string -> Bytes)
    requires image != "" && title != "" && taskId != ""
    ensures var s := Startup(Fresh(region, endpoint), port);
      var key := ImageKey(imageId);
      var u := HandleUpload(s, UploadRequest(None, Some(UploadBody(Str(image)))), imageId, decode);
      var t := HandleTasks(u.after, Some(TaskRequest(Undefined, Str(title), Undefined, Str(key))), taskId, now);
      var item := TaskItem(Str(taskId), title, "", Some(key), now);
      && u.response == Uploaded(BucketName, key, ImageUrl(endpoint, key))
      && t.response == TaskCreated(item)
      && t.after.dynamo.items == map[taskId := item]
      && ObjectId(BucketName, key) in t.after.s3.objects
      && Arrivals(t.after, TaskQueueUrl(endpoint))
           == multiset{Direct(EventOf(item)), ViaTopic(TaskTopicArn(region), EventOf(item))}
  {
    FreshUpload(region, endpoint, port, image, imageId, decode);
    var s := Startup(Fresh(region, endpoint), port);
    var u := HandleUpload(s, UploadRequest(None, Some(UploadBody(Str(image)))), imageId, decode);
    TaskOnReadyBackend(u.after, ImageKey(imageId), taskId, title, now);
  }
}
