/**
  The task handler (`POST /tasks`): read the body (`req.body || {}`), require a
  truthy `title`, build the record with the JavaScript defaulting rules, then
  store it, publish its event to the topic and send the same event to the queue,
  stopping at the first failure. The generated id and the current time are
  parameters.
 */
module Tasks {
  import opened Types
  import opened Names
  import opened Backend

  /** The fields of a JSON request body the handler destructures. */
  datatype TaskRequest = TaskRequest(taskId: JsValue, title: JsValue, description: JsValue, imageKey: JsValue)

  const NoFields := TaskRequest(Undefined, Undefined, Undefined, Undefined)

  /** `req.body || {}`: a missing body reads as an object without fields. */
  function Fields(body: Option<TaskRequest>): TaskRequest
  {
    match body
    case None => NoFields
    case Some(fields) => fields
  }

  /** The record: a destructuring default for `taskId` (`id` is used only when the
      field is absent), `description || ''`, `imageKey || null`, and the time. */
  function BuildItem(req: TaskRequest, id: string, now: string): TaskItem
    requires Truthy(req.title)
  {
    TaskItem(
      if req.taskId.Undefined? then Str(id) else req.taskId,
      req.title.s,
      if Truthy(req.description) then req.description.s else "",
      if Truthy(req.imageKey) then Some(req.imageKey.s) else None,
      now)
  }

  /** The event both channels carry. */
  function EventOf(item: TaskItem): Envelope
  {
    Envelope(TaskCreatedKind, item)
  }

  const TitleRequired := Failure(400, "title is required")
  const TaskFailed := Failure(500, "Task creation failed")

  /** `POST /tasks` on the backend state `s`. */
  function HandleTasks(s: State, body: Option<TaskRequest>, id: string, now: string): Handled
  {
    var req := Fields(body);
    if !Truthy(req.title) then Handled(s, TitleRequired)
    else
      var item := BuildItem(req, id, now);
      var topicArn := TaskTopicArn(s.env.region);
      var queueUrl := TaskQueueUrl(s.env.endpoint);
      var s1 := s.(trace := s.trace + [Call(Op.Put, TableName)]);
      match s.dynamo.Put(item, s.env)
      case None => Handled(s1, TaskFailed)
      case Some(stored) =>
        var s2 := s1.(dynamo := stored, trace := s1.trace + [Call(Op.Publish, topicArn)]);
        match s.sns.Publish(topicArn, EventOf(item), s.env)
        case None => Handled(s2, TaskFailed)
        case Some(published) =>
          var s3 := s2.(sns := published, trace := s2.trace + [Call(Op.SendMessage, queueUrl)]);
          match s.sqs.SendMessage(queueUrl, EventOf(item), s.env)
          case None => Handled(s3, TaskFailed)
          case Some(sent) => Handled(s3.(sqs := sent), TaskCreated(item))
  }

  // ----- the record -----

  /** The defaulting rules: an explicitly supplied `taskId` is kept, even `null` or `""`,
      and the id is used only when the field is absent; a falsy `description` becomes
      `""` and a falsy `imageKey` becomes `null`; the title is the one given. */
  lemma BuildItemDefaults(req: TaskRequest, id: string, now: string)
    requires Truthy(req.title)
    ensures var item := BuildItem(req, id, now);
      && (item.taskId == Str(id) <==> req.taskId.Undefined? || req.taskId == Str(id))
      && (!req.taskId.Undefined? ==> item.taskId == req.taskId)
      && Str(item.title) == req.title
      && (item.description == "" <==> !Truthy(req.description))
      && (Truthy(req.description) ==> Str(item.description) == req.description)
      && (item.imageKey.None? <==> !Truthy(req.imageKey))
      && (item.imageKey.Some? ==> Str(item.imageKey.value) == req.imageKey)
      && item.createdAt == now
  {
  }

  // ----- the handler -----

  /** Validation comes first: without a truthy title the response is 400 and no call is
      made; with one it never is 400. */
  lemma TitleValidation(s: State, body: Option<TaskRequest>, id: string, now: string)
    ensures var h := HandleTasks(s, body, id, now);
      && (h.response == TitleRequired <==> !Truthy(Fields(body).title))
      && (!Truthy(Fields(body).title) ==> h.after == s)
  {
  }

  /** The effects run as put, publish, send, each only after the previous one succeeded:
      the calls made are a prefix of that order, the response is `{ok, task}` exactly when
      all three succeeded and 500 otherwise. A failed put publishes nothing; a failed
      publish leaves the item stored and sends nothing; a failed send leaves the item
      stored and the event published, with nothing enqueued. On every path the tables,
      topics, subscriptions and queues stay as they were. */
  lemma EffectOrder(s: State, body: Option<TaskRequest>, id: string, now: string)
    requires Truthy(Fields(body).title)
    ensures var h := HandleTasks(s, body, id, now);
      var item := BuildItem(Fields(body), id, now);
      var calls := h.after.trace[|s.trace|..];
      var order := [Call(Op.Put, TableName), Call(Op.Publish, TaskTopicArn(s.env.region)),
                    Call(Op.SendMessage, TaskQueueUrl(s.env.endpoint))];
      var putOk := s.dynamo.Put(item, s.env).Some?;
      var publishOk := s.sns.Publish(TaskTopicArn(s.env.region), EventOf(item), s.env).Some?;
      var sendOk := s.sqs.SendMessage(TaskQueueUrl(s.env.endpoint), EventOf(item), s.env).Some?;
      && 1 <= |calls| <= 3 && calls == order[..|calls|]
      && (|calls| >= 2 <==> putOk)
      && (|calls| == 3 <==> putOk && publishOk)
      && (h.response == TaskCreated(item) <==> putOk && publishOk && sendOk)
      && (h.response != TaskCreated(item) ==> h.response == TaskFailed)
      && (!putOk ==> h.after.dynamo == s.dynamo && h.after.sns == s.sns && h.after.sqs == s.sqs)
      && (putOk && !publishOk ==> h.after.dynamo.items == s.dynamo.items[item.taskId.s := item]
                                  && h.after.sns == s.sns && h.after.sqs == s.sqs)
      && (putOk && publishOk && !sendOk ==>
            && h.after.dynamo.items == s.dynamo.items[item.taskId.s := item]
            && h.after.sns.published == s.sns.published + [Message(TaskTopicArn(s.env.region), EventOf(item))]
            && h.after.sqs == s.sqs)
      && h.after.s3 == s.s3 && h.after.env == s.env
      && h.after.dynamo.keys == s.dynamo.keys
      && h.after.sns.topics == s.sns.topics && h.after.sns.subscriptions == s.sns.subscriptions
      && h.after.sqs.queues == s.sqs.queues
  {
    var h := HandleTasks(s, body, id, now);
    var calls := h.after.trace[|s.trace|..];
    var item := BuildItem(Fields(body), id, now);
    var s1 := s.trace + [Call(Op.Put, TableName)];
    var s2 := s1 + [Call(Op.Publish, TaskTopicArn(s.env.region))];
    assert s1[|s.trace|..] == [Call(Op.Put, TableName)];
    assert s2[|s.trace|..] == [Call(Op.Put, TableName), Call(Op.Publish, TaskTopicArn(s.env.region))];
    assert (s2 + [Call(Op.SendMessage, TaskQueueUrl(s.env.endpoint))])[|s.trace|..] ==
      [Call(Op.Put, TableName), Call(Op.Publish, TaskTopicArn(s.env.region)), Call(Op.SendMessage, TaskQueueUrl(s.env.endpoint))];
  }

  /** On success the item is stored under its id, and the topic and the queue each received
      exactly one new message carrying the same envelope `{TASK_CREATED, item}` with that
      same item, at the `task-events` ARN and the `task-queue` URL; the response returns it. */
  lemma FanOutPayload(s: State, body: Option<TaskRequest>, id: string, now: string)
    requires HandleTasks(s, body, id, now).response.TaskCreated?
    ensures var h := HandleTasks(s, body, id, now);
      var item := h.response.task;
      var event := Envelope(TaskCreatedKind, item);
      && Truthy(Fields(body).title) && item == BuildItem(Fields(body), id, now)
      && item.taskId.Str? && h.after.dynamo.items == s.dynamo.items[item.taskId.s := item]
      && h.after.sns.published == s.sns.published + [Message(TopicArnOf(s.env.region, TopicName), event)]
      && h.after.sqs.enqueued == s.sqs.enqueued + [Message(QueueUrlOf(s.env.endpoint, QueueName), event)]
      && h.after.sns.published[|s.sns.published|].body == h.after.sqs.enqueued[|s.sqs.enqueued|].body
  {
    HandlerTargetsAreBootstrapNames(s.env.region, s.env.endpoint);
  }

  /** An explicit `null` or empty `taskId` is not replaced by a generated one, and the
      table store refuses such a key: the request fails with 500 after the put. */
  lemma NullTaskIdFails(s: State, req: TaskRequest, id: string, now: string)
    requires Truthy(req.title)
    requires req.taskId == Null || req.taskId == Str("")
    ensures HandleTasks(s, Some(req), id, now).response == TaskFailed
    ensures HandleTasks(s, Some(req), id, now).after == s.(trace := s.trace + [Call(Op.Put, TableName)])
  {
  }

  // ----- the imperative handler -----

  /** `POST /tasks` on the services in place. */
  method PostTasks(svc: Services, body: Option<TaskRequest>, id: string, now: string) returns (response: Response)
    modifies svc
    ensures var h := HandleTasks(old(svc.Model()), body, id, now);
      response == h.response && svc.Model() == h.after
  {
    var req := Fields(body);
    if !Truthy(req.title) {
      return TitleRequired;
    }
    var item := BuildItem(req, id, now);
    var ok := svc.Put(item);
    if !ok {
      return TaskFailed;
    }
    ok := svc.Publish(TaskTopicArn(svc.env.region), EventOf(item));
    if !ok {
      return TaskFailed;
    }
    ok := svc.SendMessage(TaskQueueUrl(svc.env.endpoint), EventOf(item));
    if !ok {
      return TaskFailed;
    }
    response := TaskCreated(item);
  }
}
