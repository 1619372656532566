/**
  The start-up bootstrap (`ensureResources`): three ensure-steps, each with its
  own failure handler, run one after the other, followed by the start of the
  HTTP server whatever they did. Each step is a function of the one service it
  works on; `EnsureAll` runs them in order on the whole state. The lemmas state
  what each step creates, that the topic/queue chain stops at its first
  failure, how the queue policy and the subscription are wired, that a failing
  step never keeps a later one from running, and that a second run changes
  nothing. The methods perform the steps on `Services` and are proved to do
  what the functions say.
 */
module Bootstrap {
  import opened Types
  import opened Names
  import opened Backend

  /** The outcome of one ensure-step on its service: the service afterwards, the calls
      made, in order, and whether the step completed without a warning. */
  datatype Step<S> = Step(after: S, calls: seq<Call>, ok: bool)

  /** The outcome of the topic/queue step, which works on two services. */
  datatype Channels = Channels(sns: TopicService, sqs: QueueService, calls: seq<Call>, ok: bool)

  /** Which of the three steps completed without a warning. */
  datatype Report = Report(table: bool, bucket: bool, channels: bool)

  datatype Bootstrapped = Bootstrapped(after: State, report: Report)

  /** Table step: list the tables; only when `Tasks` is missing, create it with hash key
      `taskId` and wait until it exists. Any failure ends the step. */
  function TableStep(db: TableStore, env: Env): Step<TableStore>
  {
    var list := Call(Op.ListTables, "");
    var create := Call(Op.CreateTable, TableName);
    match db.ListTables(env)
    case None => Step(db, [list], false)
    case Some(names) =>
      if TableName in names then Step(db, [list], true)
      else
        match db.CreateTable(TableName, HashKey, env)
        case None => Step(db, [list, create], false)
        case Some(created) =>
          Step(created, [list, create, Call(Op.WaitForTable, TableName)], created.TableReady(TableName, env))
  }

  /** Bucket step: probe the bucket; on any probe error, create it. */
  function BucketStep(s3: ObjectStore, env: Env): Step<ObjectStore>
  {
    var head := Call(Op.HeadBucket, BucketName);
    var create := Call(Op.CreateBucket, BucketName);
    if s3.HeadBucket(BucketName, env) then Step(s3, [head], true)
    else
      match s3.CreateBucket(BucketName, env)
      case None => Step(s3, [head, create], false)
      case Some(created) => Step(created, [head, create], true)
  }

  /** Topic/queue step: createTopic, createQueue, getQueueAttributes, setQueueAttributes
      with the conditional policy, subscribe; the first failure ends the step. */
  function ChannelStep(sns: TopicService, sqs: QueueService, env: Env): Channels
  {
    var c1 := Call(Op.CreateTopic, TopicName);
    var c2 := Call(Op.CreateQueue, QueueName);
    match sns.CreateTopic(TopicName, env)
    case None => Channels(sns, sqs, [c1], false)
    case Some(topic) =>
      match sqs.CreateQueue(QueueName, env)
      case None => Channels(topic.after, sqs, [c1, c2], false)
      case Some(queue) =>
        var c3 := Call(Op.GetQueueAttributes, queue.id);
        var c4 := Call(Op.SetQueueAttributes, queue.id);
        var c5 := Call(Op.Subscribe, topic.id);
        match queue.after.QueueArn(queue.id, env)
        case None => Channels(topic.after, queue.after, [c1, c2, c3], false)
        case Some(queueArn) =>
          match queue.after.SetPolicy(queue.id, QueuePolicy(queueArn, topic.id), env)
          case None => Channels(topic.after, queue.after, [c1, c2, c3, c4], false)
          case Some(withPolicy) =>
            match topic.after.Subscribe(topic.id, SqsProtocol, queueArn, env)
            case None => Channels(topic.after, withPolicy, [c1, c2, c3, c4, c5], false)
            case Some(subscribed) => Channels(subscribed, withPolicy, [c1, c2, c3, c4, c5], true)
  }

  /** The three steps in order on the whole state, each logging its calls. */
  function EnsureAll(s: State): Bootstrapped
  {
    var t := TableStep(s.dynamo, s.env);
    var s1 := s.(dynamo := t.after, trace := s.trace + t.calls);
    var b := BucketStep(s1.s3, s1.env);
    var s2 := s1.(s3 := b.after, trace := s1.trace + b.calls);
    var c := ChannelStep(s2.sns, s2.sqs, s2.env);
    var s3 := s2.(sns := c.sns, sqs := c.sqs, trace := s2.trace + c.calls);
    Bootstrapped(s3, Report(t.ok, b.ok, c.ok))
  }

  /** Process start: the bootstrap, then `listen`, whatever the bootstrap did. */
  function Startup(s: State, port: string): State
  {
    var a := EnsureAll(s).after;
    a.(trace := a.trace + [Call(Op.Listen, port)])
  }

  /** The calls of the topic/queue step, in order. */
  const ChainOps := [Op.CreateTopic, Op.CreateQueue, Op.GetQueueAttributes, Op.SetQueueAttributes, Op.Subscribe]

  // ----- the table step -----

  /** `createTable('Tasks', taskId)` is attempted exactly when the listing succeeded and
      did not contain `Tasks`; an existing table is never touched; the step succeeds
      exactly when the table was there or was created and became ready. */
  lemma TableStepCreatesOnlyWhenMissing(db: TableStore, env: Env)
    ensures var r := TableStep(db, env);
      && 1 <= |r.calls| && r.calls[0] == Call(Op.ListTables, "")
      && (forall i :: 0 <= i < |r.calls| ==> r.calls[i].op in {Op.ListTables, Op.CreateTable, Op.WaitForTable})
      && (Call(Op.CreateTable, TableName) in r.calls <==> Op.ListTables !in env.faults && TableName !in db.keys)
      && (TableName in db.keys ==> r.after == db)
      && r.after.items == db.items
      && r.after.keys == (if Op.ListTables !in env.faults && TableName !in db.keys && Op.CreateTable !in env.faults
                          then db.keys[TableName := HashKey] else db.keys)
    ensures TableStep(db, env).ok <==>
      Op.ListTables !in env.faults && (TableName in db.keys || (Op.CreateTable !in env.faults && Op.WaitForTable !in env.faults))
    ensures TableStep(db, env).ok ==> TableName in TableStep(db, env).after.keys
  {
    var r := TableStep(db, env);
    if Call(Op.CreateTable, TableName) in r.calls {
      var i :| 0 <= i < |r.calls| && r.calls[i] == Call(Op.CreateTable, TableName);
      assert i == 1;
    }
  }

  // ----- the bucket step -----

  /** `createBucket` is attempted exactly when `headBucket` failed, whatever the reason;
      the step succeeds exactly when the probe or the creation did. */
  lemma BucketStepCreatesOnProbeError(s3: ObjectStore, env: Env)
    ensures var r := BucketStep(s3, env);
      && 1 <= |r.calls| && r.calls[0] == Call(Op.HeadBucket, BucketName)
      && (forall i :: 0 <= i < |r.calls| ==> r.calls[i].op in {Op.HeadBucket, Op.CreateBucket})
      && (Call(Op.CreateBucket, BucketName) in r.calls <==> !s3.HeadBucket(BucketName, env))
      && r.after.objects == s3.objects
      && r.after.buckets == (if !s3.HeadBucket(BucketName, env) && Op.CreateBucket !in env.faults
                             then s3.buckets + {BucketName} else s3.buckets)
    ensures BucketStep(s3, env).ok <==> s3.HeadBucket(BucketName, env) || Op.CreateBucket !in env.faults
    ensures BucketStep(s3, env).ok ==> BucketName in BucketStep(s3, env).after.buckets
  {
    var r := BucketStep(s3, env);
    if !s3.HeadBucket(BucketName, env) {
      assert r.calls[1] == Call(Op.CreateBucket, BucketName);
    }
  }

  // ----- the topic/queue step -----

  /** The chain is strictly sequential and stops at its first failing call: the calls
      made are a prefix of the chain, every call but the last succeeded, the last one
      failed unless all five were made and succeeded, and nothing is subscribed then. */
  lemma ChannelStepShortCircuits(sns: TopicService, sqs: QueueService, env: Env)
    ensures var r := ChannelStep(sns, sqs, env);
      && 1 <= |r.calls| <= |ChainOps|
      && Ops(r.calls) == ChainOps[..|r.calls|]
      && (forall i :: 0 <= i < |r.calls| - 1 ==> ChainOps[i] !in env.faults)
      && (r.ok <==> |r.calls| == |ChainOps| && ChainOps[|ChainOps| - 1] !in env.faults)
      && (!r.ok ==> ChainOps[|r.calls| - 1] in env.faults)
      && (!r.ok ==> r.sns.subscriptions == sns.subscriptions)
  {
  }

  /** On success the queue carries exactly the conditional policy (send, on the queue's ARN,
      only from the topic's ARN) and the topic is subscribed by the queue's ARN with
      protocol `sqs`, so the topic delivers to the queue; nothing else changes. */
  lemma ChannelStepWiring(sns: TopicService, sqs: QueueService, env: Env)
    requires ChannelStep(sns, sqs, env).ok
    ensures var r := ChannelStep(sns, sqs, env);
      var topicArn := TopicArnOf(env.region, TopicName);
      var url := QueueUrlOf(env.endpoint, QueueName);
      var queueArn := if url in sqs.queues then sqs.queues[url].arn else QueueArnOf(env.region, QueueName);
      && r.sns == sns.(topics := sns.topics + {topicArn},
                       subscriptions := sns.subscriptions + {Subscription(topicArn, SqsProtocol, queueArn)})
      && r.sqs == sqs.(queues := sqs.queues[url := Queue(queueArn, Some(QueuePolicy(queueArn, topicArn)))])
      && Delivers(r.sns, r.sqs, topicArn, url)
      && (forall action, resource, source :: PolicyAllows(r.sqs.queues[url].policy.value, action, resource, source)
            <==> action == SendMessageAction && resource == queueArn && source == topicArn)
  {
    var r := ChannelStep(sns, sqs, env);
    var topicArn := TopicArnOf(env.region, TopicName);
    var url := QueueUrlOf(env.endpoint, QueueName);
    var queueArn := if url in sqs.queues then sqs.queues[url].arn else QueueArnOf(env.region, QueueName);
    assert r.sqs.queues[url].policy.value == QueuePolicy(queueArn, topicArn);
    forall action, resource, source
      ensures PolicyAllows(r.sqs.queues[url].policy.value, action, resource, source)
        <==> action == SendMessageAction && resource == queueArn && source == topicArn
    {
      QueuePolicyGrantsOnlyTopic(queueArn, topicArn, action, resource, source);
    }
  }

  // ----- idempotence of each step -----

  /** A second table step leaves the tables as the first left them; after a successful
      first step it only lists the tables. */
  lemma TableStepIdempotent(db: TableStore, env: Env)
    ensures var r := TableStep(db, env); var r2 := TableStep(r.after, env);
      && r2.after == r.after
      && (r.ok ==> r2 == Step(r.after, [Call(Op.ListTables, "")], true))
  {
    TableStepCreatesOnlyWhenMissing(db, env);
    TableStepCreatesOnlyWhenMissing(TableStep(db, env).after, env);
  }

  /** A second bucket step leaves the buckets as the first left them; after a successful
      first step with a working probe it only probes. */
  lemma BucketStepIdempotent(s3: ObjectStore, env: Env)
    ensures var r := BucketStep(s3, env); var r2 := BucketStep(r.after, env);
      && r2.after == r.after
      && (r.ok && Op.HeadBucket !in env.faults ==> r2 == Step(r.after, [Call(Op.HeadBucket, BucketName)], true))
  {
    BucketStepCreatesOnProbeError(s3, env);
  }

  /** A second topic/queue step, whatever the first did, leaves both services as the
      first left them. */
  lemma ChannelStepIdempotent(sns: TopicService, sqs: QueueService, env: Env)
    ensures var r := ChannelStep(sns, sqs, env); var r2 := ChannelStep(r.sns, r.sqs, env);
      r2.sns == r.sns && r2.sqs == r.sqs && r2.ok == r.ok && r2.calls == r.calls
  {
    var r := ChannelStep(sns, sqs, env);
    var topicArn := TopicArnOf(env.region, TopicName);
    var url := QueueUrlOf(env.endpoint, QueueName);
    if Op.CreateTopic !in env.faults {
      assert r.sns.CreateTopic(TopicName, env) == Some(Created(r.sns, topicArn));
      if Op.CreateQueue !in env.faults {
        assert r.sqs.CreateQueue(QueueName, env) == Some(Created(r.sqs, url));
        if Op.GetQueueAttributes !in env.faults {
          var queueArn := r.sqs.queues[url].arn;
          assert r.sqs.QueueArn(url, env) == Some(queueArn);
          if Op.SetQueueAttributes !in env.faults {
            assert r.sqs.queues[url].policy == Some(QueuePolicy(queueArn, topicArn));
            assert r.sqs.queues[url := r.sqs.queues[url]] == r.sqs.queues;
            assert r.sqs.SetPolicy(url, QueuePolicy(queueArn, topicArn), env) == Some(r.sqs);
            if Op.Subscribe !in env.faults {
              assert r.sns.Subscribe(topicArn, SqsProtocol, queueArn, env) == Some(r.sns);
            }
          }
        }
      }
    }
  }

  // ----- the whole bootstrap -----

  /** Failure isolation: each step does exactly what it would do alone on the state the
      bootstrap started from, so a failure in one never changes what a later one does;
      the calls of the three steps follow one another in the log. */
  lemma BootstrapIsolatesSteps(s: State)
    ensures var b := EnsureAll(s);
      var t := TableStep(s.dynamo, s.env);
      var k := BucketStep(s.s3, s.env);
      var c := ChannelStep(s.sns, s.sqs, s.env);
      && b.report == Report(t.ok, k.ok, c.ok)
      && b.after == State(t.after, k.after, c.sns, c.sqs, s.trace + (t.calls + k.calls + c.calls), s.env)
  {
    var t := TableStep(s.dynamo, s.env);
    var k := BucketStep(s.s3, s.env);
    var c := ChannelStep(s.sns, s.sqs, s.env);
    assert s.trace + t.calls + k.calls + c.calls == s.trace + (t.calls + k.calls + c.calls);
  }

  /** Every step is attempted, whatever the earlier ones did: the bootstrap's calls begin
      with the table listing, and the bucket probe and the topic creation come right after
      the calls of the step before them. */
  lemma BootstrapAttemptsEveryStep(s: State)
    ensures var calls := EnsureAll(s).after.trace[|s.trace|..];
      var t := TableStep(s.dynamo, s.env);
      var k := BucketStep(s.s3, s.env);
      && |t.calls| + |k.calls| < |calls|
      && calls[0] == Call(Op.ListTables, "")
      && calls[|t.calls|] == Call(Op.HeadBucket, BucketName)
      && calls[|t.calls| + |k.calls|] == Call(Op.CreateTopic, TopicName)
  {
    BootstrapIsolatesSteps(s);
    var t := TableStep(s.dynamo, s.env);
    var k := BucketStep(s.s3, s.env);
    var c := ChannelStep(s.sns, s.sqs, s.env);
    TableStepCreatesOnlyWhenMissing(s.dynamo, s.env);
    BucketStepCreatesOnProbeError(s.s3, s.env);
    ChannelStepShortCircuits(s.sns, s.sqs, s.env);
    var calls := t.calls + k.calls + c.calls;
    assert calls[0] == t.calls[0];
    assert calls[|t.calls|] == k.calls[0];
    assert calls[|t.calls| + |k.calls|] == c.calls[0];
    assert c.calls[0].op == Op.CreateTopic;
  }

  /** Idempotence: running the bootstrap again on its own result changes no service. */
  lemma BootstrapIdempotent(s: State)
    ensures var first := EnsureAll(s); var second := EnsureAll(first.after);
      second.after == first.after.(trace := second.after.trace)
  {
    var a := EnsureAll(s).after;
    BootstrapIsolatesSteps(s);
    BootstrapIsolatesSteps(a);
    TableStepIdempotent(s.dynamo, s.env);
    BucketStepIdempotent(s.s3, s.env);
    ChannelStepIdempotent(s.sns, s.sqs, s.env);
  }

  /** The step a kind of call belongs to: 0 table, 1 bucket, 2 topic/queue, 3 none. */
  function StepOf(op: Op): nat
  {
    match op
    case ListTables | CreateTable | WaitForTable => 0
    case HeadBucket | CreateBucket => 1
    case CreateTopic | CreateQueue | GetQueueAttributes | SetQueueAttributes | Subscribe => 2
    case _ => 3
  }

  /** The calls of a whole bootstrap: never `listen`, no `createTable` when `Tasks`
      exists, no `createBucket` when the probe succeeds. */
  lemma BootstrapCalls(s: State)
    ensures var calls := EnsureAll(s).after.trace[|s.trace|..];
      && (forall i :: 0 <= i < |calls| ==> calls[i].op != Op.Listen)
      && (TableName in s.dynamo.keys ==> Call(Op.CreateTable, TableName) !in calls)
      && (s.s3.HeadBucket(BucketName, s.env) ==> Call(Op.CreateBucket, BucketName) !in calls)
  {
    var t := TableStep(s.dynamo, s.env);
    var k := BucketStep(s.s3, s.env);
    var c := ChannelStep(s.sns, s.sqs, s.env);
    BootstrapIsolatesSteps(s);
    StepKinds(s.dynamo, s.s3, s.sns, s.sqs, s.env);
    SeparateKinds(s.trace, t.calls, k.calls, c.calls, EnsureAll(s).after.trace,
                  TableName in s.dynamo.keys, s.s3.HeadBucket(BucketName, s.env));
  }

  /** Three call sequences of the three steps' kinds appended to a log: the appended
      part is never `listen`; a table step that only listed makes no `createTable`, a
      bucket step that only probed makes no `createBucket`. */
  lemma SeparateKinds(pre: seq<Call>, x: seq<Call>, y: seq<Call>, z: seq<Call>, trace: seq<Call>,
                      listedOnly: bool, probedOnly: bool)
    requires trace == pre + (x + y + z)
    requires forall i :: 0 <= i < |x| ==> StepOf(x[i].op) == 0
    requires forall i :: 0 <= i < |y| ==> StepOf(y[i].op) == 1
    requires forall i :: 0 <= i < |z| ==> StepOf(z[i].op) == 2
    requires listedOnly ==> x == [Call(Op.ListTables, "")]
    requires probedOnly ==> y == [Call(Op.HeadBucket, BucketName)]
    ensures var calls := trace[|pre|..];
      && (forall i :: 0 <= i < |calls| ==> calls[i].op != Op.Listen)
      && (listedOnly ==> Call(Op.CreateTable, TableName) !in calls)
      && (probedOnly ==> Call(Op.CreateBucket, BucketName) !in calls)
  {
    var calls := trace[|pre|..];
    assert calls == x + y + z;
    forall i | 0 <= i < |calls| ensures calls[i].op != Op.Listen && StepOf(calls[i].op) < 3 {
      if i < |x| {
        assert calls[i] == x[i];
      } else if i < |x| + |y| {
        assert calls[i] == y[i - |x|];
      } else {
        assert calls[i] == z[i - |x| - |y|];
      }
    }
    forall c | c in calls && StepOf(c.op) < 2 ensures if StepOf(c.op) == 0 then c in x else c in y {
      var i :| 0 <= i < |calls| && calls[i] == c;
      if i < |x| {
        assert calls[i] == x[i];
      } else if i < |x| + |y| {
        assert calls[i] == y[i - |x|];
      }
    }
    assert StepOf(Op.CreateTable) == 0 && StepOf(Op.CreateBucket) == 1;
  }

  /** The kinds of call each step makes, and the single call of a step that finds its
      resource in place. */
  lemma StepKinds(db: TableStore, s3: ObjectStore, sns: TopicService, sqs: QueueService, env: Env)
    ensures forall i :: 0 <= i < |TableStep(db, env).calls| ==> StepOf(TableStep(db, env).calls[i].op) == 0
    ensures forall i :: 0 <= i < |BucketStep(s3, env).calls| ==> StepOf(BucketStep(s3, env).calls[i].op) == 1
    ensures forall i :: 0 <= i < |ChannelStep(sns, sqs, env).calls| ==> StepOf(ChannelStep(sns, sqs, env).calls[i].op) == 2
    ensures TableName in db.keys ==> TableStep(db, env).calls == [Call(Op.ListTables, "")]
    ensures s3.HeadBucket(BucketName, env) ==> BucketStep(s3, env).calls == [Call(Op.HeadBucket, BucketName)]
  {
    ChannelStepShortCircuits(sns, sqs, env);
    var c := ChannelStep(sns, sqs, env);
    forall i | 0 <= i < |c.calls| ensures StepOf(c.calls[i].op) == 2 {
      assert Ops(c.calls)[i] == ChainOps[i];
    }
  }

  /** A second process start, whose calls fail independently of the first's, creates
      nothing that the first left in place: with `Tasks` present there is no
      `createTable`, with the bucket present and a working probe no `createBucket`.
      A step that succeeded the first time leaves its resource present. */
  lemma BootstrapRerunCreatesNothing(s: State, faults: set<Op>)
    ensures var first := EnsureAll(s); var a := first.after;
      var second := EnsureAll(a.(env := a.env.(faults := faults)));
      var calls := second.after.trace[|a.trace|..];
      && (first.report.table ==> TableName in a.dynamo.keys)
      && (first.report.bucket ==> BucketName in a.s3.buckets)
      && (TableName in a.dynamo.keys ==> Call(Op.CreateTable, TableName) !in calls)
      && (BucketName in a.s3.buckets && Op.HeadBucket !in faults ==> Call(Op.CreateBucket, BucketName) !in calls)
  {
    BootstrapIsolatesSteps(s);
    TableStepCreatesOnlyWhenMissing(s.dynamo, s.env);
    BucketStepCreatesOnProbeError(s.s3, s.env);
    var a := EnsureAll(s).after;
    BootstrapCalls(a.(env := a.env.(faults := faults)));
  }

  /** A topic/queue step on services that are already wired, the topic existing, the
      queue carrying the policy for its ARN and the topic, and the subscription in
      place, changes neither service, whichever of its calls fail. */
  lemma ChannelStepRerun(sns: TopicService, sqs: QueueService, env: Env)
    requires TopicArnOf(env.region, TopicName) in sns.topics
    requires QueueUrlOf(env.endpoint, QueueName) in sqs.queues
    requires var q := sqs.queues[QueueUrlOf(env.endpoint, QueueName)];
      && q.policy == Some(QueuePolicy(q.arn, TopicArnOf(env.region, TopicName)))
      && Subscription(TopicArnOf(env.region, TopicName), SqsProtocol, q.arn) in sns.subscriptions
    ensures ChannelStep(sns, sqs, env).sns == sns && ChannelStep(sns, sqs, env).sqs == sqs
  {
    var topicArn := TopicArnOf(env.region, TopicName);
    var url := QueueUrlOf(env.endpoint, QueueName);
    var q := sqs.queues[url];
    if Op.CreateTopic !in env.faults {
      assert sns.topics + {topicArn} == sns.topics;
      assert sns.CreateTopic(TopicName, env) == Some(Created(sns, topicArn));
      if Op.CreateQueue !in env.faults {
        assert sqs.CreateQueue(QueueName, env) == Some(Created(sqs, url));
        if Op.GetQueueAttributes !in env.faults {
          assert sqs.QueueArn(url, env) == Some(q.arn);
          if Op.SetQueueAttributes !in env.faults {
            assert sqs.queues[url := q] == sqs.queues;
            assert sqs.SetPolicy(url, QueuePolicy(q.arn, topicArn), env) == Some(sqs);
            if Op.Subscribe !in env.faults {
              assert sns.subscriptions + {Subscription(topicArn, SqsProtocol, q.arn)} == sns.subscriptions;
              assert sns.Subscribe(topicArn, SqsProtocol, q.arn, env) == Some(sns);
            }
          }
        }
      }
    }
  }

  /** After a bootstrap in which every step succeeded, a second process start changes no
      service, whatever fails in it. */
  lemma RerunAnyFaults(s: State, faults: set<Op>)
    requires EnsureAll(s).report == Report(true, true, true)
    ensures var a := EnsureAll(s).after;
      var b := EnsureAll(a.(env := a.env.(faults := faults))).after;
      b.dynamo == a.dynamo && b.s3 == a.s3 && b.sns == a.sns && b.sqs == a.sqs
  {
    var a := EnsureAll(s).after;
    var a2 := a.(env := a.env.(faults := faults));
    BootstrapIsolatesSteps(s);
    BootstrapIsolatesSteps(a2);
    TableStepCreatesOnlyWhenMissing(s.dynamo, s.env);
    TableStepCreatesOnlyWhenMissing(a2.dynamo, a2.env);
    BucketStepCreatesOnProbeError(s.s3, s.env);
    BucketStepCreatesOnProbeError(a2.s3, a2.env);
    assert a2.s3.buckets + {BucketName} == a2.s3.buckets;
    ChannelStepWiring(s.sns, s.sqs, s.env);
    ChannelStepRerun(a2.sns, a2.sqs, a2.env);
  }

  /** Without faults every step succeeds, whatever already exists, and afterwards the
      table and the bucket exist and the topic delivers to the queue. */
  lemma BootstrapSucceedsWithoutFaults(s: State)
    requires s.env.faults == {}
    ensures var b := EnsureAll(s);
      && b.report == Report(true, true, true)
      && TableName in b.after.dynamo.keys
      && BucketName in b.after.s3.buckets
      && Delivers(b.after.sns, b.after.sqs, TaskTopicArn(s.env.region), TaskQueueUrl(s.env.endpoint))
  {
    BootstrapIsolatesSteps(s);
    TableStepCreatesOnlyWhenMissing(s.dynamo, s.env);
    BucketStepCreatesOnProbeError(s.s3, s.env);
    ChannelStepShortCircuits(s.sns, s.sqs, s.env);
    ChannelStepWiring(s.sns, s.sqs, s.env);
    HandlerTargetsAreBootstrapNames(s.env.region, s.env.endpoint);
  }

  /** The server always starts listening, whatever failed, and only after the three
      steps: `listen` is the last call and occurs nowhere before it. */
  lemma StartupAlwaysListens(s: State, port: string)
    ensures var f := Startup(s, port); var calls := f.trace[|s.trace|..];
      && 4 <= |calls| && calls[|calls| - 1] == Call(Op.Listen, port)
      && (forall i :: 0 <= i < |calls| - 1 ==> calls[i].op != Op.Listen)
      && f.(trace := EnsureAll(s).after.trace) == EnsureAll(s).after
  {
    BootstrapCalls(s);
    var a := EnsureAll(s).after;
    var before := a.trace[|s.trace|..];
    assert Startup(s, port).trace[|s.trace|..] == before + [Call(Op.Listen, port)];
  }

  // ----- the imperative bootstrap -----

  method EnsureTable(svc: Services) returns (ok: bool)
    modifies svc
    ensures var r := TableStep(old(svc.dynamo), svc.env);
      ok == r.ok && svc.Model() == old(svc.Model()).(dynamo := r.after, trace := old(svc.trace) + r.calls)
  {
    var names := svc.ListTables();
    if names.None? {
      return false;
    }
    if TableName in names.value {
      return true;
    }
    ok := svc.CreateTable(TableName, HashKey);
    if ok {
      ok := svc.WaitForTable(TableName);
    }
  }

  method EnsureBucket(svc: Services) returns (ok: bool)
    modifies svc
    ensures var r := BucketStep(old(svc.s3), svc.env);
      ok == r.ok && svc.Model() == old(svc.Model()).(s3 := r.after, trace := old(svc.trace) + r.calls)
  {
    ok := svc.HeadBucket(BucketName);
    if !ok {
      ok := svc.CreateBucket(BucketName);
    }
  }

  method EnsureChannels(svc: Services) returns (ok: bool)
    modifies svc
    ensures var r := ChannelStep(old(svc.sns), old(svc.sqs), svc.env);
      ok == r.ok && svc.Model() == old(svc.Model()).(sns := r.sns, sqs := r.sqs, trace := old(svc.trace) + r.calls)
  {
    var topic := svc.CreateTopic(TopicName);
    if topic.None? {
      return false;
    }
    var topicArn := topic.value;
    var queue := svc.CreateQueue(QueueName);
    if queue.None? {
      return false;
    }
    var queueUrl := queue.value;
    var attrs := svc.GetQueueAttributes(queueUrl);
    if attrs.None? {
      return false;
    }
    var queueArn := attrs.value;
    ok := svc.SetQueueAttributes(queueUrl, QueuePolicy(queueArn, topicArn));
    if ok {
      ok := svc.Subscribe(topicArn, SqsProtocol, queueArn);
    }
  }

  /** `ensureResources`: the three steps, each attempted whatever the previous one did. */
  method EnsureResources(svc: Services) returns (report: Report)
    modifies svc
    ensures svc.Model() == EnsureAll(old(svc.Model())).after
    ensures report == EnsureAll(old(svc.Model())).report
  {
    var table := EnsureTable(svc);
    var bucket := EnsureBucket(svc);
    var channels := EnsureChannels(svc);
    report := Report(table, bucket, channels);
  }

  /** Process start: bootstrap, then listen. */
  method Launch(svc: Services, port: string)
    modifies svc
    ensures svc.Model() == Startup(old(svc.Model()), port)
  {
    var _ := EnsureResources(svc);
    svc.Listen(port);
  }
}
