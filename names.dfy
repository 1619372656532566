/**
  The fixed resource names of the server, the identifiers and locators built
  from them, and the queue policy that lets the topic deliver to the queue.
 */
module Names {
  import opened Types

  const TableName := "Tasks"
  const HashKey := "taskId"
  const BucketName := "shopping-images"
  const TopicName := "task-events"
  const QueueName := "task-queue"
  const AccountId := "000000000000"
  const SqsProtocol := "sqs"
  const SendMessageAction := "sqs:SendMessage"
  const SourceArnKey := "aws:SourceArn"
  const TaskCreatedKind := "TASK_CREATED"
  const DefaultContentType := "image/jpeg"

  // How the local cloud names what it creates (an assumption about the backend,
  // used by the backend model when a topic or queue is created).

  function TopicArnOf(region: string, name: string): string
  {
    "arn:aws:sns:" + region + (":" + AccountId + ":" + name)
  }

  function QueueUrlOf(endpoint: string, name: string): string
  {
    endpoint + ("/" + AccountId + "/" + name)
  }

  function QueueArnOf(region: string, name: string): string
  {
    "arn:aws:sqs:" + region + (":" + AccountId + ":" + name)
  }

  /** The topic ARN the task handler writes out literally. */
  function TaskTopicArn(region: string): string
  {
    "arn:aws:sns:" + region + ":000000000000:task-events"
  }

  /** The queue URL the task handler writes out literally. */
  function TaskQueueUrl(endpoint: string): string
  {
    endpoint + "/000000000000/task-queue"
  }

  /** The handler's literal targets are the names the backend gives `task-events` and `task-queue`. */
  lemma HandlerTargetsAreBootstrapNames(region: string, endpoint: string)
    ensures TaskTopicArn(region) == TopicArnOf(region, TopicName)
    ensures TaskQueueUrl(endpoint) == QueueUrlOf(endpoint, QueueName)
  {
    assert ":" + AccountId + ":" + TopicName == ":000000000000:task-events";
    assert "/" + AccountId + "/" + QueueName == "/000000000000/task-queue";
  }

  /** The object key of an uploaded image: `images/<id>.jpg`. */
  function ImageKey(id: string): string
  {
    "images/" + id + ".jpg"
  }

  /** Reads the image id back out of an object key, if it has the `images/<id>.jpg` shape. */
  function ImageIdOf(key: string): Option<string>
  {
    if 11 <= |key| && key[..7] == "images/" && key[|key| - 4..] == ".jpg"
    then Some(key[7..|key| - 4])
    else None
  }

  /** `ImageIdOf` inverts `ImageKey`, so distinct ids give distinct keys. */
  lemma ImageKeyRoundTrip(id: string, key: string)
    ensures ImageIdOf(ImageKey(id)) == Some(id)
    ensures ImageIdOf(key) == Some(id) <==> key == ImageKey(id)
  {
    var k := ImageKey(id);
    assert k[..7] == "images/";
    assert k[7..|k| - 4] == id;
    assert k[|k| - 4..] == ".jpg";
    if ImageIdOf(key) == Some(id) {
      assert key == key[..7] + key[7..|key| - 4] + key[|key| - 4..];
    }
  }

  /** The public locator of an object: `<endpoint>/<bucket>/<key>`. */
  function ImageUrl(endpoint: string, key: string): string
  {
    endpoint + "/" + BucketName + "/" + key
  }

  /** The locator starts with the endpoint and ends with `/shopping-images/<key>`,
      so for one endpoint it determines the key. */
  lemma ImageUrlLocates(endpoint: string, key: string, key': string)
    ensures var url := ImageUrl(endpoint, key);
      && url[..|endpoint|] == endpoint
      && url[|endpoint|..|url| - |key|] == "/shopping-images/"
      && url[|url| - |key|..] == key
    ensures ImageUrl(endpoint, key) == ImageUrl(endpoint, key') ==> key == key'
  {
    var url := ImageUrl(endpoint, key);
    assert url == endpoint + "/shopping-images/" + key;
    if ImageUrl(endpoint, key) == ImageUrl(endpoint, key') {
      assert |key| == |key'|;
      assert key == url[|url| - |key|..];
      assert key' == ImageUrl(endpoint, key')[|url| - |key'|..];
    }
  }

  /** The policy the bootstrap puts on the queue: one statement allowing
      `sqs:SendMessage` on the queue, only from the topic. */
  function QueuePolicy(queueArn: string, topicArn: string): Policy
  {
    Policy("2012-10-17", [
      Statement("Allow-SNS-SendMessage", "Allow", "*", SendMessageAction, queueArn,
        Some(ArnEquals(SourceArnKey, topicArn)))])
  }

  /** Whether one statement lets a sender whose ARN is `source` perform `action` on `resource`. */
  predicate Grants(st: Statement, action: string, resource: string, source: string)
  {
    && st.effect == "Allow"
    && st.principal == "*"
    && st.action == action
    && st.resource == resource
    && (st.condition.None? || (st.condition.value.key == SourceArnKey && st.condition.value.value == source))
  }

  /** Whether some statement of the policy grants the request. */
  predicate PolicyAllows(p: Policy, action: string, resource: string, source: string)
  {
    exists i :: 0 <= i < |p.statements| && Grants(p.statements[i], action, resource, source)
  }

  /** The queue policy is a conditional grant: it allows exactly one sender, the topic,
      exactly one action, and only on the queue itself. */
  lemma QueuePolicyGrantsOnlyTopic(queueArn: string, topicArn: string, action: string, resource: string, source: string)
    ensures PolicyAllows(QueuePolicy(queueArn, topicArn), action, resource, source)
      <==> action == SendMessageAction && resource == queueArn && source == topicArn
  {
    var p := QueuePolicy(queueArn, topicArn);
    if action == SendMessageAction && resource == queueArn && source == topicArn {
      assert Grants(p.statements[0], action, resource, source);
    }
  }
}
