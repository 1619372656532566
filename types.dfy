/**
  Values shared by the whole model: request fields as the JSON body parser
  hands them over, the task record, the event envelope, the queue policy
  document and the records the backends keep.
 */
module Types {

  datatype Option<+T> = None | Some(value: T)

  /** A request field: absent (`undefined`), `null`, or a string.
      Other JSON values (numbers, booleans, objects) are not modelled. */
  datatype JsValue = Undefined | Null | Str(s: string)

  /** JavaScript truthiness on the values above: only a non-empty string is truthy. */
  predicate Truthy(v: JsValue)
  {
    v.Str? && v.s != ""
  }

  newtype byte = x: int | 0 <= x < 256

  type Bytes = seq<byte>

  /** The record stored in the `Tasks` table and carried by both events. */
  datatype TaskItem = TaskItem(
    taskId: JsValue,
    title: string,
    description: string,
    imageKey: Option<string>,
    createdAt: string)

  /** `{ type, payload }`: the message body sent to the topic and to the queue. */
  datatype Envelope = Envelope(kind: string, payload: TaskItem)

  /** The only condition the bootstrap writes: `ArnEquals` on `aws:SourceArn`. */
  datatype Condition = ArnEquals(key: string, value: string)

  datatype Statement = Statement(
    sid: string,
    effect: string,
    principal: string,
    action: string,
    resource: string,
    condition: Option<Condition>)

  datatype Policy = Policy(version: string, statements: seq<Statement>)

  /** A queue as the queue service keeps it: its ARN and its access policy. */
  datatype Queue = Queue(arn: string, policy: Option<Policy>)

  /** One (topicArn, protocol, endpoint) subscription of the topic service. */
  datatype Subscription = Subscription(topicArn: string, protocol: string, endpoint: string)

  /** A message accepted by the topic or the queue service, with its target. */
  datatype Message = Message(target: string, body: Envelope)

  datatype ObjectId = ObjectId(bucket: string, key: string)

  datatype StoredObject = StoredObject(body: Bytes, contentType: string)

  /** What a handler sends back: `{ok: true, task}`, `{bucket, key, url}` or an error status. */
  datatype Response =
    | TaskCreated(task: TaskItem)
    | Uploaded(bucket: string, key: string, url: string)
    | Failure(status: int, error: string)
}
