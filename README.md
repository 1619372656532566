# Task server on a local cloud, modelled in Dafny

The server (`server/src/index.js`) stores task records in a table store and images in
an object store. It announces each new task on a topic and on a queue, all hosted by
LocalStack. This project models its three parts:

- **The start-up bootstrap, `ensureResources`.** It runs three ensure-steps in order,
  each with its own failure handler:
  - the `Tasks` table, with hash key `taskId`;
  - the `shopping-images` bucket;
  - the `task-events` topic and the `task-queue` queue, with the queue policy that
    lets the topic send to the queue, and the subscription.

  The HTTP server then starts listening whatever happened.
- **`POST /tasks`.** It validates the title and builds the record with JavaScript's
  defaulting rules. It then puts the item, publishes the `TASK_CREATED` envelope to
  the topic and sends the same envelope to the queue, stopping at the first failure.
- **`POST /upload`.** It takes a multipart file, or else a JSON `base64` field
  without its data-URI prefix. It stores the bytes under `images/<id>.jpg` and
  answers with the bucket, the key and the locator.

## Structure

- `types.dfy` (`Types`): the values that cross the boundary.
  - JavaScript request values (`JsValue`: absent, `null` or a string) and their
    truthiness.
  - The task item and its event envelope.
  - The queue policy document.
  - Subscriptions, messages, stored objects and responses.
- `names.dfy` (`Names`): the fixed resource names and the identifiers and locators
  built from them.
  - The image key and its inverse.
  - The object locator.
  - The queue policy, with the meaning of a policy as a predicate `PolicyAllows`.
- `backend.dfy` (`Backend`): the four cloud services, each a value whose member
  functions give the meaning of the calls the server makes.
  - A call whose kind is in `Env.faults` fails and changes nothing. This is how every
    error path of the source is reached.
  - `State` holds the four services, the log of attempted calls (`trace`) and the
    environment.
  - `Services` is the class whose fields the calls update in place. Each of its
    methods is proved to update `Model()` as the corresponding function says.
- `bootstrap.dfy` (`Bootstrap`): the steps and the whole bootstrap.
  - Functions: `TableStep`, `BucketStep`, `ChannelStep`, `EnsureAll`, `Startup`.
  - Their lemmas.
  - The methods `EnsureTable`, `EnsureBucket`, `EnsureChannels`, `EnsureResources`
    and `Launch`, proved equal to the functions.
- `tasks.dfy` (`Tasks`): the handler as a function `HandleTasks`, its lemmas, and the
  method `PostTasks`.
- `upload.dfy` (`Upload`): the handler as a function `HandleUpload`, its lemmas, and
  the method `PostUpload`, which reassigns `buffer` and `contentType` as the source
  does. It relies on `data_uri.dfy` (`DataUri`), which models the regular expression
  `^data:.+;base64,`: greedy `.+`, and `.` not matching line terminators.
- `scenario.dfy` (`Scenario`): what arrives at the queue, and a whole run.
  - `Arrivals` counts direct sends, plus messages published to a topic that delivers
    to the queue.
  - A task created after a successful bootstrap reaches the queue **twice**: once
    directly by `sendMessage` (`Direct`) and once as the topic's forwarded notification
    (`ViaTopic`). The source's design has this
    duplication. The model keeps it and proves it (`TaskArrivals`,
    `TaskOnReadyBackend`).

The calls depend on the service actually used, so the model makes its assumptions
about the backend explicit in `Backend` (see "Left out"). The generated identifiers,
the clock and the base64 decoder are parameters of the handlers.

## Model

| member | source | states |
|---|---|---|
| Backend.Services.ListTables | server/src/index.js:37 | Logs `listTables`, changes nothing else, and answers with the table names or an error. |
| Backend.Services.CreateTable | server/src/index.js:39-46 | Logs `createTable`. On success it adds the table with its hash key; on failure (fault or existing table) the tables are unchanged. |
| Backend.Services.WaitForTable | server/src/index.js:47 | Logs the wait. It succeeds exactly when the table exists and the wait is not faulted; nothing changes. |
| Backend.Services.Put | server/src/index.js:150-152 | Logs the put. It stores the item under its `taskId`, replacing an item with that id, or fails and changes nothing. |
| Backend.Services.HeadBucket | server/src/index.js:56 | Logs the probe, which succeeds exactly when the bucket exists and the probe is not faulted. |
| Backend.Services.CreateBucket | server/src/index.js:59 | Logs `createBucket`. It adds the bucket or fails with the buckets unchanged. |
| Backend.Services.PutObject | server/src/index.js:125-127 | Logs `putObject`. It stores body and content type under (bucket, key), or fails and changes nothing. |
| Backend.Services.CreateTopic | server/src/index.js:69-70 | Logs `createTopic`, adds the topic and answers with its ARN, or fails. |
| Backend.Services.CreateQueue | server/src/index.js:74-75 | Logs `createQueue` and answers with the queue URL. An existing queue is kept as it is. |
| Backend.Services.GetQueueAttributes | server/src/index.js:76-77 | Logs the call and answers with the queue's `QueueArn`, changing nothing. |
| Backend.Services.SetQueueAttributes | server/src/index.js:94 | Logs the call and replaces the queue's policy, or fails with the queues unchanged. |
| Backend.Services.Subscribe | server/src/index.js:97-99 | Logs `subscribe` and adds the (topic, protocol, endpoint) subscription, or fails. |
| Backend.Services.Publish | server/src/index.js:155-157 | Logs `publish` and appends the message to the topic's messages, or fails. |
| Backend.Services.SendMessage | server/src/index.js:160-162 | Logs `sendMessage` and appends the message to the queue's messages, or fails. |
| Backend.Services.Listen | server/src/index.js:174-176 | Logs the start of listening and changes nothing else. |
| Backend.CreateCallsIdempotent | server/src/index.js:32-33 | Repeating createTopic, createQueue, createBucket or subscribe on the state it produced answers the same and changes nothing. A second createTable is an error. |
| Names.HandlerTargetsAreBootstrapNames | server/src/index.js:154-159 | The handler's literal topic ARN and queue URL are the identifiers the backend gives `task-events` and `task-queue`. |
| Names.ImageKeyRoundTrip | server/src/index.js:110 | `images/<id>.jpg` reads back as `id`, and only that key reads back as `id`, so distinct ids give distinct keys. |
| Names.ImageUrlLocates | server/src/index.js:129 | The locator is the endpoint, then `/shopping-images/`, then the key. For one endpoint it determines the key. |
| Names.QueuePolicyGrantsOnlyTopic | server/src/index.js:81-93 | The policy allows a request exactly when the action is `sqs:SendMessage`, the resource is the queue's ARN and the sender is the topic's ARN. |
| DataUri.LastMatchFrom | server/src/index.js:119 | The backward search finds a prefix match, and no match ending at or before its start is longer. |
| DataUri.GreedyMatch | server/src/index.js:119 | It finds a match of `^data:.+;base64,` that is the longest one, and none exactly when there is none. |
| DataUri.StripDataUri | server/src/index.js:119 | The result is a suffix of the input. What was removed is a match, and the longest one; without a match the input is unchanged. |
| DataUri.StripPngExample | server/src/index.js:119 | `data:image/png;base64,AAAA` strips to `AAAA`. |
| DataUri.PngMatchEnd | server/src/index.js:119 | The PNG example's match ends right after `;base64,`. |
| DataUri.GreedyMatchEnd | server/src/index.js:119 | With two markers, the match ends after the second. |
| DataUri.StripIsGreedy | server/src/index.js:119 | The strip runs through the last `;base64,`. |
| DataUri.StripNeedsMediaType | server/src/index.js:119 | `.+` needs a character, so `data:;base64,` is not stripped. |
| DataUri.StripStopsAtNewline | server/src/index.js:119 | A line break before the marker prevents the strip. |
| Bootstrap.TableStepCreatesOnlyWhenMissing | server/src/index.js:36-52 | The listing comes first. `createTable('Tasks', taskId)` is attempted exactly when the listing worked and lacked `Tasks`; an existing table is untouched and items are kept. The step succeeds exactly when the table was present, or was created and became ready. |
| Bootstrap.BucketStepCreatesOnProbeError | server/src/index.js:55-64 | The probe comes first. `createBucket` is attempted exactly when the probe failed, for any reason. The step succeeds exactly when the probe or the creation did, and objects are kept. |
| Bootstrap.ChannelStepShortCircuits | server/src/index.js:67-102 | The calls are a prefix of createTopic, createQueue, getQueueAttributes, setQueueAttributes, subscribe. Every call but the last succeeded, and the last failed unless all five succeeded. Nothing is subscribed on failure. |
| Bootstrap.ChannelStepWiring | server/src/index.js:69-99 | On success: the topic exists, and the queue carries exactly the conditional policy for its ARN and the topic's. The topic is subscribed by the queue's ARN with protocol `sqs`, so it delivers to the queue. The policy allows nothing else. |
| Bootstrap.TableStepIdempotent | server/src/index.js:36-52 | A second table step leaves the tables as they were; after a successful first step it only lists. |
| Bootstrap.BucketStepIdempotent | server/src/index.js:55-64 | A second bucket step leaves the buckets as they were; after a successful first step with a working probe it only probes. |
| Bootstrap.ChannelStepIdempotent | server/src/index.js:67-102 | A second topic/queue step leaves both services as they were and makes the same calls with the same outcome. |
| Bootstrap.BootstrapIsolatesSteps | server/src/index.js:33-103 | Failure isolation: each step does what it would do alone on the starting state. The report is the three steps' outcomes, and their calls follow one another in the log. |
| Bootstrap.BootstrapAttemptsEveryStep | server/src/index.js:33-103 | The table listing, the bucket probe and the topic creation are always attempted, each right after the previous step's calls. |
| Bootstrap.StepKinds | server/src/index.js:33-103 | Each step makes only calls of its own service. A step that finds its resource in place makes one call. |
| Bootstrap.BootstrapCalls | server/src/index.js:33-103 | The bootstrap never listens. It makes no `createTable` when `Tasks` exists, and no `createBucket` when the probe succeeds. |
| Bootstrap.BootstrapIdempotent | server/src/index.js:32-103 | Running the bootstrap again on its own result, with the same failing calls, changes no service. |
| Bootstrap.BootstrapRerunCreatesNothing | server/src/index.js:32-103 | A second process start, with its own failing calls, makes no `createTable` when `Tasks` is present. It makes no `createBucket` when the bucket is present and the probe works. A successful first step leaves its resource present. |
| Bootstrap.ChannelStepRerun | server/src/index.js:67-102 | On services already wired (topic, queue with the topic's policy, subscription), the topic/queue step changes neither service, whichever calls fail. |
| Bootstrap.RerunAnyFaults | server/src/index.js:32-103 | After a bootstrap whose three steps all succeeded, a second process start changes no service, whatever fails in it. |
| Bootstrap.BootstrapSucceedsWithoutFaults | server/src/index.js:33-103 | Without faults all three steps succeed whatever already exists. The table and bucket then exist and the topic delivers to the queue. |
| Bootstrap.StartupAlwaysListens | server/src/index.js:171-177 | `listen` is always reached, whatever failed. It is the last call, no earlier call is `listen`, and it changes nothing else. |
| Bootstrap.EnsureTable | server/src/index.js:36-52 | Performs the table step on the services in place; the new state is the one `TableStep` gives. |
| Bootstrap.EnsureBucket | server/src/index.js:55-64 | Performs the bucket step in place; the new state is the one `BucketStep` gives. |
| Bootstrap.EnsureChannels | server/src/index.js:67-102 | Performs the topic/queue chain in place; the new state is the one `ChannelStep` gives. |
| Bootstrap.EnsureResources | server/src/index.js:33-103 | Runs the three steps in place; the new state and the report are the ones `EnsureAll` gives. |
| Bootstrap.Launch | server/src/index.js:171-177 | Bootstraps and then listens; the new state is `Startup`'s. |
| Tasks.BuildItemDefaults | server/src/index.js:139-148 | The id is used only when `taskId` is absent, and an explicit `taskId` is kept, even `null` or `""`. A falsy description becomes `""` and a falsy imageKey becomes `null`; otherwise each is kept. The title and the time are the ones given. |
| Tasks.TitleValidation | server/src/index.js:139-140 | The response is 400 `title is required` exactly when the title is falsy, and then no call is made. |
| Tasks.EffectOrder | server/src/index.js:150-168 | Calls are a prefix of put, publish, send, each made only after the previous succeeded. `{ok, task}` is returned exactly when all three succeed, and 500 otherwise. A failed put changes nothing. A failed publish leaves the item stored and sends nothing. A failed send leaves the item stored and the event published, with nothing enqueued. On every path the object store, the tables, the topics, the subscriptions and the queues are untouched. |
| Tasks.FanOutPayload | server/src/index.js:142-164 | On success the built item is stored under its id. One `{TASK_CREATED, item}` goes to `task-events` and the same envelope to `task-queue`, and the response returns that item. |
| Tasks.NullTaskIdFails | server/src/index.js:139-152 | An explicit `null` or empty `taskId` is kept, the table store rejects it, and the request fails with 500 after the put alone. |
| Tasks.PostTasks | server/src/index.js:137-169 | The handler on the services in place; its response and new state are those of `HandleTasks`. |
| Upload.FileTakesPrecedence | server/src/index.js:115-117 | With a file, its buffer is stored whatever `base64` holds. The content type is its MIME type when truthy and `image/jpeg` otherwise. |
| Upload.Base64Payload | server/src/index.js:118-120 | Without a file, truthy `base64` is decoded after the greedy data-URI strip, stored as `image/jpeg`, with the longest prefix removed. |
| Upload.PngDataUriPayload | server/src/index.js:118-120 | For `data:image/png;base64,AAAA` the decoded bytes are those of `AAAA`. |
| Upload.PayloadPresence | server/src/index.js:115-123 | There is something to store exactly when there is a file or a truthy `base64`. |
| Upload.UploadOutcome | server/src/index.js:106-134 | Without a payload the response is 400 and nothing changes. Otherwise exactly one `putObject` into `shopping-images` decides between `{bucket, key, url}` and 500. Only the object store can change. |
| Upload.UploadStoresAtKey | server/src/index.js:108-129 | On success the payload is stored under `images/<id>.jpg` in `shopping-images`. The key reads back as the id, and the url is the endpoint and `/shopping-images/` and the key. |
| Upload.PostUpload | server/src/index.js:106-134 | The handler on the services in place; its response and new state are those of `HandleUpload`. |
| Scenario.ForwardedFrame | server/src/index.js:97-99 | What the topic forwards to a queue depends only on the subscriptions and the queues. |
| Scenario.TaskArrivals | server/src/index.js:155-162 | A created task's envelope arrives at `task-queue` once directly by `sendMessage`. It arrives once more, as the topic's forwarded copy, exactly when the topic delivers to the queue. |
| Scenario.SendFailureStillForwards | server/src/index.js:150-167 | When the put and the publish succeed but the send fails (faulted, or `task-queue` missing), the client gets 500 with the item stored. The queue still gets the topic's copy whenever the topic delivers to it, and nothing arrives directly. |
| Scenario.FreshStartup | server/src/index.js:171-177 | On empty infrastructure the start-up creates `Tasks` keyed by `taskId`, the bucket, and the topic delivering to the queue. Nothing is stored or sent. |
| Scenario.FreshUpload | server/src/index.js:106-134 | After that start-up a base64 upload is stored and answered with its key and locator. The task side is unchanged. |
| Scenario.TaskOnReadyBackend | server/src/index.js:137-169 | On an empty, wired, fault-free backend, a task with title and image key is created with its defaults. It is the only item, and its envelope arrives at the queue once directly and once through the topic. |
| Scenario.UploadThenTask | server/src/index.js:106-169 | The whole run: start-up, then an upload, then a task naming the uploaded key. The task refers to a stored object, is the only item, and arrives at the queue once directly and once through the topic. |

## Left out

- The HTTP layer is not modelled: Express routing, CORS, the JSON body parser and its
  10 MB limit, multer's multipart parsing, and `GET /health`. Requests arrive as
  already-parsed values (`TaskRequest`, `UploadRequest`), and responses are values
  (`Response`) without status-line or header details.
- The `details` field of a 500 response is not modelled, because it carries the
  SDK's error message text.
- The SDK configuration (region, credentials, endpoint, path-style addressing) and
  the transport are not modelled. The region and the endpoint are fields of `Env`.
  Every failure of a call, whatever its cause, is a fault in `Env.faults`.
- `waitFor('tableExists')` is modelled as one call that succeeds exactly when the
  table exists. Its polling and timeout are not modelled.
- `uuidv4()`, `new Date().toISOString()` and `Buffer.from(…, 'base64')` are parameters
  (`id`, `now`, `decode`).
  - `JSON.stringify` of the policy and of the envelope is not modelled: both stay
    structured values (`Policy`, `Envelope`).
- Logging to the console is not modelled.
- Concurrency is not modelled: overlapping requests within one instance, several server
  instances bootstrapping at once, and requests to one instance while another
  bootstraps. Within one process, `listen` follows the bootstrap
  (`Bootstrap.StartupAlwaysListens`). Every operation is atomic.
- JSON values other than absent, `null` and strings are not modelled: numbers,
  booleans, arrays and objects in `taskId`, `title`, `description`, `imageKey` or
  `base64`.
- The model assumes these backend behaviours:
  - `createTopic` and `createQueue` answer with the existing resource.
  - `createBucket` succeeds for a bucket the caller already owns.
  - `createTable` fails for an existing table.
  - `listTables` answers with every table name in one page. The source does not follow
    `LastEvaluatedTableName`, so on a backend with more than 100 tables `Tasks` could be
    missed and `createTable` attempted; that case is not modelled.
  - A second identical `subscribe` adds nothing.
  - Topic ARNs, queue URLs and queue ARNs follow the local cloud's naming with
    account `000000000000`.
  - A present `Tasks` table is not checked for its key schema; the put only succeeds
    when the table's hash key is `taskId` and the item's `taskId` is a non-empty
    string.
- The topic's forwarding to the queue is not a state change of `QueueService`. It is
  stated as `Delivers`, subscription plus policy, and counted by `Scenario.Arrivals`.
  Consumers reading or deleting queue messages are not modelled.
- Scenario.Arrivals: judges each published message against the subscriptions and
  policies of the state it is given, not those at the time of publishing. A message
  published before the subscription existed would count as forwarded once a later
  bootstrap wires the queue. The task and upload handlers never change subscriptions
  or queues (`Scenario.ForwardedFrame`, `Tasks.EffectOrder`, `Upload.UploadOutcome`),
  so `TaskArrivals` and the scenarios are not affected. A forwarded copy is recorded as
  `ViaTopic(topicArn, envelope)`. The subscription does not set raw message delivery,
  so the topic service actually wraps the envelope's text in its notification
  document (the `Message` field). The other fields of that document are not modelled:
  message id, timestamp and signature.
