# Verification of the notification system

A Dafny model of how a notification travels from the HTTP API to a provider, and
proofs of what the system promises on the way. The API validates a request, stamps the
template it resolves to, and publishes a message to the queue of its lane,
`<type>.<priority>`. One worker process per lane takes deliveries one at a time, renders
and sends, and on a transient failure publishes the message again with one retry more, or
parks it in the dead-letter queue when its retries are used up; only then does it settle
the delivery it has in hand.

`dafny verify dfyconfig.toml` checks everything.

## How the model is built

| files | what they hold |
|---|---|
| `Prelude`, `Runs` | sums over sequences; runs of a step system, what every step keeps, and how long a run can be |
| `Notification`, `Topology`, `Provider`, `FrontMatter`, `Repository` | messages and lanes; the exchange, its queues and bindings; addresses; template files and the template index |
| `Sending`, `Processing` | the API side of a notification, single and in batches; one delivery attempt at the worker |
| `Delivery` | the delivery protocol as a step system, with its invariant |
| `Ledger`, `Conservation`, `Workload`, `Draining` | book-keeping over runs: nothing lost, copies conserved, work bounded, draining ends |
| `Isolation` | one lane's view of a run of all lanes: the others neither change nor delay it |
| `Consumer` | the worker's `handle` and `Run` as methods of a class, each of whose actions is a step of `Delivery` |
| `Publisher` | the publisher under its lock, with real time, as a step system and as a class |
| `Pipeline` | the two goroutines between the broker and `Run`, as a step system and as a class |
| `Wiring` | a worker's part in a run of the deployment as a run of its connection |

`Delivery.State` is the broker's store of copies in arrival order, the deliveries workers
still have in hand after the broker took them back (orphans), what the API composed, what
it reported as accepted, and a record of the run. The faults are steps like any other:

- a publish has two results: whether the broker took the message, and whether the caller
  was told so (`ok ==> took`); a confirm that comes too late is `took && !ok`;
- a settlement can be lost, a connection can break, and a worker can crash, at any point:
  `Lose` gives a delivery back to its place in the queue, and the worker may or may not
  go on with it (`survives`); `Vanish` ends what it has in hand. `CrashGivesAllBack` and
  `DisconnectionGivesAllBack` show that a whole crash and a whole disconnection are runs of
  such steps;
- a message no binding matches is confirmed and stored nowhere, because the publisher
  does not ask for mandatory routing.

`Reachable(cfg, s)` is what the main results are stated for; `ReachableAfterRuns` says that
it means exactly that some run of the system, with any faults in it, ends in `s`.

Where the source loops or updates in place there is a method proved against the step
system. In the three classes that share a world with others (`Consumer`, `Publisher`,
`Connection`), every action of a method is a step of the system, and at every point where
others may act the field `others` says what they try; it is arbitrary input, so the
contracts hold for every interleaving. The calls a consumer is said to make are its own
part in that run (`Projected`), so a contract about calls is one about steps. Answers
of the outside (the limiter, the provider, the broker, a `select` with two ready cases) are
parameters in the same way. The loops of `Connection` also hand back, as ghosts, how far the
run had come after each round; `Runs.Rounds` says what happened between these marks, and if
nobody else acts, the contract gives the result outright.

Attempts are counted against the notification they are for. An attempt is *spoilt*
(event `Unsettled`) when it does not end in an ack that the broker receives: its publish
failed, the broker took the delivery back before the ack, or it was begun on a delivery
already taken back. The bounds on work and on copies are in terms of spoilt attempts, of
which no notification has more than attempts (`SpoiltAreAttempts`).

## Assumptions

- The broker routes as a direct exchange does (section 3.1.3.1 of AMQP 0-9-1) and keeps a
  delivery until it is acknowledged (section 3.1.8 of AMQP 0-9-1), giving an unsettled one
  back to its place. Publisher confirms are RabbitMQ's extension. Queues are durable.
- JSON decoding gives back the message that was encoded; a body that is no message is
  `Garbled`. Drawn notification IDs are fresh.
- API and workers load the same template files, and all workers of one lane have the same
  retry limit. Limits may be negative; then nothing is retried. Retry counts are `int`: no
  stored count exceeds the limit, so the source's counter cannot wrap before its limit does.
- The mutex is handed out in order of arrival, and a goroutine that can run does so before
  time passes; a write on the wire takes at most `Setting.write`. Go's mutex is fair only
  up to the starvation threshold.
- The template engine, the YAML decoder, the mail address parser and the Unicode digit
  table beyond Latin-1 are functions given as parameters. Strings are valid UTF-8.
- The sort in `List` puts its input in the order it is given. The model sorts by insertion;
  `ListingIsUnique` shows that no other algorithm and no map order could give another result.

## Where code and comments disagree

The model follows the code.

- `internal/domain/provider/sms.go` promises E.164 with 7 to 15 digits. The length test
  counts bytes and the digit test accepts any Unicode digit, so a `+` and four Arabic-Indic
  digits are accepted (`FourDigitsAccepted`). `AcceptedAsE164` gives the exact condition
  under which the promised form is what is accepted.
- `internal/infrastructure/rabbitmq/publisher.go` says that once the budget passes queued
  publishes fail fast. The lock cannot be waited for with a deadline, so a call whose own
  deadline has passed is still written when its turn comes, and may even succeed
  (`OwnDeadlineCanPass`). `OwnDeadlineIsMet` says exactly when a call that arrives is sure
  to be back by its own deadline, in terms of what is there when it arrives: if and only if
  `Latest` is not past it; and with instantaneous writes, if and only if the deadline has
  not passed and nobody inside has a later one. The timeout is always met
  (`EveryCallReturnsInTime`).
- `internal/infrastructure/rabbitmq/topology.go` says that bulk traffic can never delay
  transactional traffic. In the queues and at the workers that is so (`LaneRunsAlone`,
  `LaneIsNotHeldUp`). But one publisher lock serves both, and there it is not.
  `BulkCanDelayTransactional` says exactly when. Let `Free` be the latest time at which an
  arriving call could get the lock if no bulk call were inside (`FreeIsMaximum`: with
  instantaneous writes, the time of arrival or the latest deadline of a transactional call
  inside). With instantaneous writes the call is sure of the lock by then if and only if no
  bulk call inside has a later deadline; and with any write time such a bulk call can make
  it wait longer. `BulkHoldsTheLock` is a run in which a bulk call keeps a transactional one
  from the lock past that time.
- `internal/infrastructure/template/file_repository.go` describes a block between delimiter
  lines. The opening line keeps its newline, so an empty block, two delimiter lines in a
  row, does not close (`EmptyBlockDoesNotClose`); and a header that itself holds a
  delimiter does not come back from printing (`PrintedSplitsBack` is an equivalence).
- `internal/infrastructure/rabbitmq/publisher.go` says that routing is guaranteed. It is,
  as long as the whole topology is declared: `ConfirmedIsKeptWhenBound` says exactly when
  what the broker takes is kept, `UnboundIsAcceptedAndLost` shows an accepted notification
  that is nowhere, and `TopologyConverges` that declaring processes reach the whole topology
  and never leave it.

## Model

| member | source | states |
|---|---|---|
| Topology.LanesAreDistinct | internal/infrastructure/rabbitmq/topology.go:22-43 | Lane names tell lanes apart and never collide with the dead-letter names |
| Topology.LaneNames | internal/infrastructure/rabbitmq/topology.go:22-43 | The lanes are the six of type and priority by name; queue and key are `<type>.<priority>`, and "notifications.dead" is bound under "dead" |
| Topology.RoutesExactly | internal/infrastructure/rabbitmq/topology.go:14-43 | On a declared topology each lane key reaches exactly its own queue, "dead" exactly the dead-letter queue, and any other key nothing |
| Topology.Declarer.Issue | internal/infrastructure/rabbitmq/topology.go:49-51 | The broker accepts every declaration of a run in turn; the run goes on unless the channel fails |
| Topology.Declarer.DeclareLane | internal/infrastructure/rabbitmq/topology.go:55-61 | A lane's queue is declared and then bound, or the run stops where the channel failed |
| Topology.Declarer.DeclareTopology | internal/infrastructure/rabbitmq/topology.go:48-72 | A run performs a prefix of the plan and reports success exactly when it performed all of it |
| Topology.PlanIsInLoopOrder | internal/infrastructure/rabbitmq/topology.go:53-70 | The plan is what the nested loops go through: each lane's queue and then its binding, the dead-letter pair last |
| Topology.BindAccepted | internal/infrastructure/rabbitmq/topology.go:48-71 | No declaration of a run is refused, because exchange and queue come before the binding |
| Topology.PlanBinds | internal/infrastructure/rabbitmq/topology.go:53-70 | A run binds every canonical binding and no other |
| Topology.NeverRefused | internal/infrastructure/rabbitmq/topology.go:45-48 | In any interleaving of declaring processes the broker refuses nothing |
| Topology.MoveKeepsSound | internal/infrastructure/rabbitmq/topology.go:45-72 | Every step of any process keeps the bindings canonical and, once declared, unchanged |
| Topology.TopologyConverges | internal/infrastructure/rabbitmq/topology.go:45-72 | Over every interleaving of complete and interrupted runs the bindings stay within the canonical set, and after one complete run they are all of it for ever |
| Topology.LoneRunReplays | internal/infrastructure/rabbitmq/topology.go:48-72 | Steps of the shared system by one process are what its declaring run does, and complete the topology when it ends |
| Provider.NormalizePhoneNumber | internal/domain/provider/sms.go:74-88 | The loop computes the number without its formatting runes |
| Provider.NewPhoneNumber | internal/domain/provider/sms.go:28-71 | The checks in the code's order accept exactly "+" and 7 to 15 bytes of digit runes after stripping, and give the stripped number |
| Provider.AcceptedExactly | internal/domain/provider/sms.go:47-70 | In literal terms: "+", then 7 to 15 bytes of digits, which up to Latin-1 are 0 to 9; accepted as the stripped number |
| Provider.StrippedRune | internal/domain/provider/sms.go:78-85 | Space, dash and the two parentheses go, every other rune stays |
| Provider.BytesOfRune | internal/domain/provider/sms.go:65-68 | Lengths are in bytes: a rune takes one to four, as in UTF-8 |
| Provider.TokenNeedsTenBytes | internal/domain/provider/push.go:36-49 | White space around a device token does not count; it is good if and only if what is left has at least ten bytes |
| Provider.StrippingIsIdempotent | internal/domain/provider/sms.go:73-88 | Normalising twice is normalising once |
| Provider.FormattingIsIrrelevant | internal/domain/provider/sms.go:42-88 | Spaces, dashes and parentheses put in or taken out anywhere change neither acceptance nor result |
| Provider.AcceptedReparses | internal/domain/provider/sms.go:28-71 | An accepted number is accepted again as itself |
| Provider.AtMostFifteenDigits | internal/domain/provider/sms.go:15-19 | An accepted number is "+" and 2 to 15 digit runes, so never more than clause 6.1 of ITU-T E.164 allows |
| Provider.AcceptedAsE164 | internal/domain/provider/sms.go:21-71 | The promised form, 7 to 15 ASCII digits, is what is accepted if and only if the input is ASCII |
| Provider.ShortNumbersAccepted | internal/domain/provider/sms.go:58-68 | Four to seven digits of two bytes each are accepted and are not the promised form |
| Provider.FourDigitsAccepted | internal/domain/provider/sms.go:58-68 | The concrete number: "+" and four Arabic-Indic digits |
| Provider.AsciiSpaces | internal/domain/provider/push.go:37-38 | Within ASCII, white space is tab, line feed, vertical tab, form feed, carriage return and space |
| FrontMatter.IndexClosing | internal/infrastructure/template/file_repository.go:183-186 | The position found is the first closing delimiter, and none is found only if there is none |
| FrontMatter.NoOverlap | internal/infrastructure/template/file_repository.go:183-183 | A closing delimiter cannot overlap the next one |
| FrontMatter.PrintedSplitsBack | internal/infrastructure/template/file_repository.go:175-196 | Printing a header and any body and splitting again gives both back if and only if the header holds no closing delimiter |
| FrontMatter.ClosedSplits | internal/infrastructure/template/file_repository.go:178-196 | A block closes at the first delimiter line, whatever follows it on that line but one newline; what follows is the body |
| FrontMatter.SplitIsStable | internal/infrastructure/template/file_repository.go:178-196 | After a split the header holds no delimiter, the content is header, delimiter, at most one newline and body, and printing and splitting again changes nothing |
| FrontMatter.RefusedOnlyUnclosed | internal/infrastructure/template/file_repository.go:178-186 | Content without an opening line is the body unchanged; other content is refused exactly when nothing closes it |
| FrontMatter.EmptyBlockDoesNotClose | internal/infrastructure/template/file_repository.go:182-186 | Two delimiter lines in a row are refused unless a later line closes the block |
| Repository.ResolvedIdPins | internal/app/notification/service.go:68-74 | Stamping the resolved template's ID pins it: resolving that ID gives the same template, defaults included |
| Repository.ResolvedByIndex | internal/app/template/service.go:25-30 | What is asked for by an ID is what is filed under it, or not found; without an ID, what is filed under "default", or no default |
| Repository.StemEnd | internal/infrastructure/template/file_repository.go:158-158 | The template ID ends at the last dot of the file name, or at its end |
| Repository.StemOf | internal/infrastructure/template/file_repository.go:158-158 | A file name without its last extension is the template ID |
| Repository.PassedOver | internal/infrastructure/template/file_repository.go:132-135 | Directories among the files, plain files among the directories, and names that begin with a dot are passed over |
| Repository.PlainFileLoads | internal/infrastructure/template/file_repository.go:147-165 | A file without front matter is all body and named by its ID; a file that cannot be read or whose block does not close is refused |
| Repository.HeadedFileLoads | internal/infrastructure/template/file_repository.go:147-196 | With front matter the header gives the name, if it has one, and the subject, and the rest is the body; a header that does not decode is refused; only the ID "default" makes a default |
| Repository.FileRepository.LoadFile | internal/infrastructure/template/file_repository.go:132-142 | One file is filed under its own type and stem, passed over, or reported; other types are untouched |
| Repository.FileRepository.LoadTypeDir | internal/infrastructure/template/file_repository.go:124-145 | The type holds, by stem, exactly the last eligible file of each stem; it fails only if some eligible file does not load |
| Repository.FileRepository.Load | internal/infrastructure/template/file_repository.go:59-85 | Loading succeeds if and only if the root can be listed and every visible directory has a known type and loads; then the index holds exactly those types, every template under its own type and non-empty ID |
| Repository.FileRepository.List | internal/infrastructure/template/file_repository.go:106-122 | Whatever order the maps are walked in, the listing holds each template once, strictly increasing by type and ID |
| Repository.BelowIsLexicographic | internal/infrastructure/template/file_repository.go:114-119 | The order of strings is the lexicographic one: smaller at the first difference, or a proper prefix |
| Repository.ListingOrder | internal/infrastructure/template/file_repository.go:114-119 | In the listing types ascend, and within a type IDs do |
| Repository.ListingIsUnique | internal/infrastructure/template/file_repository.go:106-122 | A repository has only one such listing |
| Repository.ListFiltered | internal/app/template/service.go:32-50 | The filtered listing is the listing's templates of that type in the same order; no filter gives all |
| Repository.ListingByType | internal/app/template/service.go:32-50 | The full listing is the email, the push and the sms listing one after the other |
| Sending.ComposedWhenAcceptable | internal/domain/notification/notification.go:78-131 | A request is composed if and only if its type, its priority or default, its recipient for that type and its template reference are good |
| Sending.ComposedIsDeliverable | internal/app/notification/service.go:57-76 | What is composed carries the request field by field, defaults filled in, under its own ID and time and without retries; it is valid for a worker and names the template the request asked for, which is filed under its type |
| Sending.SendPublishesOnce | internal/app/notification/service.go:76-84 | A send publishes at most once, under its own ID, and succeeds exactly when that publish was confirmed |
| Sending.SentCarriesRequest | internal/app/notification/service.go:57-84 | The one message a send publishes carries the request field by field; a successful send has published, and answers with the ID and the time of that message |
| Sending.RefusedAsSaid | internal/transport/rest/handler/errors.go:28-57 | A failed send is answered by the first of: bad type, bad priority, bad recipient for the type, no such template; and as an internal error if all are good |
| Sending.Service.Send | internal/app/notification/service.go:57-85 | The steps of a send, with defaulting and stamping, amount to composing and one publish, for any publisher behaviour; what is published carries the request |
| Sending.Service.SendNotificationBatch | internal/transport/rest/handler/handler.go:43-59 | The loop over a batch is sending its items one after another |
| Sending.RequestAsMade | internal/transport/rest/handler/handler.go:114-133 | Every field of an API request reaches the service as it is, or empty if it is absent |
| Sending.ServiceIsHonest | internal/app/notification/service.go:76-84 | Each item adds at most its own publish and reports its outcome truthfully |
| Sending.BatchIsSequential | internal/transport/rest/handler/handler.go:43-59 | Result k is what sending item k alone gives once the items before it have been sent |
| Sending.BatchReportsConfirmedPublishes | internal/transport/rest/handler/handler.go:43-59 | For any publisher behaviour the accepted IDs, in order, are those of the confirmed publishes |
| Sending.BatchCarriesItems | internal/transport/rest/handler/handler.go:43-59 | What is published for an item carries that item |
| Sending.BatchKeepsItsPromise | internal/transport/rest/handler/handler.go:41-59 | Results are aligned with the items; each is a notification with its item's ID and time, or the error its item deserves; and the accepted IDs are the confirmed ones |
| Processing.ComposedNeverMisaddressed | internal/app/notification/sms_processor.go:29-53 | On a composed message an attempt of its channel never fails on template or recipient; it fails for good, succeeds, or fails transiently exactly under the stated conditions |
| Processing.AttemptDecides | internal/app/notification/sms_processor.go:29-53 | An attempt on a message with a template and a good address goes wrong at the first of: rendering, building, limiting, sending; for good at the first two, transiently at the third, as the provider says at the last |
| Processing.UnaddressedIsGivenUp | internal/app/notification/sms_processor.go:30-38 | A missing template or a bad address ends an attempt for good, before anything is sent |
| Processing.PermanentByUnwrapping | internal/transport/queue/consumer.go:121-124 | An error is permanent if and only if unwrapping it finds a permanent one |
| Delivery.FanoutIsOneCopy | internal/infrastructure/rabbitmq/publisher.go:91-104 | On a declared topology a published message is stored as exactly one copy on its own queue |
| Delivery.RetryIsOneCopy | internal/transport/queue/consumer.go:99-118 | A retry is one copy on the message's own lane with one retry more, within the limit; a dead letter is one copy in the dead-letter queue with its retries used up |
| Delivery.ReachableAfterRuns | internal/transport/queue/consumer.go:57-119 | A state is reachable, that is, meets every invariant of the system, if and only if some run from the initial state leads to it |
| Delivery.AttemptNeverMisaddressed | internal/app/notification/sms_processor.go:30-38 | In every good state an attempt by the worker holding the delivery never fails on template or recipient |
| Delivery.AttemptIsDecided | internal/transport/queue/consumer.go:85-97 | In a good state the outcome of an attempt is decided by what the message renders to and what limiter and provider answer |
| Delivery.FinishRecords | internal/transport/queue/consumer.go:85-97 | The end of an attempt records a delivery if and only if there was something to send, the limiter let it through and the provider took it; a drop, with its stage, if and only if it failed there for good; otherwise nothing |
| Delivery.StepKeepsInv | internal/transport/queue/consumer.go:74-119 | Every step, faults included, keeps the invariant on copies, orphans, record and bindings |
| Delivery.ReachableIsGood | internal/transport/queue/consumer.go:74-119 | In every reachable state each copy is on its own lane's queue or spent in the dead-letter queue, differs from the original at most in its retry count, which is within the limit; whatever is recorded as delivered renders to something, and whatever is recorded as dropped was dropped for a reason that is true of it, never for template reference or recipient |
| Ledger.StepMoves | internal/transport/queue/consumer.go:74-119 | Every step moves any additive quantity by the amount of the one deed it performs |
| Conservation.UpperNeverRises | internal/transport/queue/consumer.go:85-118 | No deed adds a copy or an outcome that is not paid for by an entry or a spoilt attempt |
| Conservation.LowerNeverFalls | internal/transport/queue/consumer.go:85-118 | No deed takes a copy away without an outcome or another copy |
| Conservation.StepKeepsBalance | internal/transport/queue/consumer.go:74-119 | Every step keeps each notification's books balanced |
| Conservation.CopiesAreConserved | internal/transport/queue/consumer.go:85-118 | In every run, live copies and outcomes of a notification are at least its entries and, with attempts still in hand, at most its entries and spoilt attempts |
| Conservation.EnteredIsNotLost | internal/transport/queue/consumer.go:85-118 | Whatever the faults, a notification that entered the broker, even if the API reported an error, is on its lane's queue or held from it, in the dead-letter queue, delivered as something it renders to, or dropped: because it does not render, renders to nothing, or was sent and refused for good |
| Conservation.NothingIsLost | internal/infrastructure/rabbitmq/publisher.go:21-23 | So it is with every accepted notification |
| Conservation.UnspoiltIsInOnePlace | internal/transport/queue/consumer.go:85-118 | A notification without a spoilt attempt is, once entered, in exactly one place or has exactly one outcome |
| Conservation.ExhaustedAfterAllRetries | internal/transport/queue/consumer.go:99-118 | A notification that only failed transiently, with no attempt spoilt, and has left its lane was tried exactly once and once more per retry allowed |
| Conservation.LanesArePure | internal/infrastructure/rabbitmq/topology.go:33-43 | Whatever is on a lane's queue has that type and priority, a recipient valid for it, and is what the API composed but for its retry count |
| Conservation.ConfirmedIsKeptWhenBound | internal/infrastructure/rabbitmq/publisher.go:91-116 | A message the broker takes is kept if and only if its routing key is bound |
| Conservation.UnboundIsAcceptedAndLost | internal/infrastructure/rabbitmq/publisher.go:95-95 | On a broker without the lane's binding any request that can be composed may be accepted and confirmed, and is then nowhere |
| Conservation.FailedRequeueChangesNothing | internal/transport/queue/consumer.go:99-106 | After a failed publish and the nack the delivery is back in its place with body and retry count unchanged |
| Conservation.AmbiguousRequeueDuplicates | internal/transport/queue/consumer.go:99-117 | If the broker took the message of a publish that failed, the delivery is back in its place after the nack and the retry, or the dead letter, is stored as well |
| Conservation.UnconfirmedMayBeKept | internal/app/notification/service.go:76-78 | A send that failed at the publisher is not reported as accepted, and its notification is stored once or not at all, as the broker took it or not |
| Workload.WorkNeverRises | internal/transport/queue/consumer.go:85-118 | No deed raises attempts made plus attempts still possible beyond what entries and spoilt attempts allow |
| Workload.WorkIsBounded | internal/transport/queue/consumer.go:85-118 | In any run, and whichever notifications are counted, the attempts are at most those allowed by entries and spoilt attempts, each by the limit of its own lane |
| Workload.AttemptsPerNotification | internal/transport/queue/consumer.go:85-118 | A notification is attempted at most (M + 1) times its entries and spoilt attempts, M its own lane's limit |
| Workload.SpoiltAreAttempts | internal/transport/queue/consumer.go:85-118 | A notification has no more spoilt attempts, and attempts under way at the broker, than attempts |
| Workload.AllWorkIsBounded | internal/transport/queue/consumer.go:85-118 | Over all notifications the attempts are at most (M + 1) times the entries and spoilt attempts, for any M no valid lane's limit exceeds |
| Draining.DrainingIsBounded | internal/transport/queue/consumer.go:60-119 | Without new sends, runs of any number of workers are bounded by the weight of the starting state and the disruptions |
| Draining.RestIsDrained | internal/transport/queue/consumer.go:60-119 | Workers left alone stop only when every lane is empty and nothing is in hand |
| Draining.EveryNotificationEnds | internal/transport/queue/consumer.go:85-118 | Then every notification that entered the broker, whether or not the API learnt of it, is in the dead-letter queue, delivered as something it renders to, or dropped for a recorded reason that is true of it |
| Draining.EveryAcceptedEnds | internal/transport/queue/consumer.go:85-118 | In particular every accepted one |
| Draining.DisconnectionGivesAllBack | cmd/worker/main.go:51-55 | A broken connection gives every unsettled delivery of the worker back to its place, leaves exactly those in its hands, and changes nothing else in the broker |
| Draining.CrashGivesAllBack | cmd/worker/main.go:51-55 | A crash gives every unsettled delivery of the worker back to its place, ends what it had in hand, and changes nothing else in the broker |
| Isolation.ViewHolds | internal/infrastructure/rabbitmq/topology.go:14-16 | A lane's view holds exactly the copies, deliveries in hand, records and notifications of its type and priority |
| Isolation.ViewOfStep | internal/infrastructure/rabbitmq/topology.go:14-16 | A step on a lane's message is the same step of that lane alone; any other leaves the lane's copies, deliveries in hand and records as they are |
| Isolation.LaneRunsAlone | internal/infrastructure/rabbitmq/topology.go:14-16 | The steps of a run that touch a lane are, in order, a run of that lane alone with the same result, whatever the other lanes do |
| Isolation.ViewIsReachable | internal/infrastructure/rabbitmq/topology.go:14-16 | What a deployment can hold of a lane, the lane alone can come to hold |
| Isolation.StepFromView | internal/infrastructure/rabbitmq/topology.go:14-16 | Whatever a lane's senders, workers and broker could do alone they can do now, among the others, new sends under fresh IDs |
| Isolation.LaneIsNotHeldUp | internal/infrastructure/rabbitmq/topology.go:14-16 | At the broker and the workers, every run of a lane alone, new sends under fresh IDs included, can be taken step for step and with nothing in between in the whole deployment |
| Consumer.LiveMessage.IncrementRetry | internal/domain/notification/message.go:48-51 | The retry count goes up by one and nothing else changes |
| Consumer.PolicyOfHandle | internal/transport/queue/consumer.go:74-119 | One settlement, last; a nack exactly when a needed publish failed; a retry exactly after a transient failure with a retry left, as the same message with one more; a dead letter exactly when none is left, unchanged |
| Consumer.OthersKeepMine | internal/transport/queue/consumer.go:57-72 | Whatever API, broker and other workers do, the delivery in hand stays the worker's, in its phase, and the only one it has begun, even after its connection broke |
| Consumer.OthersKeepFree | internal/transport/queue/consumer.go:57-72 | Whatever the others do, a worker between deliveries has begun none |
| Consumer.Consumer.Announce | internal/transport/queue/consumer.go:99-117 | The retry or dead letter is published while the original is still unsettled, and decides whether it will be acked or nacked |
| Consumer.Consumer.SettleDelivery | internal/transport/queue/consumer.go:81-117 | One ack or nack, as the handling demands, after which the worker has nothing begun |
| Consumer.Consumer.Drop | internal/transport/queue/consumer.go:77-83 | A body that does not decode is acked and nothing else is called |
| Consumer.Consumer.RetryOrBury | internal/transport/queue/consumer.go:99-118 | After a transient failure: publish first, then ack if it succeeded and nack if not |
| Consumer.Consumer.Handle | internal/transport/queue/consumer.go:74-119 | Under any interference all that happens is a run of the delivery system, and the worker's own part in it is exactly the policy's calls, in order |
| Consumer.Consumer.Receive | internal/transport/queue/consumer.go:62-68 | The loop gets a delivery of its own worker that it has not begun, and none exactly if the worker has no delivery |
| Consumer.Consumer.Run | internal/transport/queue/consumer.go:60-72 | Deliveries are handled one at a time, each to its end; the loop is left only at a turn that finds the context cancelled, the channel closed, or nothing to take, or when all turns are used; the calls are those of the handled deliveries in order |
| Consumer.HandleSettlesOnce | internal/transport/queue/consumer.go:74-119 | Handling a delivery settles it exactly once |
| Consumer.RunSettlesEachOnce | internal/transport/queue/consumer.go:60-119 | A run of the loop makes exactly one settlement for each delivery handled |
| Publisher.ReleaseBounded | internal/infrastructure/rabbitmq/publisher.go:85-89 | If no waiter's deadline is later than a limit, each one in the queue delays the lock past it by its write at most |
| Publisher.SerialKeepsTime | internal/infrastructure/rabbitmq/publisher.go:85-116 | Every step of callers, broker and time keeps every caller able to meet its promise |
| Publisher.EveryCallReturnsInTime | internal/infrastructure/rabbitmq/publisher.go:82-116 | Whatever the broker does and however many wait, every call returns by its arrival plus the timeout plus the writes up to its own; exactly the timeout if writes take no time |
| Publisher.NeverLaterThanLatest | internal/infrastructure/rabbitmq/publisher.go:85-116 | Whatever happens afterwards, a call that arrives is back by a time computed from who is inside and their deadlines |
| Publisher.LatestIsReached | internal/infrastructure/rabbitmq/publisher.go:85-116 | That time is exact: some continuation brings the call back just then |
| Publisher.OwnDeadlineIsMet | internal/infrastructure/rabbitmq/publisher.go:82-89 | A call that arrives is sure to be back by its own deadline if and only if that time is not past it; with instantaneous writes, if and only if the deadline has not passed and nobody inside has a later one |
| Publisher.NeverLaterThanTurn | internal/infrastructure/rabbitmq/publisher.go:85-89 | Whatever happens afterwards, a call that arrives gets the lock by a time computed from who is inside and their deadlines |
| Publisher.TurnIsReached | internal/infrastructure/rabbitmq/publisher.go:85-89 | That time is exact: some continuation gives the call the lock just then |
| Publisher.FreeIsMaximum | internal/infrastructure/rabbitmq/publisher.go:85-89 | Without the bulk calls inside, and with instantaneous writes, that time is the arrival or the latest deadline of the other calls inside |
| Publisher.BulkCanDelayTransactional | internal/infrastructure/rabbitmq/publisher.go:25-33 | A call that arrives is sure to get the lock as soon as it would without bulk calls if and only if the exact time is no later; a bulk call inside with a later deadline always prevents that, and with instantaneous writes nothing else does |
| Publisher.BulkHoldsTheLock | internal/infrastructure/rabbitmq/topology.go:14-16 | A concrete run: a transactional call that would have the lock at once gets it only when the bulk call before it has timed out |
| Publisher.OwnDeadlineCanPass | internal/infrastructure/rabbitmq/publisher.go:82-84 | A concrete run in which a queued call succeeds after its own deadline |
| Publisher.NeverStuck | internal/infrastructure/rabbitmq/publisher.go:88-112 | While anyone waits or holds the lock, somebody can move or time can pass |
| Publisher.StepKeepsOrder | internal/infrastructure/rabbitmq/publisher.go:88-116 | Calls get the lock, write and return in order of arrival, each with its own write's number |
| Publisher.ConfirmsAreOwn | internal/infrastructure/rabbitmq/publisher.go:88-116 | Success means the caller's own message was confirmed; no other call has that number, so a late confirm is never another's |
| Publisher.Deadline | internal/infrastructure/rabbitmq/publisher.go:82-86 | The deadline is the timeout or the caller's own, whichever comes first |
| Publisher.Publisher.Lock | internal/infrastructure/rabbitmq/publisher.go:88-89 | A waiting call becomes first in line with the lock free, whatever the others do |
| Publisher.Publisher.WaitConfirm | internal/infrastructure/rabbitmq/publisher.go:109-112 | The wait ends with the confirm or the end of the context, while nobody else gets the lock; if nobody else acts, no later than that |
| Publisher.Publisher.AwaitConfirm | internal/infrastructure/rabbitmq/publisher.go:109-116 | The outcome is what the broker answered to this very write: success on an ack, failure on a nack; it is abandoned only if the context is over, and an answer is passed over only if the context is over and the wait has seen that |
| Publisher.Publisher.Section | internal/infrastructure/rabbitmq/publisher.go:91-116 | Under the lock, while others arrive, the broker answers and time passes: write, wait, let go. A failed write fails the call and writes nothing; after a write the outcome is as for `AwaitConfirm` |
| Publisher.Publisher.Publish | internal/infrastructure/rabbitmq/publisher.go:76-117 | A call with its deadline fixed on arrival writes its own message once; it succeeds if that was acked, fails if it was nacked, and gives up only when its context is over; it is back within the promised time, and left alone and unanswered exactly at its deadline |
| Pipeline.StepKeepsSound | internal/infrastructure/rabbitmq/consumer.go:28-45 | Every step of broker, forwarders, loop, cancellation and disconnection keeps deliveries in line and within the prefetch |
| Pipeline.OrderIsKept | cmd/worker/main.go:116-133 | Through both forwarders deliveries keep the broker's order; the handled ones are the first ones, each once, settled in turn, and the unsettled ones never exceed a set prefetch |
| Pipeline.StrandedStaysUnsettled | cmd/worker/main.go:121-129 | Once the adapter or the loop has returned, deliveries not yet handled are never handled or settled, whatever happens |
| Pipeline.UncancelledLoopServesAll | internal/transport/queue/consumer.go:60-72 | A loop that ends uncancelled ends on a closed connection, with everything the library kept handled and settled |
| Pipeline.KeptIsServed | internal/infrastructure/rabbitmq/consumer.go:38-45 | When the connection closes, exactly what the process has got hold of and what the library keeps is still handled and settled, if nobody cancels |
| Pipeline.ProcessComesToRest | internal/infrastructure/rabbitmq/consumer.go:38-45 | The process's own steps are bounded by a constant for each delivery, disconnection and cancellation |
| Pipeline.RestIsServed | internal/transport/queue/consumer.go:57-72 | At rest, connected and not cancelled, everything delivered is settled and the broker may send more |
| Pipeline.RestIsOver | internal/transport/queue/consumer.go:60-72 | At rest after a cancellation or on a closed connection the loop has returned; never cancelled, it has settled all the library kept |
| Wiring.WorkerIsConnection | cmd/worker/main.go:69-81 | A worker's part in any run of the deployment, while it is connected, is a run of its connection; so it never has more than a set prefetch in hand, and begins and settles its deliveries one by one |
| Wiring.SettlementsAreTheCalls | internal/transport/queue/consumer.go:74-119 | The acks and nacks of that run are those the consumer calls, in order |
| Pipeline.Connection.Interfere | cmd/worker/main.go:75-81 | Nobody but a goroutine itself changes its own part of the state; if nobody acts, nothing changes |
| Pipeline.Connection.Forward | internal/infrastructure/rabbitmq/consumer.go:38-45 | Each round passes on exactly the next delivery the library has, unless it has none and the connection is open; the forwarder stops early only at a delivery the adapter does not take, or to close its channel when the library has no more and never will; left alone it passes on the first one |
| Pipeline.Connection.Adapt | cmd/worker/main.go:114-133 | Each round hands on exactly the next delivery, unless none waits and nothing is over; the adapter stops early only at a delivery the loop does not take, or to close its channel when cut off or cancelled; left alone it hands on the one that waits |
| Pipeline.Connection.Run | internal/transport/queue/consumer.go:60-72 | Each round settles exactly the next delivery, by the ack or nack its handling says, unless none waits and nothing is over; the loop ends early only when cut off or cancelled; left alone it settles the one that waits |

## Left out

- AMQP framing, dialling, closing and the QoS call: foreign library; the broker is abstract, with explicit faults.
- The Echo server, generated OpenAPI code, middleware, health check, logging, HTTP status mapping and single-item endpoints: plumbing without a hard property. Error responses keep their code and field, not their text.
- Template rendering: a partial function of template and data; the subject a processor passes on is not followed to the provider.
- YAML decoding of the header: a partial function of the raw header text.
- Mail address parsing and the checks on its result: one opaque predicate, after the two checks on the raw text.
- The token bucket of the rate limiter: its wait succeeds or fails.
- Real senders: any answer is allowed; permanent errors by a sender are drops, as in the code.
- Environment configuration and signal handling: limits and prefetch are parameters.
- `MarkSent`, `MarkFailed` and status fields: nothing calls them in production.
- RecipientOk: says nothing about which mail addresses are well formed; it uses the same predicate at both ends.
- EveryCallReturnsInTime: relies on a lock in order of arrival and on goroutines running before time passes, which Go promises only approximately.
- Receive: does not say in which order a worker's deliveries come; `Pipeline` proves that order on one connection, and the delivery system allows any. A closed channel is a turn of its own, which `Run` is told of.
- LaneIsNotHeldUp: is about the broker and the workers, where a send is one step; what a send waits for before that, at the publisher's lock, is in `BulkCanDelayTransactional`.
- WorkerIsConnection: numbers deliveries in the order the worker begins them; that this is the order it was given them is what the forwarders add (`OrderIsKept`), the delivery system by itself would allow any.
- Copies the broker drops by policy (length limits, expiry): no such policy is declared.
- Messages put into a queue by hand, of another shape than the API composes: only `Consumer` and the policy cover them.
