# Ingestion spine: a verified model

This project models how the platform turns GitHub webhooks into rows and canonical
events, and proves what its design promises about that path: connector-github enriches
and re-emits each webhook, the normalizer applies it in one transaction that also
stages its canonical events, and outbox-relay carries those events to the canonical
topic. Two client-side state machines the connector depends on, the rate budget and the
token cache, are modelled beside it.

`dafny verify dfyconfig.toml` checks everything.

## How the model is built

**Entities and payloads.** `Connector`, `Json`, `Kafka` and `GitHubSource` hold the
entity types, decoded JSON as field maps, messages, and `Normalize` with its per-event
functions; `Payloads` is the reference for it, which reads a payload's members without decoding
anything. `Enrichment` and `ConnectorService` are connector-github: the merge of the
`_enrichment` block, and the loop around it.

**Tables.** `Schema` represents each table as a map keyed by its uniqueness constraint
and each SQL statement as a function on the tables. Generated ids come from a counter
that a rollback does not take back. `Views` defines the same tables without generated
values and what one delivery means on them (`Apply`); `Rep` says that the tables hold the
rows of a view and nothing else, linked as the view says, each row and event with an id of
its own. `Isolation` is about what a transaction leaves alone.

**Runs.** `Delivery` is the normalizer as a transition system: one step is one attempt at
one message, chosen freely by the environment and as often as it likes, with every
lookup, statement and commit free to fail, and with commits that happen but are not
reported. A theorem about `Run` is therefore a theorem about every sequence of
redeliveries, crashes, rollbacks and lost acknowledgements. `Integrity`, `Projection`,
`Convergence` and `Offsets` prove properties of those runs, and `Announcements` and
`Mirror` what the canonical events say about the rows. `Normalizer` is the same
service in imperative form, a session whose statements change the tables, the loops of
`persist`, `WithTenant` and the turn of the consumer loop, each tied to the functions the
theorems are about.

**Racing transactions.** `Delivery` takes a committed transaction as one step. `TxTables`
takes it apart into the statements that write rows, lets any number of transactions
interleave, and proves that what they commit is what `Delivery` says: each committed
delivery once, in commit order. There resolving a login is one statement; `TxRace` takes it
apart further, into the lookup, the two inserts and the second lookup with their generated
ids, and `TxSerial` proves that taken apart it is still serializable.

**Relay.** `RelayProtocol` is the outbox with any number of concurrent relays;
`RelayOrder` is about the order of first publications; `RelayService` is `drainBatch` and
the loop around it in imperative form, with everyone else free to act between any two of
its statements. `Spine` composes connector, deliveries and relays; its outbox ids are those
the racing transactions happened to draw, in any order with the commits.

**Budget and tokens.** `Budget` is the classes of libs/go/githubapp that count calls, and
`BudgetSafety` adds GitHub's own counter and the calls in flight. `TokenCache` is `Token` as
interleaved steps of any number of goroutines, and `TokenSource` the same in imperative form:
a call is a path through those steps, with everyone else free to act between any two.
`Backoff` is the capped delay in Go's wrapping arithmetic.

## Assumptions, by name

- `Offsets.AlwaysRedelivers`, `ConnectorService.AlwaysRedelivers`: an offset is handed out
  only after every earlier one was fetched and acknowledged. The comments at
  services/normalizer/main.go:16 and :147 rely on it, but the loop does not keep the
  message and `Fetch` (libs/go/kafka/kafka.go:88-98) wraps a library call.
  `Offsets.MovingOnLosesMessages` and `ConnectorService.MovingOnSkipsWebhooks` are runs that
  lose a message without it. `Offsets.SafeIff` says exactly which runs lose none, in terms of
  the offsets fetched, the fates of their commits and dead-letter writes, and copies.
- `RelayOrder.OneRelay`: no pass is opened while another is open. It covers a crashed relay
  too: its pass is over, and its locks released, before the next SELECT. A restarted relay
  that meets locks the server still holds for the old one skips those rows, and counts as a
  second relay; `RelayOrder.TwoRelaysReorder` shows what two can do.
- Rows that become visible in id order (`RelayProtocol.Ascending` of the committed rows):
  exactly when they do is the topic without repeats a prefix of the outbox in every run
  (`RelayOrder.PrefixIffAscending`, and `RelayOrder.IdOrderPrefixIffAscending` against the rows
  in id order; `RelayOrder.LateCommitIsOvertaken` is the smallest failing run). Without it,
  `RelayOrder.OneRelayKeepsOrder` still orders any two rows whose commit order agrees with
  their ids.
- Postgres: a transaction's effects appear together; an insert that meets an uncommitted
  row with the same unique key waits for that transaction; row locks exclude. Kafka: a
  write that reports an error may have happened. SHA-256 is injective.
- `BudgetSafety.Bounded`: at most the safety floor is let through and unaccounted for
  at any observation. The code does not enforce it; `BudgetSafety.FloorIsExact` shows 50
  is exactly the bound for which the floor suffices.
- `mint` returns; what it returns is otherwise arbitrary.

Nothing is assumed about a webhook's own `_enrichment` member: the results about emissions
say exactly where it matters (`Enrichment.BlockHarmless`).

## Where code and documentation differ

- services/normalizer/main.go:14-16 says a message that fails transiently is redelivered
  until it succeeds. The loop alone does not see to that; it needs the assumption above.
- The comment on `drainBatch` says a single instance preserves per-tenant order. It does
  so for rows that become visible in id order; a transaction that drew lower ids and
  commits after a pass has published higher ones is overtaken.
- The comment on `safetyFloor` gives it as headroom for in-flight calls; it is enough for
  50 points in flight, not for any number of calls.

## Model

| member | source | states |
|---|---|---|
| GitHubSource.ResultsAreWellFormed | services/normalizer/main.go:314-320 | every result of any event has items of kind pr, issue or commit only, contains the parent item of each of its reviews, and with reviews holds only PRs |
| GitHubSource.ReviewIsWellFormed | libs/go/connector/github/github.go:209-241 | a review webhook's result is one review and, as the one item, ensure-only, the PR in the same repository under the node id the review names |
| GitHubSource.AppendCommits | libs/go/connector/github/github.go:408-422 | the push loop yields one item a commit, in order, or the first decoding error |
| Payloads.NormalizeIsRead | libs/go/connector/github/github.go:33-60 | for any bytes: an event of one of the eight types is refused as undecodable exactly if a member has the wrong type, for its missing installation exactly if it decodes and names none, and otherwise means, entity for entity and column for column, what the members of its payload say; every other type is skipped unread |
| Payloads.PullRequestIsRead | libs/go/connector/github/github.go:113-192 | a pull_request event is one PR: status and stage merged exactly if the flag is set, else closed exactly if the state says so, else open; created exactly for "opened", changed state exactly for the four transitions, else updated; dated by its merge, else its close, else its creation; its number from the top level if the object has none; each size from the block if it has one, else from the object |
| Payloads.ReviewIsRead | libs/go/connector/github/github.go:209-241 | a submitted review is that review, its state in lower case, and the PR it names with the status, stage and sizes of the PR object, without event or date; any other action is skipped |
| Payloads.ReviewCommentIsRead | libs/go/connector/github/github.go:262-285 | a new comment on a PR diff is that comment under the PR's number; any other action is skipped |
| Payloads.IssueCommentIsRead | libs/go/connector/github/github.go:298-325 | a new comment on an issue is that comment, on a PR exactly if the issue has a pull_request member, null included; any other action is skipped |
| Payloads.IssueIsRead | libs/go/connector/github/github.go:344-376 | an issue is one item, closed exactly if its state says so and else open, with the events of a PR, dated by its close, else its creation |
| Payloads.PushIsRead | libs/go/connector/github/github.go:395-423 | a push is one item a commit, in order, titled by the text before the first line break; without commits it is skipped |
| Payloads.CheckRunIsRead | libs/go/connector/github/github.go:442-464 | a completed run is that check; any other status is skipped |
| Payloads.StatusIsRead | libs/go/connector/github/github.go:478-515 | a status that is not pending is a check under "status:" and the decimal notation of its id, concluded as failure exactly for failure and error and else as the state says |
| GitHubSource.SkippedIffEmpty | libs/go/connector/connector.go:120-124 | a result holds no entity exactly if it is marked as skipped |
| Enrichment.DetailRoundTrip | services/connector-github/main.go:253-264 | decoding the block that merging writes gives back exactly the enrichment that was written |
| Enrichment.EnrichmentCommutesWithNormalization | services/connector-github/main.go:253-264 | normalizing a merged payload is normalizing the original and overlaying five fields, if and only if the payload does not decode anyway or its own block, if any, does |
| Enrichment.EmissionNormalizesAlike | libs/go/connector/github/github.go:113-158 | an emission has its webhook's delivery id and event type, and normalizes as it does outside ChangedFiles, Additions, Deletions, CommitOIDs and Files, errors included, if and only if it is passed through unchanged or the webhook's own block does not alone keep it from decoding |
| Enrichment.ReEmissionsAgree | services/connector-github/main.go:180-248 | any two emissions of one webhook have one delivery id and event type, and normalize alike outside the five fields if and only if the webhook's own block is harmless or both or neither were merged |
| Enrichment.Process | services/connector-github/main.go:151-175 | the emitted message is the output for that webhook and what GitHub answered, whose key, headers, stamps, status and body the next four rows give, and an emission of its webhook |
| Enrichment.EnrichedIsRead | services/connector-github/main.go:195-249 | a PR webhook that decodes, names repository and installation and is handled with credentials, for which GitHub brings a detail at once or after one rate limit of at most 30 s waited out, means to the normalizer one item with that detail's counts and commits, with the patches as its files if they were asked for and fetched and else the detail's files, and for the rest what the webhook says |
| Enrichment.StatusIsExact | services/connector-github/main.go:180-220 | the stamped status is "skipped", "disabled", "enriched", "rate_limited" or "failed", each exactly when that is what happened |
| Enrichment.EmissionKeepsTheRest | services/connector-github/main.go:151-175 | key and all other headers are the webhook's; the source time is stamped exactly for addressable PRs that have one, their update before their creation |
| Enrichment.PassedThroughIff | services/connector-github/main.go:195-219 | the body is passed through unchanged if and only if no detail was brought or the webhook already carried that very block |
| Kafka.CopyHeaders | services/connector-github/main.go:164-167 | the copying loop yields exactly the given header map |
| ConnectorService.Service.Handle | services/connector-github/main.go:99-124 | one turn writes the emission unless the write is lost, commits the offset exactly when the write is acknowledged, and otherwise counts up and backs off |
| ConnectorService.WebhooksAreEmitted | services/connector-github/main.go:99-124 | if offsets are handed out only after every earlier one was fetched and acknowledged, every webhook below the committed offset has been emitted, through any failed writes and commits |
| ConnectorService.EmittedBelowIff | services/connector-github/main.go:99-124 | a run has emitted every webhook below the committed offset if and only if for each of them some turn wrote a message that is an emission of it |
| ConnectorService.MovingOnSkipsWebhooks | libs/go/kafka/kafka.go:87-98 | without the contract: a failed write followed by a successful one commits past a webhook that was never emitted |
| ConnectorService.CalmRunsFinish | services/connector-github/main.go:99-124 | after any run, the webhooks from the committed offset on, fetched in order with nothing failing, are all emitted, in order, and every offset is committed |
| ConnectorService.EmissionsHaveWebhooks | services/connector-github/main.go:151-175 | the enriched topic holds nothing but emissions of webhooks |
| Views.EffectRealizesApply | services/normalizer/main.go:208-218 | the transaction of a fresh delivery takes tables that hold exactly the rows of a view, with distinct ids and no contributor that no link names, to tables that hold exactly the view with the delivery applied, and fails if and only if a review's parent is missing |
| Views.NormalizedIsComplete | services/normalizer/main.go:321-331 | a well-formed result has every parent the review loop looks up |
| Views.EnsureWorkRep | services/normalizer/main.go:402-416 | ensure inserts an absent item and leaves an existing one, whatever it holds, with its columns |
| Views.UpsertWorkRep | services/normalizer/main.go:373-397 | upsert inserts, or overwrites all but number, author and creation time; every row keeps its id |
| Views.UpsertReviewRep | services/normalizer/main.go:419-431 | a review row is linked to the rows of its natural keys, and a repeated one changes only state, comment count and time |
| Views.UpsertCheckRep | services/normalizer/main.go:434-448 | a check row keeps head SHA and name when refreshed and stores an empty conclusion as NULL; every row keeps its id |
| Views.ResolveRep | services/normalizer/main.go:451-493 | resolving a login gives the contributor linked to its hash, created with name and bot flag if unseen, and leaves no other contributor behind |
| Delivery.ExactlyOnceEffect | services/normalizer/main.go:165-226 | after every run the tables hold exactly the rows of each committed delivery applied once in commit order, linked by distinct generated ids and without orphan contributors, and no non-empty delivery id commits twice in a tenant |
| Delivery.CommitsWereRequested | services/normalizer/main.go:183-218 | every committed delivery is what some attempted message asks for |
| Delivery.AcknowledgedIsAccounted | services/normalizer/main.go:208-226 | when process returns nil on a message that asks for something, that delivery has been committed |
| Delivery.AcknowledgedNeverLost | services/normalizer/main.go:165-226 | at the end of every run each message process ever acknowledged is still accounted for |
| Delivery.RepliesAreExact | services/normalizer/main.go:181-226 | in every reachable state process returns a permanent error exactly on a message that does not normalize; nil exactly on a skipped one and, once the tenant lookup answered, on one of an unknown installation, one whose commit is reported, or one whose delivery was committed before; otherwise a transient error |
| Delivery.RequestIsExact | services/normalizer/main.go:174-192 | a message asks for its delivery exactly if it normalizes, is not skipped and its installation is known, under its delivery and event headers and that installation's tenant |
| Delivery.PermanentLeavesNoRow | services/normalizer/main.go:179-184 | an attempt that ends in a permanent error left every table as it was, and its message does not normalize |
| Delivery.PersistNeverFails | services/normalizer/main.go:321-327 | on a complete result persist has no permanent error, whatever the tables hold |
| Delivery.ReEmissionsCommitOnce | services/normalizer/main.go:262-276 | of all differently enriched copies of one delivery at most one commits, with the meaning of the webhook outside the five fields unless the webhook's own block is harmful |
| Delivery.IdsNeverChange | services/normalizer/main.go:373-416 | the id of a work item, review, check or link, once drawn, is its id in every later state of the run |
| Integrity.ReferentialIntegrity | services/normalizer/main.go:288-338 | in every reachable state each review's work_item_id is that of exactly one row, a PR of its tenant with the node id some committed delivery named for it, and its reviewer_id names a contributor of its tenant |
| Integrity.MeaningIsSound | db/migrations/0006_write_model.sql:6-24 | applying well-formed deliveries leaves no review without its PR row and a committed delivery that explains it |
| Announcements.WorkEventMatchesRow | services/normalizer/main.go:289-312 | the event staged for an item and the row now under its key carry the item's title, status, stage and sizes, its kind, repo and node id as the key, and, if the row is new, its number and author; the event also its commits and files; no other row changes |
| Announcements.EnsuredItemIsSilent | services/normalizer/main.go:284-305 | an ensure-only item stages nothing, changes no row that is there and otherwise inserts the item's columns |
| Announcements.ReviewEventMatchesRow | services/normalizer/main.go:325-338 | the event of a review and its row carry its state, count and time under its source id; a new row is that of the contributor linked to the login the event names |
| Announcements.CheckEventMatchesRow | services/normalizer/main.go:340-354 | the event of a check and its row agree on conclusion, an empty one being NULL, and on the time, completion before start, and, if the row is new, on head SHA and name |
| Mirror.DeliveryIsTold | services/normalizer/main.go:502-558 | a delivery's events are one for each item to be announced, each signed review, each check and each comment, in that order, each telling its entity under the entity's own keys |
| Mirror.EventsMirrorRows | services/normalizer/main.go:283-368 | in every reachable state the last event about a work item, review or check says what its row says |
| Mirror.RacingEventsMirrorRows | services/normalizer/main.go:200-218 | the same of the committed rows of whole transactions that race, in every interleaving |
| Mirror.ConsumersMirrorRows | services/outbox-relay/main.go:1-11 | with one relay and rows visible in id order, once nothing is pending the last event about a row that consumers who drop repeats have seen says what the row says |
| Isolation.EffectConfined | db/migrations/0006_write_model.sql:128-143 | one delivery's transaction changes no row of another tenant, in any table or the outbox, and no id already drawn |
| Isolation.ResolveConfined | db/migrations/0006_write_model.sql:128-143 | resolving a contributor changes no other tenant's contributors or links |
| Projection.TenantProjection | libs/go/tenancy/tenancy.go:55-75 | running one tenant's messages alone yields, up to generated values, exactly that tenant's part of the interleaved run, with the same committed deliveries in the same order |
| Projection.RepliesDoNotDependOnOthers | services/normalizer/main.go:192-226 | what other tenants did changes no reply to a tenant's own message |
| Projection.AttemptsAreConfined | services/normalizer/main.go:192-217 | in every reachable state an attempt writes only rows of the tenant its installation maps to, and none without one |
| Projection.EventsAreOwn | services/normalizer/main.go:283-368 | every event a delivery stages belongs to its tenant |
| Convergence.OrderDoesNotMatter | services/normalizer/main.go:288-338 | one PR webhook and any reviews of that PR, distinct and agreeing on number, author and creation time, end from any state in the same rows and the same multiset of events in every order |
| Convergence.OutOfOrderConvergence | services/normalizer/main.go:284-305 | two runs that, after the same deliveries, committed such a family in different orders hold the same tables up to generated values and outbox order |
| Convergence.InterleavedConvergence | services/normalizer/main.go:283-368 | with any other deliveries in between, in any order: if what touches the PR or these reviews is the same family in both runs, both end with the same work item, reviews and multiset of the family's events |
| Convergence.EarlyReviewIsHarmlessIffAgreeing | services/normalizer/main.go:373-416 | a review handled before its PR's own webhook leaves the same work item as after it if and only if the row existed or the payloads agree on number, author and creation time |
| Convergence.PayloadsAgreeIffNumbered | libs/go/connector/github/github.go:113-241 | webhooks carrying the same pull_request and repository objects name one work item, and agree on number, author and creation time if and only if the object has its number or the PR webhook has none to substitute |
| Convergence.WebhookShapes | libs/go/connector/github/github.go:113-141 | PR and review webhooks that normalize have the shapes the convergence results are about |
| Offsets.OffsetsAreSafe | services/normalizer/main.go:113-155 | if offsets are handed out only after every earlier one was fetched and acknowledged, every offset below the committed one is committed as a delivery, skipped, of an unknown installation, or in the dead-letter topic, in every state of every run |
| Offsets.AcknowledgedIsSettled | services/normalizer/main.go:125-146 | a turn that reaches the offset commit has settled its message |
| Offsets.AskingNothingIsAcknowledged | services/normalizer/main.go:187-199 | a turn on a message that asks for nothing reaches the offset commit and changes nothing else, unless the tenant lookup fails on one that is not skipped |
| Offsets.CalmRunsFinish | services/normalizer/main.go:113-155 | progress: after any run, the offsets from the committed one on, fetched in order with nothing failing, end with the whole log committed, and with every message settled if offsets were handed out as assumed until then; so do they from the start of the log |
| Offsets.DeadLettersAreBadMessages | services/normalizer/main.go:249-258 | after every run each dead letter is a message of the log that does not normalize, with its key, body and headers, and the reason it was refused for |
| Offsets.SettledIff | services/normalizer/main.go:113-155 | a message is settled after a run if and only if it asks for nothing or some turn fetched a copy of it and got its database commit or, for a bad one, its dead-letter write, reported or not |
| Offsets.SafeIff | services/normalizer/main.go:113-155 | a run leaves nothing unsettled below its committed offset if and only if each message there asks for nothing or was settled by one of its turns |
| Offsets.CommitIsSafeIff | services/normalizer/main.go:574-578 | committing an offset after a run is safe if and only if each earlier message asks for nothing or was settled by one of the turns so far, this one included |
| Offsets.MovingOnLosesMessages | libs/go/kafka/kafka.go:87-98 | a run that breaks the contract: a transient failure followed by a success commits past a message nothing accounts for |
| Normalizer.Session.MarkDelivery | services/normalizer/main.go:262-276 | marks exactly a non-empty unseen delivery id, with its event type, and tells whether it was unseen, an empty id always counting as such |
| Normalizer.Session.UpsertWorkItem | services/normalizer/main.go:373-397 | the row is inserted or refreshed, and the id returned is that of the row now under the key |
| Normalizer.Session.EnsureWorkItem | services/normalizer/main.go:402-416 | an existing row is left untouched and its id returned; otherwise the row is inserted |
| Normalizer.Session.ResolveContributor | services/normalizer/main.go:451-493 | the id returned is the one linked to the login's hash; if the link was missing it is that of a contributor of the tenant named like the login, a bot exactly if the login ends in "[bot]", and otherwise nothing changes |
| Normalizer.Session.InsertReview | services/normalizer/main.go:419-431 | inserts, or refreshes the three mutable columns of the row under the source id |
| Normalizer.Session.UpsertCheckRun | services/normalizer/main.go:434-448 | inserts, or refreshes conclusion and times of the row under the source id |
| Normalizer.Session.EnqueueOutbox | services/normalizer/main.go:234-246 | appends exactly the event, with fresh ids, inside the transaction |
| Normalizer.Session.PersistWorkItems | services/normalizer/main.go:288-319 | the first loop of persist: items in order, ensure-only ones without event, the id of every node seen, and one staged event for each other item that tells exactly that item |
| Normalizer.Session.PersistReviewRows | services/normalizer/main.go:321-351 | the second loop: skips anonymous reviews whole, and reports a missing parent exactly when one is missing |
| Normalizer.Session.Persist | services/normalizer/main.go:283-368 | all four loops: on success the tables are those of the specification, and with a reliable database the only error is a missing parent |
| Normalizer.Session.MarkAndPersist | services/normalizer/main.go:208-217 | the callback: false exactly on a duplicate, otherwise the whole effect of the delivery, and no permanent error on a complete result |
| Normalizer.Service.WithTenant | libs/go/tenancy/tenancy.go:55-75 | commits the session's tables only if the callback returned nil and the commit happened; otherwise nothing but drawn ids remains |
| Normalizer.Service.Process | services/normalizer/main.go:165-226 | tables and reply are those of the transition system's attempt with the fate the outside world imposed; a permanent error exactly if the message does not normalize, nil and no change if it asks for nothing, nil if nothing outside fails, transient if a new delivery's commit failed or went unreported |
| Normalizer.Service.DeadLetter | services/normalizer/main.go:251-258 | writes the message with its key, body and headers and the reason stamped on, and reports success only if acknowledged |
| Normalizer.Service.Handle | services/normalizer/main.go:113-155 | one turn of the loop: goes on to commit the offset of a message that asks for nothing, of a bad one exactly if its dead letter was acknowledged, of any when nothing outside fails, and not of a new delivery whose commit failed or went unreported; otherwise counts up and sleeps the capped delay |
| Backoff.Backoff | services/normalizer/main.go:581-590 | with wrapping 64-bit shifts the result is min(250ms * 2^(n-1), 30s) for every attempt number |
| Backoff.OverflowIsFar | services/normalizer/main.go:581-590 | a shift that overflows never lands between zero and the cap |
| Backoff.LongWaitsAreCapped | services/normalizer/main.go:581-590 | from the 37th attempt on the wrapped shift is nonpositive or above the cap, as the exact delay is |
| Backoff.DelaysAreMonotone | services/normalizer/main.go:50-53 | the first wait is 250 ms and each later one twice the one before up to 30 s, so that later attempts never wait less |
| TxRace.ContributorAgreement | services/normalizer/main.go:451-493 | over every interleaving and abort: links name existing contributors of their tenant and no two logins share one, each (tenant, hash) link is held once, and all stored reviews of a login carry the contributor it is linked to |
| TxRace.LoserFindsWinner | services/normalizer/main.go:481-491 | a transaction whose link insert did nothing always finds the winner's link when it reads again |
| TxRace.CommittedForGood | db/migrations/0006_write_model.sql:63-72 | committed links, contributors and reviewers never change or disappear |
| TxRace.OneCommitPerDelivery | services/normalizer/main.go:262-276 | however many transactions handle copies of a delivery at once, each non-empty delivery id commits at most once, and exactly the committed ones are marked |
| TxRace.OrphansNeedRaces | services/normalizer/main.go:454-491 | contributors that no link names come from races alone: while transactions run one after the other, wherever they abort, every committed contributor is named by a link |
| TxSerial.RacesAreSerializable | services/normalizer/main.go:208-218 | with resolving a login taken apart into its statements, the committed links and review owners of racing transactions are those of a serial execution in commit order, each having written all the reviews it was begun with |
| TxSerial.CommitIsSerial | services/normalizer/main.go:451-493 | the links and review owners a transaction commits are what its reviews amount to on the rows committed before it |
| TxTables.PlanRealizesApply | services/normalizer/main.go:283-368 | alone, the statements of a delivery leave the rows of the delivery applied and stage its events in order |
| TxTables.RacingExactlyOnce | services/normalizer/main.go:200-218 | over every interleaving and abort of whole transactions the committed rows of every table are those of the committed deliveries applied once each in commit order, the outbox holds their events in that order, and no non-empty delivery id commits twice |
| TxTables.CommitsWereBegun | libs/go/tenancy/tenancy.go:58-75 | whatever racing transactions commit was begun with exactly that content |
| TxTables.EveryTransactionCanCommit | libs/go/tenancy/tenancy.go:55-75 | from every reachable state, deadlocked or not, any transaction of a complete delivery can still finish: with the others aborted, which leaves nothing of them, its own statements take it to its commit unless its delivery was committed before |
| RelayProtocol.NoLostOrPhantomEmit | services/outbox-relay/main.go:154-190 | in every reachable state each message in the topic is a committed row, each stamped row is in the topic, and each committed row is in the topic or pending |
| RelayProtocol.DuplicatesAreAccountedFor | services/outbox-relay/main.go:113-126 | batches of concurrently open passes are disjoint, and a row is in the topic at most once more than the finished passes that wrote it without stamping it |
| RelayProtocol.RunKeepsInv | services/outbox-relay/main.go:113-191 | the exact count of every row in the topic, and the other invariants, hold after every run of any number of relays |
| RelayOrder.OneRelayKeepsOrder | services/outbox-relay/main.go:155-176 | with one relay a row is never first published before a smaller row that became visible before it, through failed and ambiguous writes, failed stamps and crashes |
| RelayOrder.TopicIsPrefixOfOutbox | services/outbox-relay/main.go:120-190 | with one relay and rows visible in id order, the topic without later duplicates is a prefix of the outbox |
| RelayOrder.PrefixIffAscending | services/outbox-relay/main.go:120-190 | over all runs of one relay that end with given rows visible, the topic without later duplicates is always a prefix of them if and only if they became visible in id order |
| RelayOrder.IdOrderPrefixIffAscending | services/outbox-relay/main.go:120-190 | the same for a prefix of those rows in id order |
| RelayOrder.TwoRelaysReorder | services/outbox-relay/main.go:110-112 | a run with two relays whose topic is no prefix of the outbox |
| RelayOrder.LateCommitIsOvertaken | services/outbox-relay/main.go:120-126 | a run with one relay in which row 0 becomes visible after row 1 was published, so that the topic is no prefix of the rows in id order |
| RelayService.Relay.DrainBatch | services/outbox-relay/main.go:113-191 | with everyone else acting between its statements: it locks what its SELECT returned, publishes in order up to the first failure, stamps or rolls back as update and commit go, and returns how many rows it newly stamped |
| RelayService.Relay.Publish | services/outbox-relay/main.go:154-179 | the loop publishes a prefix of the batch that ends before the first write that is not acknowledged |
| RelayService.Relay.Close | services/outbox-relay/main.go:181-190 | the published rows are stamped and reported only if update and commit succeed; otherwise the pass is rolled back and zero returned |
| RelayService.Relay.Drain | services/outbox-relay/main.go:73-90 | without failures or company each call reports a full batch while one is pending, and the smallest turns * batchSize pending rows reach the topic in id order |
| RelayService.CeilCallsEmptyTheOutbox | services/outbox-relay/main.go:73-90 | ceil(pending / batchSize) such calls leave nothing pending, each stamping at least one row |
| Spine.CommitsComeFromWebhooks | services/connector-github/main.go:91-124 | behind every committed delivery is a webhook with its delivery id and event type and, outside the five fields and unless its own block is harmful, its content |
| Spine.NoPhantomEmit | services/outbox-relay/main.go:1-11 | every message of the canonical topic is an event of a committed delivery that some message asked for |
| Spine.NoLostEmit | db/migrations/0005_outbox.sql:3-11 | every event of every committed delivery has a row that is in the topic or still pending |
| Spine.ExactlyOnceInOrder | services/normalizer/main.go:200-218 | with one relay and rows that become visible in the order of the ids their transactions drew, consumers that drop repeats see the events of the committed deliveries in commit order without a gap, and all of them once nothing is pending |
| Spine.SmallerIdsComeFirst | services/outbox-relay/main.go:155-176 | whatever the order of commits, with one relay an event committed earlier under a smaller id is first published before one committed later under a larger id |
| Budget.Budget.Get | libs/go/githubapp/ratelimit.go:50-57 | an unseen resource gets an unknown pool, and no other pool changes |
| Budget.Budget.Reserve | libs/go/githubapp/ratelimit.go:64-91 | charges max(cost, 1): refuses exactly when a known, unexpired pool would fall below 50, then with the clamped time to reset and no change; otherwise debits the charge, forgetting an expired window |
| Budget.Budget.Observe | libs/go/githubapp/ratelimit.go:95-102 | both headers overwrite the REST pool; a missing one changes nothing |
| Budget.Budget.ObserveGraphQL | libs/go/githubapp/ratelimit.go:105-116 | overwrites the GraphQL pool alone |
| Budget.Budget.Remaining | libs/go/githubapp/ratelimit.go:120-125 | reports the last known estimate and changes no pool's view |
| Budget.Registry.For | libs/go/githubapp/ratelimit.go:148-157 | one budget per installation, created unknown, never shared and never replaced |
| Budget.Client.Do | libs/go/githubapp/client.go:54-74 | a refused call changes nothing; one that fails after its reservation keeps the debit; a response with both headers replaces the estimate |
| Budget.Client.GraphQL | libs/go/githubapp/graphql.go:29-95 | the same for the GraphQL pool, where only usable data with a rate block replaces the estimate |
| Budget.ReservationsConserve | libs/go/githubapp/ratelimit.go:64-91 | between observations in a known window the estimate is the observed value less what was let through, which is at most max(0, observed - floor) |
| Budget.RefusalsAreExact | libs/go/githubapp/ratelimit.go:82-91 | a call is refused if and only if it would take the grants past the floor, with the exact time to reset as its wait |
| Budget.UnknownLetsAllThrough | libs/go/githubapp/ratelimit.go:73-81 | once the window has passed every call is let through until the next observation |
| BudgetSafety.FloorSuffices | libs/go/githubapp/ratelimit.go:20-23 | with at most the floor outstanding at each observation, what is let through and unserved never exceeds the true quota, in any interleaving |
| BudgetSafety.FloorIsExact | libs/go/githubapp/ratelimit.go:20-23 | a bound on what is outstanding keeps the quota from being overdrawn in every run if and only if it is at most the floor |
| BudgetSafety.Overdraw | libs/go/githubapp/ratelimit.go:64-91 | from an idle window of 102, calls of cost 1 and one observation with 51 outstanding let 102 calls onto a quota of 101 |
| TokenSource.TokenSource.Cached | libs/go/githubapp/token.go:101-109 | under mu, returns the cached token exactly when the state it is read in has one with a text and more than 60 s before its expiry |
| TokenSource.TokenSource.InstallLock | libs/go/githubapp/token.go:111-120 | the installation's lock, created under mu on first use and never replaced |
| TokenSource.TokenSource.Token | libs/go/githubapp/token.go:76-99 | the call returns, whatever the others do and however long it must wait; it is a path through the steps of TokenCache, and returns the token of the first look if that has a text and more than 60 s to live, else that of the re-check under the lock if it has, else text and expiry as GitHub answered the mint, or nothing for an error or an empty text |
| TokenCache.MintsNeverOverlap | libs/go/githubapp/token.go:81-98 | in every reachable state at most one caller per installation is between its re-check and its return, so mints never overlap |
| TokenCache.MintsAreSeparated | libs/go/githubapp/token.go:86-91 | between two successive successful mints for an installation some caller re-checked under its lock no earlier than 60 s before the earlier token's expiry |
| TokenCache.TokensAreOwn | libs/go/githubapp/token.go:76-109 | every cached or returned token has a text and was issued for that installation |
| TokenCache.LooksAreExact | libs/go/githubapp/token.go:27-29 | a look at the cache misses exactly if there is no token, or an empty one, or one that expires within 60 s; otherwise the caller gets the cached token |
| TokenCache.TokensAge | libs/go/githubapp/token.go:27-29 | in every reachable state, with nothing but time passing, a cached token is found until 60 s before its expiry and never after |
| TokenCache.TokensComeFrom | libs/go/githubapp/token.go:76-109 | in every run, whatever token a caller returns it found in the cache at a look of its own, with a text and more than 60 s before its expiry, or minted itself as GitHub answered |
| TokenCache.LocksAreForGood | libs/go/githubapp/token.go:111-120 | once created an installation's lock is never replaced, and no two installations share one |
| TokenCache.MuIsBrief | libs/go/githubapp/token.go:76-120 | no caller holds the global mutex while it waits for an installation's lock or for GitHub |
| TokenCache.NoDeadlock | libs/go/githubapp/token.go:76-120 | in every reachable state with an unfinished call some caller can take a step |
| TokenCache.EveryCallCanReturn | libs/go/githubapp/token.go:76-120 | from every reachable state, whatever GitHub answers, there is a schedule under which every call returns |

## Left out

- Kafka, Postgres, HTTP and S3 clients: their behaviour is a choice of the environment, under the assumptions above.
- The wording of decoding errors: one reason stands for all that json.Unmarshal reports.
- JSON syntax, duplicate and case-variant object keys, the difference between nil and empty slices beyond null, and timestamp parsing: payloads start as decoded field maps, and a string that is a timestamp carries its instant.
- Non-ASCII case mapping in review states, 32-bit column overflow in Postgres, and overflow of Go's int in budget arithmetic.
- Signatures, JWTs and the mint request itself; the hash of a login is an injective constructor.
- Tracing (trace_id, traceparent and the headers carrying them), logging, configuration, signals and shutdown.
- The webhook gateway and the archiver: mostly I/O; accepted webhooks are simply the input.
- Stages, metrics, graph and AI layers described in docs: no code implements them.
- Order of two PR webhooks of one PR by event time: the upsert is last-writer-wins by processing order.
- Empty delivery ids in the no-repeat clauses: the code deliberately does not deduplicate them.
- Delivery.ExactlyOnceEffect: transactions are atomic and serial there; that racing ones commit the same rows is TxTables.RacingExactlyOnce, without generated ids, and the ids they draw out of order are in Spine.
- TxTables.RacingExactlyOnce: rows carry no generated ids, and a contributor that loses the race for its link and stays behind unreferenced is not counted; both are in TxRace.
- TxSerial.RacesAreSerializable: covers which logins are linked and whose each review is; every table is in TxTables.RacingExactlyOnce.
- RelayService.Relay.Drain: the loop is cut off after a given number of calls, and its idle sleep is not modelled.
- Pools of a budget are values in a map, since the pointers to them never leave the class.
- applyEnrichment's update through a pointer and fetchEnrichment's overwrite of the file list are functions on values.
- EnrichPullRequest, FetchPullRequestPatches and the list calls: what GitHub answers to them is a choice of the environment.
- The published headers and payload bytes of a relayed row: a message of the topic is identified with its row.
