# aws-service-watcher, modelled in Dafny

aws-service-watcher is a scheduled job. Every 30 minutes it visits a fixed
table of AWS regions. For each region it does three things in order:

1. it loads the last known list of service identifiers from the object
   `<region>/services.json` in a bucket;
2. it lists the region's current services from the SSM parameter store,
   following continuation tokens page by page;
3. it compares the two lists; if some current service is not in the
   snapshot, it overwrites the snapshot with the full current list and posts
   one chat message naming the region and the new services.

The model keeps this diff-and-notify cycle and replaces the cloud services
with plain state:

- the bucket is a map from object key to `Payload`: an empty body (`Blank`)
  or a decoded JSON array (`Body(services)`); JSON is taken as the identity;
- the parameter store is, per region, the sequence of responses to
  successive calls (`seq<Page>`). Each response holds its parameters and an
  optional continuation token;
- the webhook is an outbox (`seq<string>`) of delivered message texts, plus
  a flag saying whether the webhook accepts posts during this run.

The class `Watcher.Watcher` holds the bucket and the outbox and has the
source's operations as methods. Each method is proved equal to a pure
function of the old state (`AfterNotify`, `AfterRun`, `AfterEvent`). The
lemmas state the system's properties about those functions:

- no change means no write and no message;
- a save replaces the whole snapshot and writes no other region's object;
- news produces exactly one message, which names the region and every new
  service;
- an empty stored body counts as "nothing known";
- a listing concatenates the pages in order and stops at the first page
  without a token;
- a second run is idempotent.

Files: `outcomes.dfy` (errors and results), `config.dfy` (region table),
`snapshot_store.dfy`, `service_lister.dfy`, `diff_notifier.dfy`,
`watcher.dfy` (the class, the cycle and the run).

Failures follow the script's control flow:

- `handle_event` catches nothing, so a failure in one region ends the whole
  scheduled run and later regions are not visited;
- `load_recent_services` returns the decoded list as stored;
- a missing snapshot object raises `NoSuchKey`, which is the only load
  failure modelled.

## Model

| member | source | states |
|---|---|---|
| `Config.RegionCodes` | app.py:7-13 | the regions visited are one per table entry, in table order, and no region is visited twice in one scheduled run |
| `Config.Lookup` | app.py:80 | the display name belongs to a table entry for the region; a region not in the table renders as "None" |
| `Config.DisplayNameOfConfigured` | app.py:7-13 | every configured region is announced under its own display name |
| `SnapshotStore.ObjectKeyInjective` | app.py:37 | two regions never share a snapshot object key |
| `SnapshotStore.LoadRecentServices` | app.py:36-41 | loading fails exactly when the region's object is missing; it yields the empty list exactly when the body is empty or holds an empty array |
| `SnapshotStore.Save` | app.py:44-46 | a save adds or overwrites only the region's key; every other object is unchanged |
| `SnapshotStore.LoadAfterSave` | app.py:36-46 | reading back after a save gives exactly the saved list: a full replace, not a merge or an append |
| `SnapshotStore.SaveIsolated` | app.py:44-46 | a save for one region leaves every other region's loaded snapshot unchanged |
| `SnapshotStore.BlankLoadsEmpty` | app.py:39-41 | an empty stored body loads as the empty list, not as an error |
| `ServiceLister.GetServices` | app.py:49-65 | the paging loop returns exactly the listing specification: the values of the parameters collected up to the first response without a token, or a failure if the responses run out first |
| `ServiceLister.ListingStopsAtFinalPage` | app.py:55-64 | when response k is the first without a token, the result is the values of every parameter of responses 0..k, concatenated in response order |
| `ServiceLister.ListingFailsWithoutFinalPage` | app.py:56-61 | when every response carries a token, the listing never completes and fails |
| `ServiceLister.ListingIgnoresLaterPages` | app.py:56-62 | responses after the first one without a token are never consulted |
| `DiffNotifier.Added` | app.py:69 | the new services are exactly the current ones not in the snapshot, each listed once |
| `DiffNotifier.AddedEmptyIff` | app.py:69-71 | nothing is new if and only if every current service is already in the snapshot |
| `DiffNotifier.AddedIgnoresDuplicates` | app.py:69 | repeated or reordered entries in either list do not change the new services or their number |
| `DiffNotifier.JoinMentions` | app.py:77 | every item appears in the comma-joined rendering |
| `DiffNotifier.MessageMentions` | app.py:77-80 | the message text contains the region's display name and every new service |
| `Watcher.Watcher.UpdateRecentServices` | app.py:44-46 | the store becomes the saved store; the outbox is unchanged |
| `Watcher.Watcher.NotifyNews` | app.py:68-88 | state and outcome equal `AfterNotify`: return early on no news; otherwise save the full list, then post one message |
| `Watcher.Watcher.Run` | app.py:30-33 | state and outcome equal `AfterRun`: load, then list, then notify; the first failure ends the cycle |
| `Watcher.Watcher.HandleEvent` | app.py:24-27 | state and outcome equal `AfterEvent` over the configured regions in table order; a failure stops the run |
| `Watcher.NoNewsIsQuiet` | app.py:69-71 | a notification leaves store and outbox unchanged and succeeds if and only if every current service is already known |
| `Watcher.NewsIsSavedAndAnnounced` | app.py:73-88 | on news the region's snapshot becomes exactly the current list and no other region's changes. With the webhook up, exactly one message is appended, naming the region and every new service. With it down, the snapshot stays saved, nothing is appended and the cycle fails |
| `Watcher.FirstRunAnnouncesAll` | app.py:30-41 | when the region's object is empty, the first cycle counts every current service as new and sends their message |
| `Watcher.ListingFailureWritesNothing` | app.py:30-33 | a failed listing ends the cycle with nothing saved and nothing sent |
| `Watcher.RunSettles` | app.py:30-33 | after a cycle that loaded and listed, the snapshot covers the listing, even if the message was not delivered |
| `Watcher.SettledRunIsQuiet` | app.py:30-33 | a cycle whose snapshot already covers the listing writes nothing and sends nothing |
| `Watcher.RunIdempotent` | app.py:30-33 | repeating a region's cycle on the same listing writes nothing and sends nothing |
| `Watcher.RunIsolated` | app.py:44-46 | a region's cycle leaves other regions' snapshots unchanged and only appends to the outbox |
| `Watcher.EventIsolated` | app.py:25-27 | a scheduled run does not touch the snapshot of a region it does not visit, and only appends to the outbox |
| `Watcher.EventSettles` | app.py:25-27 | after a fully successful scheduled run, every visited region's snapshot covers its listing |
| `Watcher.SettledEventIsQuiet` | app.py:25-27 | a scheduled run over regions whose snapshots cover their listings writes nothing and sends nothing |
| `Watcher.EventIdempotent` | app.py:24-33 | after a fully successful scheduled run, a second run on the same listings writes nothing and sends nothing |

## Left out

- The boto3 S3 and SSM clients, the HTTP request, the Chalice app and its
  30-minute schedule. The model replaces them with the store map, the
  sequence of responses per region, the outbox and the delivery flag.
- The environment settings `BUCKET_NAME` and `SLACK_INCOMING_WEBHOOK_URL`.
  They only select the bucket and the webhook endpoint.
- JSON encoding and decoding, and UTF-8 decoding of the stored body. A stored
  body is either empty or a list of strings, so malformed JSON and non-list
  JSON cannot arise in the model.
- Storage errors other than a missing object (for example an unreachable
  bucket), and failures of the save itself.
- The value of the continuation token and the region's parameter path. The
  i-th call is answered by the i-th response; an upstream error during paging
  is modelled as running out of responses while a token is pending.
- The `username` and `icon_emoji` fields of the message, and the webhook's
  response body.
- The webhook's availability is one flag for a whole scheduled run. It is not
  chosen per request.
- Added: fixes one order for the new services, their first occurrence in the
  current list. The source takes them from a set, so its order is
  unspecified. `MessageText` therefore renders one of the orders the source
  may produce. The properties proved about the message depend only on
  membership, not on order.
