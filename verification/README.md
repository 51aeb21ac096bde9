# A Dafny model of the CMS, its publication pipeline and its readership archive

The project models five parts of the system and proves what they promise together.

1. **Editorial database** (`schema`, `content`, `workflow`, `cms`, `acceptance`, `administration`). Items, drafts, append-only revisions, reviews, routes,
   tags, note groups, profiles, images and the outbox are rows of one database value. `Workflow` gives the effect of every
   command as a function of the database; the class `CmsService.Cms` is the imperative form, statement by statement with
   roll-back, and is proved to compute that function. `Acceptance` and `Administration` say, with roles, owners, states and
   limits spelled out, exactly which commands are accepted and all they leave. `Editorial`, `CommandProofs`, `Undo`, `DraftVersions` and
   `EditorialRuns` state what every command keeps.
2. **Exporter and graph check** (`projection`, `graph`, `exporter`, `listing`, `completeness`, `topics`, `retraction`,
   `snapshot_meaning`, `export_checks`, `export_limits`, `graph_meaning`). The
   published view, the paged collecting loops with their budget, the loops of the graph check against a declarative closure
   predicate, the exact condition under which a reachable database exports, and a run that leaves it.
3. **Publication outbox, worker and store** (`generation`, `publication`, `safety`, `runs`, `liveness`, `schedule`, `worker`, `storage`).
   A state machine in which commands, the worker's micro-steps, faults (also "applied but reported failed"), crashes and
   operator retries interleave; safety over every run, a bound on failures, convergence; and the worker as a class whose
   calls are interleaved with other people's commands and which is proved to take steps of that machine only.
4. **Autosave** (`autosave`, `drafts`, `autosave_site`, `json_equality`). The editor's queue as a class, any number of queues against one versioned draft over
   a network that delays and loses messages, and the database behind them (`autosave_site`), whose runs are proved to be runs
   of that world. The comparison of snapshots is `json_equality`.
5. **Readership** (`archive`, `archive_meaning`, `archive_history`, `readership`, `totals`). Readings and failures archived in any order by
   guarded upserts, and the report built from them.

Smaller algorithms with a declarative specification: the Markdown mathematics scanner (`math_safety`, `math_shapes`), the legacy
importer's splices, preflight and import (`legacy`, `legacy_import`, `legacy_apply`, `legacy_meaning`), cursor paging of the content list (`content_list`),
and white space and slugs (`text`, `words`).

Conventions. Row `n` of a table is element `n - 1` of a sequence. A publication job is identified by its generation, which
the outbox hands out in order. Markdown, URL, English-text and letter-case rules are parameters (`Rules`); JSON encoding
and SHA-256 are free constructors, hence deterministic and injective; clock readings are parameters. Of the rules it is
assumed that the empty biography is acceptable Markdown (`Lawful`) and, for the server side of autosave, that no textual
rule reports a version conflict (`NamesOtherFaults`), for an import that none reports a path conflict (`NoPathFaults`). That
the address of an uploaded image is acceptable (`assetUrl`) is a guard of the model where the code has it by construction
from the object key. An import happens at one clock reading, and nobody else writes meanwhile. In an import plan each character of a body or an image address stands for one byte, so the spans of
edits are byte offsets.

Where code and documentation differ, the code is followed.

- Unpublishing or archiving an article does not look at the topics that point at it, so it can leave a database that no
  longer exports: it does exactly when some published topic points at the item (`Topics.TopicsStayLive`), and
  `Retraction.ScriptStopsExport` gives the commands.
- Turning an autosave queue back on (enabling, or activating after disposal) arms no timer. It strands an edit exactly when
  the status is then pending and no flight exists (`AutosaveWorld.StepStrands`); `AutosaveWorld.SwitchingStrands` gives the
  run. Every other call, answer and failure keeps an edit attended.
- The comparison of snapshots counts listed keys and looks them up one way, where an array also owns its length. An array
  equals the object of its indices, and `{"length": 1}` equals `["x"]` but not the other way round
  (`JsonEquality.ArraysPassForObjects`, `JsonEquality.LengthPassesOneWay`). It is wrong exactly for alike values in which an
  array meets an object (`JsonEquality.WrongIffShapesDiffer`).

## Model

| member | source | states |
|---|---|---|
| CmsService.Cms.Execute | internal/content/service.go:49-65 | a command is one transaction: its whole change is committed, or its fault is reported and no row of any table differs |
| Undo.CreatedIsEditable | internal/content/service.go:78-151 | a created item is invisible to readers, and its first save is accepted exactly from its creator or an administrator, at version one, with sound content |
| CmsService.Cms.TrySave | internal/content/service.go:102-151 | permission, freeze, version, byline, featured, hydration, field and relation checks in that order, then exactly one versioned draft rewrite and the synced-to-draft change |
| CmsService.Cms.ValidateRelations | internal/content/service.go:152-206 | the first fault among payload, cover, byline, tags and entries, although existence is only counted |
| CmsService.Cms.CheckTags | internal/content/service.go:168-186 | the seen set and one COUNT accept exactly distinct, existing tags within the limit, and none on a topic |
| CmsService.Cms.CheckEntries | internal/content/service.go:187-204 | the seen set and one COUNT accept exactly distinct curated targets other than the topic itself |
| CmsService.AllFound | internal/database/sqlc/taxonomy.sql.go:54-95 | for distinct identifiers, as many rows as identifiers means every one exists, and conversely |
| CmsService.Cms.WriteDraft | internal/content/service.go:207-244 | only the expected version is replaced, by exactly the given fields, tag set and ordered entries, one version up; otherwise nothing changes |
| CmsService.Cms.Snapshot | internal/content/service.go:245-273 | appends the hydrated, complete draft as the next revision, or reports the first fault and appends nothing |
| CmsService.Cms.InsertRevision | internal/database/sqlc/content.sql.go:583-588 | the number given is one more than the greatest number this content has |
| CmsService.Cms.ClaimPath | internal/content/workflow.go:29-67 | revalidates, refuses foreign paths and unpublishable topic targets, then leaves this path as the item's only canonical one |
| CmsService.Cms.UnpublishableTargets | internal/database/sqlc/taxonomy.sql.go:621-624 | the count is zero exactly when every target is a published article |
| CmsService.Cms.DemoteCanonical | internal/database/sqlc/routes.sql.go:69-71 | this item's canonical path becomes a redirect, no other row changes |
| CmsService.Cms.TrySubmit | internal/content/workflow.go:68-95 | refused at the first failing check, else the draft is snapshot, its path is free or its own, and the new revision is the pending one |
| CmsService.Cms.TryPublishReviewed | internal/content/workflow.go:182-213 | computes the change of a reviewed publication: path claimed, approval recorded, pending revision published and outbox marked, or the first failing check; who and what is accepted is `Acceptance.ReviewedAccepted` |
| CmsService.Cms.TryPublishDirect | internal/content/workflow.go:214-250 | refused at the first failing check, else snapshot, path and publication of that revision, with the given dates for a legacy item |
| CmsService.Cms.TryRestoreRevision | internal/content/workflow.go:309-348 | refused at the first failing check, else the expected draft version is rewritten from the chosen revision |
| CmsService.Cms.TryPutTag | internal/content/taxonomy.go:78-152 | refused or stored: permanent slug, no conflict, outbox only for a published use |
| CmsService.Cms.FindTagConflict | internal/database/sqlc/taxonomy.sql.go:262-266 | no other tag has the normalized name or the slug |
| Acceptance.ReviewedAccepted | internal/content/workflow.go:135-213 | in a reachable database a reviewed publication is accepted iff the revision is the pending one, the user is active and an administrator or a reviewer other than owner and byline, the comment is acceptable, the path is the item's or nobody's, and a topic's entries are published articles |
| Acceptance.ReviewedLeaves | internal/content/workflow.go:199-211 | its whole effect on every table: dates, state and pointer of the item, the review, the routes, one generation and one pending job |
| Acceptance.ClaimRevalidates | internal/content/workflow.go:29-67 | whatever the tables hold, a path is claimed only for complete fields of the kind, a stored group, counted entries, published targets and at the spelled-out address |
| Acceptance.ChangesAccepted | internal/content/workflow.go:135-166 | changes may be requested by exactly the same people, for the pending revision, with a comment fit to be read |
| Acceptance.OwnItemIsNotReviewed | internal/content/workflow.go:135-143 | a reviewer who is owner or byline of an otherwise ready item is refused as self review, by both commands |
| Acceptance.WithdrawAccepted | internal/content/workflow.go:168-181 | a pending submission is withdrawn exactly by its owner or an administrator |
| Acceptance.CreateAccepted | internal/policy/content.go:10-19 | any active user creates, but topics only an administrator |
| Acceptance.CreateLeaves | internal/content/service.go:78-101 | a new item is a blank draft at version one with the creator as owner and byline |
| Acceptance.SaveAccepted | internal/content/service.go:102-151 | a save is accepted iff owner or administrator, neither archived nor in review, the version is current, English is not dropped, byline and featured mark are the user's to set, and the fields fit with every limit spelled out |
| Acceptance.SaveLeaves | internal/content/service.go:140-151 | only the item's draft row and its state and time change, and a synced item becomes a draft |
| Acceptance.ChecksAsk | internal/content/validation.go:79-200 | hydration, field and relation checks together ask exactly for: slug, text rules, payload of the kind within its ranges, stored group, byline, live cover, at most a hundred distinct stored tags, at most a hundred distinct curated entries |
| Acceptance.SubmitAccepted | internal/content/workflow.go:68-95 | a submission is accepted iff owner or administrator, the draft is being written, in the version named, complete, and its path is free or its own |
| Acceptance.SubmitLeaves | internal/content/workflow.go:68-95 | the draft's material becomes the next revision by this user at this time, pending, with the item in review; nothing else changes |
| Acceptance.DirectAccepted | internal/content/workflow.go:214-250 | a direct publication is accepted iff an administrator names the current version of a complete draft being written, its path is free, a topic's entries are published, and the dates given are in order |
| Acceptance.DirectLeaves | internal/content/workflow.go:217-250 | its whole effect: the new revision, the item with given or current dates, the routes, one generation and one pending job |
| Acceptance.RetractionsAccepted | internal/content/workflow.go:251-308 | unpublishing, archiving and restoring from the archive are an administrator's, each exactly from the state it undoes |
| Acceptance.StateLeaves | internal/content/workflow.go:144-308 | the whole effect of requesting changes, withdrawing, unpublishing, archiving and restoring: one item row, a build only when readers notice |
| Acceptance.RestoreAccepted | internal/content/workflow.go:309-348 | a revision is restored iff owner or administrator, editable, current version, the item has a revision of that number, and its featured mark is the user's to set |
| Acceptance.FirstReason | internal/content/workflow.go:68-348 | a refused command on an item names the first reason in the order identity, permission, archive, state, version |
| Acceptance.NotesMirrorTheirGroup | internal/content/note_groups.go:118-150 | whatever is sent, a saved, restored, submitted or published note carries the name, description and order of its stored group |
| Administration.TagAccepted | internal/content/taxonomy.go:78-130 | a tag is stored iff an administrator gives a name, slug and texts within the limits, keeps the slug, and no other tag has the slug or the lower-case collapsed name |
| Administration.TagLeaves | internal/content/taxonomy.go:93-152 | the row under its number with collapsed, lowered and trimmed names; a build iff a published item shows the tag |
| Administration.GroupAccepted | internal/content/note_groups.go:36-100 | a note group is stored iff an administrator gives valid texts and order under a slug of its own that it keeps |
| Administration.GroupLeaves | internal/content/note_groups.go:60-114 | the trimmed row under its number; a build iff a published note is in the group |
| Administration.ProfileAccepted | internal/auth/users.go:107-137 | a profile is changed iff by its active user or an administrator, to a name of 1 to 100 characters, a biography of at most 10000 bytes and an acceptable site |
| Administration.ProfileLeaves | internal/auth/users.go:107-137 | name, biography and site of that row, slug and portrait kept; a build iff a published revision has the byline |
| Administration.UploadAccepted | internal/assets/assets.go:195-235 | an image is accepted iff from an active user and its bytes were not deleted; known bytes add no row |
| Administration.DeletionAccepted | internal/assets/assets.go:236-260 | images are deleted and restored exactly by administrators, and the moment of the first deletion stays |
| Administration.LoginLeaves | internal/auth/identity.go:55-70 | a first login stores name and portrait, and neither biography nor site |
| Words.SpacesAre | internal/content/taxonomy.go:47 | white space is exactly the twenty-five characters of Unicode's White_Space property |
| Words.TrimIsInside | internal/content/taxonomy.go:89 | trimming keeps exactly the text between the outer white space |
| Words.CollapseJoinsWords | internal/content/taxonomy.go:93 | collapsing keeps the words of a text in order with one space between two |
| Words.HasWords | internal/content/taxonomy.go:47 | every text is such words with white space between them |
| Words.SlugIsWords | internal/content/validation.go:17-20 | a slug is at most a hundred characters and words of lower-case letters and digits joined by single hyphens, and conversely |
| Words.BytesAddUp | internal/auth/users.go:110-115 | the byte length of a text is the sum over its characters, one to four by code point |
| Undo.ProfileReadsBack | internal/auth/users.go:107-137 | every byline of the user is exported with the trimmed name, text and address stored, the slug and portrait from before, and nobody else changes |
| Undo.UploadTwice | internal/assets/assets.go:195-235 | equal bytes share one row: a second upload by anyone succeeds and changes nothing |
| Undo.RestoreUndoesDelete | internal/assets/assets.go:236-260 | a deleted image is refused as a cover and its bytes as an upload, readers see no difference, and restoring gives the rows from before |
| CommandProofs.StepGood | internal/content/workflow.go:68-348 | every command, accepted or refused, keeps the whole editorial invariant and only ever adds rows |
| CommandProofs.SnapshotTakes | internal/content/service.go:245-273 | the revision taken is complete for its kind, has the draft's material up to group mirrors and the next number |
| CommandProofs.DirectShape | internal/content/workflow.go:217-250 | a direct publication is a snapshot followed by the publication of exactly that revision |
| Editorial.ClaimHomes | internal/content/workflow.go:63-66 | claiming keeps at most one canonical path per content, one for everyone who owns a path, and every owner |
| Editorial.AddRevision | internal/database/sqlc/content.sql.go:583-588 | revision numbers of a content stay strictly increasing |
| EditorialRuns.DraftsAgree | internal/content/workflow.go:68-348 | in every reachable state: in review iff pending, pending has the draft's material and no review, synced means the published material, archived means unpublished draft |
| EditorialRuns.RowsOnlyGrow | internal/content/workflow.go:68-348 | over any run rows are never removed, revisions and reviews never change, owners, kinds and slugs are permanent |
| EditorialRuns.PathsArePermanent | internal/content/workflow.go:16-67 | a path keeps its owner for ever and resolves in one hop to the only canonical path, which is the published revision's |
| EditorialRuns.ResolvesOnce | internal/database/sqlc/routes.sql.go:95-100 | the join has exactly one canonical path, the path itself iff it is canonical |
| Undo.WithdrawUndoesSubmit | internal/content/workflow.go:168-181 | submit then withdraw leaves the draft editable and unchanged, plus one revision |
| Undo.ChangesReopenTheDraft | internal/content/workflow.go:144-167 | the draft under review is the draft reopened, and the decision is on record once |
| Undo.RestoreUndoesArchive | internal/content/workflow.go:273-308 | archive then restore keeps drafts, paths, reviews and dates and only drops the publication |
| Undo.RetractionHides | internal/content/workflow.go:251-294 | exactly this item's row and paths leave the published view, in order and with one more generation, while the path table keeps them reserved |
| Undo.RestoredDraft | internal/content/workflow.go:309-348 | the draft has the material of the chosen revision at the next version |
| Undo.ReviewedIsShown | internal/content/workflow.go:182-213 | readers get exactly the reviewed revision, at its path, with the approval recorded and the first date kept |
| Undo.DirectIsShown | internal/content/workflow.go:217-250 | readers get the draft of the named version through a new revision |
| Undo.TagReadsBack | internal/content/taxonomy.go:78-152 | a stored tag is exported with collapsed and trimmed names, no English when none was given, and no other tag changes |
| Undo.GroupReadsBack | internal/content/note_groups.go:60-114 | a stored group is what every note naming its slug is exported with |
| Undo.DocumentShows | internal/publication/snapshot.go:204-243 | a document shows the published revision's fields, tags and ordered entries, the item's dates, the revision's path, and English only if enabled |
| DraftVersions.DraftsAreVersioned | internal/database/sqlc/content.sql.go:504-508 | any command leaves a draft row alone or replaces the version it names by the next one |
| DraftVersions.SavedDraft | internal/content/service.go:207-244 | a save stores the given fields, tags and entries for that draft and touches no other draft |
| DraftVersions.SaveServesRequest | internal/content/service.go:102-151 | executing a save is serving a request of the autosave world: same draft up to note-group mirrors, same version, same answer |
| DraftVersions.CommandsRestoreOrLeave | internal/database/sqlc/content.sql.go:504-508 | any other command leaves that world's server alone or restores a value at its current version |
| AutosaveSite.SiteRuns | internal/content/service.go:102-151 | any run of the database with its clients, their requests and everyone's commands is a run of the autosave world, one step for each action |
| AutosaveSite.DatabaseLosesNoUpdate | internal/content/service.go:102-151 | after any such run, a request that changes the draft row replaces exactly what its client had acknowledged or loaded, by what it sent |
| AutosaveSite.ClientsKnowTheDraft | internal/database/sqlc/content.sql.go:504-508 | a client at the version of the draft row has its value as the acknowledged one |
| GenerationProofs.GenerationDeterminesView | internal/outbox/outbox.go:12-27 | a command either leaves generation, jobs and the whole published view alone, or holds the fence and adds one generation with one job |
| GenerationProofs.TagUnused | internal/database/sqlc/publication.sql.go:234-237 | if the probe finds no published use, no exported row reads the tag |
| GenerationProofs.GroupUnused | internal/database/sqlc/taxonomy.sql.go:505-516 | if the probe finds no published use, no exported row reads the group |
| GenerationProofs.ProfileQuiet | internal/database/sqlc/publication.sql.go:222-232 | if the probe finds no published byline, the profile change is invisible |
| GenerationProofs.ContentQuiet | internal/content/workflow.go:273-308 | editing, reviewing, archiving the unpublished and restoring never change what readers see |
| Ordering.PathLessTotal | internal/database/sqlc/snapshot.sql.go:121-125 | byte order of paths is a strict total order |
| Ordering.PathLessIs | internal/database/sqlc/snapshot.sql.go:121-125 | a path precedes another iff they agree up to a place where the first ends or has the smaller character |
| Ordering.SortSorts | internal/publication/snapshot.go:312-315 | sorting by distinct keys gives strictly ascending keys |
| Pages.PageIsNext | internal/publication/snapshot.go:169-290 | a page after a cursor is exactly the next rows, and moves the cursor past exactly them |
| Exporter.Collector.PutGroup | internal/publication/snapshot.go:187-203 | a group is listed on first use, if it exists, is valid and fits |
| Exporter.Collector.PutTags | internal/publication/snapshot.go:260-280 | the tags of a row are listed on first use, or some tag is missing or does not fit |
| Exporter.Collector.Add | internal/publication/snapshot.go:175-286 | a row is accepted iff it is valid and the budget still holds, and then adds exactly its first uses and its document |
| Exporter.Collector.CollectContent | internal/publication/snapshot.go:169-290 | the paged loop collects every row once, in order, also at exact multiples of the page size, iff all are valid and fit |
| Exporter.Collector.CollectRoutes | internal/publication/snapshot.go:294-311 | the paged loop collects every route once, in order, iff count and bytes fit |
| Exporter.ExportSnapshot | internal/publication/snapshot.go:110-337 | the paged loops compute the export of the view the database shows; what that holds is stated by `SnapshotMeaning` and when it exists by `ExportLimits.ExportsExactly` |
| SnapshotMeaning.RoutesAreThoseOfTheTable | internal/database/sqlc/snapshot.sql.go:121-125 | a snapshot lists a path with its kind and owner iff the path table has it so and the owner is published and not archived, in strictly ascending order |
| SnapshotMeaning.ClaimedPathsAreListed | internal/publication/snapshot.go:294-311 | over any run: a path ever claimed by an item that is public now is in the snapshot under that item, as its one canonical path or as a redirect |
| SnapshotMeaning.SnapshotTellsAll | internal/publication/snapshot.go:110-337 | a snapshot has one document for each public item and no other, with the fields of its published revision, its dates, its address spelled out, and every row it refers to as stored |
| SnapshotMeaning.SnapshotKeepsLimits | internal/publication/snapshot.go:316-330 | a snapshot keeps the row limits and the byte limit, at most 128 MiB |
| ExportLimits.ExportsExactly | internal/publication/snapshot.go:110-337 | a reachable database exports iff the generation is current, published topics point at published articles, counts are at most 10000 documents, 100000 paths and tags, and the bytes fit |
| ExportChecks.RowChecksMean | internal/publication/snapshot.go:175-286 | whatever the database holds, a row is accepted iff its dates, complete fields, English, spelled-out address, author with sound biography, cover, tags and valid group are all there |
| ExportChecks.RefusalsMean | internal/publication/snapshot.go:137-168 | stale exactly at another generation; success only over an initialised site with as many sound rows as public items |
| ExportLimits.CollectAccounted | internal/publication/snapshot.go:160-283 | the running total is a kibibyte plus the encoding and two bytes of every document listed so far |
| Exporting.RowListed | internal/publication/snapshot.go:160-283 | checking the budget at every append is as strict as checking the total once |
| Graph.CheckGroups | internal/publication/snapshot.go:350-356 | accepts exactly unique, valid groups and returns their slugs |
| Graph.CheckContent | internal/publication/snapshot.go:381-405 | accepts exactly documents whose references all resolve and returns the groups used |
| Graph.CheckEntries | internal/publication/snapshot.go:409-426 | accepts exactly entries at positions 1..n with distinct curated targets other than the topic |
| Graph.CheckRoutes | internal/publication/snapshot.go:427-448 | accepts exactly unique paths with one canonical route per document, at its own path |
| Graph.ValidateGraph | internal/publication/snapshot.go:339-450 | accepts a snapshot iff the declarative closure predicate holds; comparing two set sizes is enough for the groups |
| GraphMeaning.ClosedMeans | internal/publication/snapshot.go:339-450 | the closure predicate is, on the lists themselves: version and sizes, valid labels, distinct identities, every reference present, every group used, entries in order, every document at its one canonical path |
| Graph.OneHome | internal/publication/snapshot.go:427-448 | a closed snapshot has at most one canonical route per document |
| Listing.CollectLists | internal/publication/snapshot.go:165-290 | authors, images, groups and tags are exactly those the content refers to, each once, as stored |
| Completeness.RowOk | internal/publication/snapshot.go:175-286 | every published item of a reachable database passes all checks made on its row |
| Completeness.ContentIff | internal/publication/snapshot.go:381-426 | over reachable rows the document checks fail only for a topic target that is not published |
| Completeness.RoutesFine | internal/publication/snapshot.go:427-448 | over reachable rows the route checks never fail |
| Completeness.ExportIff | internal/publication/snapshot.go:137-322 | a reachable database exports iff the limits hold and every published topic points at published articles |
| PublicationLiveness.ReachableExports | internal/publication/snapshot.go:137-322 | the same for every state of every run |
| Topics.TopicsStayLive | internal/content/workflow.go:46-62 | publishing establishes the topic condition, only retractions can break it, and exactly when a published topic points at the item |
| Topics.RetractionStopsExport | internal/content/workflow.go:251-294 | unpublishing or archiving a target of a published topic makes the next export refuse |
| Retraction.ScriptStopsExport | internal/content/workflow.go:251-272 | eight accepted commands from the empty database, under any rules that accept two texts, end with content that does not export |
| Retraction.SomeRunStopsExport | internal/content/workflow.go:251-272 | so a run of the whole system reaches such a state with nothing gone wrong |
| Topics.ExportLists | internal/publication/snapshot.go:284-315 | a snapshot lists all published content by id, and each table ascending, once each, exactly what is used, as stored |
| Topics.ExportIsDetermined | internal/publication/snapshot.go:312-315 | no other ascending lists hold exactly what the rows refer to: the tables of a snapshot are determined by its content |
| PublicationLiveness.SwipedOlder | internal/database/sqlc/publication.sql.go:264-267 | after the statement every job older than the current generation has fired its hook or is superseded |
| PublicationSafety.WorkInv | internal/publication/worker.go:90-201 | every step of the worker, however its call ends, keeps jobs, objects, latest.json and its own local variables in agreement with what each generation stands for |
| PublicationSafety.RetryInv | internal/publication/service.go:185-225 | a retry by anyone at any moment keeps that agreement |
| PublicationSafety.UploadInv | internal/storage/file.go:155-171 | an upload that works, fails or takes effect unnoticed stores the export of its generation or nothing |
| PublicationSafety.StepInv | internal/publication/worker.go:90-201 | every step of commands, worker, faults, crashes and retries keeps the system invariant and what each generation stands for |
| PublicationSafety.StoredIsRight | internal/storage/file.go:155-171 | an object already stored holds the very bytes about to be uploaded |
| PublicationSafety.DoInv | internal/outbox/outbox.go:12-27 | a command outside the worker's fence keeps every worker stage sound |
| PublicationRuns.SameGenerationSameView | internal/outbox/outbox.go:17-27 | two states of a run with the same generation publish the same view |
| PublicationRuns.ObjectsAreExports | internal/publication/worker.go:139-162 | in every reachable state the object of generation n is the export of the view the site had at n |
| PublicationRuns.GenerationReached | internal/outbox/outbox.go:17-27 | every generation up to the current one was the site's at some moment of the run |
| PublicationRuns.UploadNeverConflicts | internal/publication/worker.go:147-150 | an upload after any crash or ambiguous failure never meets different bytes |
| PublicationRuns.LatestNeverGoesBack | internal/publication/worker.go:166-186 | the generation in latest.json is monotone and stored objects never change or vanish |
| PublicationRuns.LatestNeverDangles | internal/publication/worker.go:174-181 | latest.json names a stored export of its generation with exactly its digest, not ahead of the site |
| PublicationRuns.HooksNameTheSite | internal/publication/worker.go:166-194 | whenever the hook fires latest.json names the current generation, and a triggered job has fired it |
| PublicationRuns.JobsHaveShape | internal/database/sqlc/publication.sql.go:179-210 | one job per generation; key and digest agree with the state; at most six attempts; a failed job has a next attempt iff fewer than six |
| PublicationLiveness.FailuresAreBounded | internal/publication/worker.go:122-134 | between two moments of any run recorded failures are at most the attempts left plus six per new generation and retry |
| PublicationLiveness.Converges | internal/publication/worker.go:90-201 | from any invariant state with a due, exportable job one undisturbed poll publishes it and settles all older jobs |
| PublicationLiveness.QuietSpellPublishes | internal/publication/worker.go:90-201 | the same after any run |
| PublicationLiveness.LiveTopicsAreReady | internal/publication/worker.go:135-165 | live topics within the limits make a due job publishable |
| PublicationWorker.Worker.ProcessOnce | internal/publication/worker.go:90-134 | whatever others do between its calls and however they end, the shared state is that of a run of the machine and the locks are released; when nobody interferes and no call fails, a ready system is published: it returns its generation, and latest.json, object and all jobs say so |
| PublicationWorker.Worker.PickJob | internal/publication/worker.go:105-117 | at the clock reading of the call the newest job is picked iff it is pending or uploaded, or failed with a next time that has come |
| PublicationWorker.Worker.Poll | internal/publication/worker.go:94-117 | a picked job is the newest; a failed one has a next time not after the clock reading of this poll |
| PublicationSchedule.TakenUpWhenDue | internal/publication/worker.go:105-117 | the same of the machine, in both directions |
| PublicationSchedule.FailureIsRecorded | internal/publication/worker.go:29-40 | a recorded failure counts one attempt and sets the next time to 30 s, 2 min, 10 min, 30 min or 1 h later, none after the sixth; done jobs are left alone |
| PublicationSchedule.FailedJobWaits | internal/publication/worker.go:115-128 | over any run: between a recorded failure and the next time the worker is at that job there is a clock reading at or after its next time, or an operator's retry; after the sixth failure only a retry |
| PublicationSchedule.DoneJobsStay | internal/database/sqlc/publication.sql.go:179-267 | over any run the row of a triggered or superseded job never changes again |
| PublicationSchedule.GoesOnIfCurrent | internal/publication/worker.go:77-89 | at each freshness check the job goes on iff its generation is current, a newer one leads to the sweep, a failed query to a failed attempt |
| PublicationSchedule.StaleIsDropped | internal/publication/worker.go:82-89 | overtaken work supersedes exactly the open older jobs and ends without a recorded failure |
| PublicationSchedule.StaleExportIsDropped | internal/publication/worker.go:119-121 | an export that a newer generation overtook ends the poll without a recorded failure |
| PublicationSchedule.FenceHolds | internal/publication/worker.go:166-187 | while latest.json is named and the hook called exactly the commands that touch readers wait |
| PublicationWorker.Worker.Process | internal/publication/worker.go:135-201 | success means the job is triggered, staleness leaves no record, any other failure is left to be recorded |
| PublicationWorker.Worker.StoreSnapshot | internal/publication/worker.go:139-162 | export, upload and mark in order, with a freshness check before and after the upload |
| PublicationWorker.Worker.Announce | internal/publication/worker.go:166-186 | latest.json and the hook under the fence |
| PublicationWorker.Worker.Fresh | internal/publication/worker.go:77-89 | continues only while the generation is the job's, else supersedes and stops |
| PublicationWorker.Worker.FailJob | internal/publication/worker.go:122-128 | an undisturbed failure adds one to the attempts of an open job, makes it failed, and gives it its next time from the table of delays; nothing else changes |
| PublicationWorker.Worker.Retry | internal/publication/service.go:185-225 | refused while a flow runs, to inactive users and editors, for unknown jobs and for any but the failed job of the current generation, in this order; otherwise only that row changes: attempts zero, pending or uploaded, due at once |
| Storage.CreateOnce | internal/storage/file.go:155-171 | a create-only write fails iff other bytes are stored, never changes an object and is idempotent |
| Storage.MemoryStore.Put | internal/testkit/storage.go:56-72 | create-only or replacing write on the map, or nothing when cancelled |
| Storage.MemoryStore.Replace | internal/testkit/storage.go:76-81 | only latest.json may be replaced |
| Storage.FileStore.Write | internal/storage/file.go:127-177 | readers see the old objects or the reference store's next ones, no temporary file stays, no part of an object is visible |
| Storage.FileStore.Publish | internal/storage/file.go:155-177 | link without replacing, or rename, behaves as the reference store unless it reports being offline |
| StoreRefinement.UploadIsWritten | internal/publication/worker.go:147-150 | the worker's upload is the store's create-only write under any injective encoding |
| Autosave.AutosaveQueue.Flush | apps/admin/src/features/content/autosave.ts:96-118 | a request leaves iff the queue is on, not conflicted, dirty and without a flight; it carries the latest value and version, and edits and status stay |
| Autosave.AutosaveQueue.Deliver | apps/admin/src/features/content/autosave.ts:119-149 | conflicted iff the answer is a version conflict, failed iff any other error, in both cases keeping edit, acknowledged value and version; accepted acknowledges what was sent and sends again iff edited meanwhile and on |
| Autosave.AutosaveQueue.Reload | apps/admin/src/features/content/autosave.ts:150-163 | refused during a flight, otherwise everything is the loaded value |
| Autosave.AutosaveQueue.Update | apps/admin/src/features/content/autosave.ts:67-95 | an edit is kept with its dirtiness; failed and conflicted stay so without a timer, otherwise the timer is armed iff the edit is pending, on and no flight exists |
| AutosaveWorld.FailureIsRetried | apps/admin/src/features/content/autosave.ts:96-149 | after a refused or lost save the client shows an error, keeps its edit, and its next flush posts the latest value with the version it knows |
| AutosaveWorld.StaleSaveConflicts | apps/admin/src/features/content/autosave.ts:134-144 | a save from a stale version changes nothing on the server and shows as a conflict, the edit kept |
| AutosaveWorld.ConflictBlocks | apps/admin/src/features/content/autosave.ts:96-103 | after a conflict, whatever happens, nothing of the client is in the post and it stays conflicted until it reloads |
| AutosaveWorld.LostReplyConflicts | apps/admin/src/features/content/autosave.ts:119-149 | a save that took effect but whose answer was lost is retried from the old version and ends in a conflict, with the value on the server |
| AutosaveWorld.NoLostUpdate | apps/admin/src/features/content/autosave.ts:119-149 | a save that takes effect overwrites exactly the value its client had last acknowledged or loaded |
| AutosaveWorld.SameVersionSameValue | apps/admin/src/features/content/autosave.ts:119-149 | equal versions mean equal values, also after saves that were applied but reported as failed |
| AutosaveWorld.QueueIsSafe | apps/admin/src/features/content/autosave.ts:67-149 | at most one save of a client is outstanding; not dirty means latest equals acknowledged |
| AutosaveWorld.NoEditStranded | apps/admin/src/features/content/autosave.ts:67-149 | over every run, outside conflicts included, a queue that is on never holds an unsaved edit without timer, flight or visible error, unless it was turned back on over an idle edit |
| AutosaveWorld.StepStrands | apps/admin/src/features/content/autosave.ts:63-176 | one step loses the attention an edit has exactly when it turns the queue on, by either call, while the status is pending and no flight exists |
| AutosaveWorld.StrandedIffTurnedOnIdle | apps/admin/src/features/content/autosave.ts:63-176 | a run has a moment with a stranded edit iff it has such a step |
| AutosaveWorld.SwitchingStrands | apps/admin/src/features/content/autosave.ts:63-66 | the run open, edit, off, on ends with the edit unsaved and nothing that will save it |
| AutosaveWorld.FlushSaves | apps/admin/src/features/content/autosave.ts:96-149 | an undisturbed flush of an up-to-date client stores the latest value and leaves the queue clean |
| JsonEquality.EqualIsAlike | apps/admin/src/features/content/autosave.ts:13-23 | for any two values it is likeness: the same keys with alike values, an array having its indices as keys; or an object naming "length" with the size of an array, its other keys indices of alike items |
| JsonEquality.EqualIsSame | apps/admin/src/features/content/autosave.ts:13-23 | the same JSON value iff equal by the comparison and arrays meet arrays throughout; so for snapshots of one shape it decides equality |
| JsonEquality.WrongIffShapesDiffer | apps/admin/src/features/content/autosave.ts:13-23 | it answers wrongly exactly for alike values in which an array meets an object |
| JsonEquality.MistakenIffMistakable | apps/admin/src/features/content/autosave.ts:13-23 | a value has some different value it is equal to iff it contains an array, or an object whose keys are its indices or all but a fitting "length" |
| JsonEquality.BothWaysReadsArraysAsObjects | apps/admin/src/features/content/autosave.ts:13-23 | asked both ways round it decides equality after reading every array as the object of its indices |
| JsonEquality.ShortcutIsSound | apps/admin/src/features/content/autosave.ts:14 | wherever the code stops early at one identical object, its answer is that of the full comparison |
| JsonEquality.ArraysPassForObjects | apps/admin/src/features/content/autosave.ts:18-22 | an empty list equals an empty record, and a one-element list the record with key 0, which are different values |
| JsonEquality.LengthPassesOneWay | apps/admin/src/features/content/autosave.ts:18-22 | {"length": 1} equals every list of one item, and no such list equals it: the comparison is not symmetric |
| Archive.Grouped | apps/web/stats/rum/normalize.ts:276-321 | deltas are row sums minus site totals; complete iff no limit, no delta and no sampling doubt |
| Archive.StatsDatabase.ArchiveDay | apps/web/stats/worker/archive.ts:89-248 | the transaction of one run, or a recorded failure, or both when the commit was reported as failed |
| ArchiveHistory.FailuresKeepRows | apps/web/stats/worker/archive.ts:68-86 | a failure keeps every traffic row and every last success; a dimension becomes missing unless a later attempt is on record |
| Archive.CountPages | apps/web/stats/worker/archive.ts:123-132 | page loads by canonical path, and whether any path is unknown |
| Archive.CountSources | apps/web/stats/worker/archive.ts:133-144 | visits by source, own hosts left out |
| Archive.StoredIsBalanced | apps/web/stats/worker/archive.ts:118-165 | from the deltas of a reading alone: complete pages store page loads that sum to the site total, complete referrers do not exceed its visits |
| ArchiveMeaning.UsableIsStored | apps/web/stats/worker/archive.ts:97-117 | a reading is stored iff it is of the day and window asked for, has a site total, and is filtered in all four parts |
| ArchiveMeaning.StoredMeans | apps/web/stats/worker/archive.ts:118-165 | what is stored: the totals, the quality by status and sampling, and a coverage that is complete only without an unknown page, full limit, delta or sampling doubt |
| ArchiveMeaning.SourcesMean | apps/web/stats/worker/archive.ts:133-144 | direct visits are those marked as without referrer, search visits those from Bing, and all others but the site's own hosts are external |
| ArchiveMeaning.PagesMean | apps/web/stats/worker/archive.ts:123-132 | the loads of a path are those of the requests leading to it |
| Archive.ArchiveAll | apps/web/stats/worker/archive.ts:89-248 | archiving readings and failures one after another, however each call ends, leaves the tables of the transactions they commit |
| ArchiveHistory.HistoryDecides | apps/web/stats/worker/archive.ts:166-239 | after any history each row of all four tables of a day is that of the run chosen by time and then by arrival, and each last success is that of its dimension's run |
| ArchiveHistory.CompleteIsOneRun | apps/web/stats/worker/archive.ts:166-239 | if the last result of a dimension is complete, the site row and the rows of the dimension come from one and the same run |
| ArchiveHistory.PageLoadsAreConserved | apps/web/stats/worker/archive.ts:89-248 | after any calls of the archive, complete pages of a day sum to its page loads and complete referrers do not exceed its visits |
| ArchiveHistory.RowsComeWhole | apps/web/stats/worker/archive.ts:187-239 | page rows and referrer rows each come whole from one complete run whose time is the last success; the site row is the newest stored run's |
| ArchiveHistory.OlderRunsChangeNoRows | apps/web/stats/worker/archive.ts:28-35 | an arrival older than the last attempt changes no page, referrer or coverage row |
| Readership.Read | apps/web/stats/worker/api.ts:85-188 | in numbers: pages and sources are offered iff from some day to the end every day is complete with no site total before (and every page is known), their totals are sums over the days, pages sum to the total claimed, sources stay within the visits; each coverage counts its days; the popular pages are the ten most read, most read first, equal ones by path, each with its share; sources likewise by visits |
| Readership.HistoriesAreConsistent | apps/web/stats/worker/archive.ts:89-248 | after any calls of the archive, every range satisfies the condition the sums of the report rely on |
| Readership.RankingIsTop | apps/web/stats/worker/api.ts:177-185 | the first ten of the ranking: distinct pages with their totals, loads never increasing, and every page left off has at most the loads of every page listed |
| Readership.ReadyMeans | apps/web/stats/worker/api.ts:85-129 | the counting test for full coverage holds iff every day from some day of the range to its end is complete and no earlier one has a site total |
| MathSafety.EscapeEquations | internal/markdown/math_safety.go:17-51 | the back-patching loop changes exactly the lone equals lines strictly inside closed blocks opened outside code |
| MathSafety.InsideIff | internal/markdown/math_safety.go:23-49 | the pairing of delimiters in terms of the scan |
| MathShapes.DisplayIs | internal/markdown/math_safety.go:9 | a delimiter is exactly up to three spaces, two dollar signs and tabs or spaces |
| MathShapes.FenceIs | internal/markdown/math_safety.go:10 | a fence is exactly up to three spaces and a run of at least three backquotes or tildes, the run taken whole |
| MathShapes.EqualsIs | internal/markdown/math_safety.go:11 | a lone equals line is exactly up to three spaces, an equals sign, tabs or spaces and perhaps a carriage return |
| MathShapes.EscapeIs | internal/markdown/math_safety.go:43-47 | escaping puts one backslash in front of the equals sign and keeps the rest |
| MathShapes.BodyIs | internal/markdown/math_safety.go:22 | lines are judged without their carriage return |
| MathShapes.CodeMeans | internal/markdown/math_safety.go:23-36 | the scan is in code iff a fence started outside and no later line has its mark at least as often with nothing behind it |
| MathShapes.MathMeans | internal/markdown/math_safety.go:37-50 | the scan is in mathematics iff a delimiter outside code opened it and no delimiter has followed |
| MathShapes.BlockIs | internal/markdown/math_safety.go:37-50 | a closed block is such a delimiter, the next one, and what is between |
| MathSafety.SafeTwice | internal/markdown/math_safety.go:14-16 | escaping is idempotent |
| MathSafety.MathSafetySource | internal/markdown/math_safety.go:17-51 | on whole sources: same number of lines, only those escapes, idempotent, and the very source back iff no lone equals line is inside a block |
| Splice.Rewrite | internal/legacy/import.go:250-263 | the right-to-left loop fails iff two spans overlap (or an image is missing) and otherwise is the simultaneous substitution |
| Splice.WeaveIdentity | internal/legacy/import.go:162-166 | replacing each span by its own text gives the original: everything between spans is kept |
| LegacyMeaning.RewrittenMeans | internal/legacy/import.go:250-263 | a rewritten text is the old one with each image address replaced by its new one and every text between kept in place |
| Splice.OverlapAnyOrder | internal/legacy/import.go:252-253 | overlap does not depend on the order of the edits |
| LegacyImport.Preflight | internal/legacy/import.go:85-210 | accepts exactly the plans that are sound against the stored rows (images, identities, authors, collisions, groups, dates, edits, targets, tags), and an issue it reports is one the plan has |
| LegacyMeaning.SoundMeans | internal/legacy/import.go:85-210 | the sound plans are exactly those that fit in words: header and limits, an administrator of that id, complete fields, keys and addresses apart and free, groups alike, dates in order, edits that name their span, earlier articles as targets, new tags |
| LegacyImport.PreflightCoversRewrite | internal/legacy/import.go:162-166 | after preflight every edit is inside its text, names its span and has an image, so overlap is the only way an edit can be refused |
| LegacyImport.RewriteAll | internal/legacy/import.go:247-267 | every text is rewritten before anything is created, or rewriting stops at the first overlap or the first unsound text |
| LegacyImport.TagsDoNotConflict | internal/legacy/import.go:185-199 | after preflight no tag of the plan meets a tag conflict, with stored tags or with those stored before it |
| LegacyImport.PathsDoNotConflict | internal/legacy/import.go:116-137 | after preflight no item meets a taken path, stored or claimed by an earlier item |
| LegacyApply.StoreGroups | internal/legacy/import.go:268-291 | every group a note describes is stored, or was stored alike: neither a conflict nor a refusal is left |
| LegacyApply.StoreTags | internal/legacy/import.go:292-300 | the tags are stored in plan order, and only one of unacceptable form is refused |
| LegacyApply.StoreItem | internal/legacy/import.go:302-336 | create, save and publish leave the item public with planned fields, text, tags, entries and dates, or a refusal that is no path conflict |
| LegacyApply.Apply | internal/legacy/import.go:212-343 | rejected iff preflight finds an issue, stopped at images or edits exactly when one cannot be stored; group-conflict, missing-tag, topic-order and path-conflict errors are unreachable; at its end every item is public as planned and nothing stored before has gone |
| LegacyMeaning.ImportedMeans | internal/legacy/import.go:302-336 | after an import each item is public in the next row of its table with its planned fields, the rewritten text, the rows of its tags and targets in order, and its dates |
| LegacyMeaning.TagsImported | internal/legacy/import.go:292-300 | each planned tag is the next row of the tag table with its collapsed, lowered and trimmed names |
| LegacyMeaning.GroupsImported | internal/legacy/import.go:268-291 | each note is in a stored group with the described texts and order, its name perhaps trimmed |
| LegacyMeaning.DownloadMeans | internal/legacy/import.go:218-236 | the import goes on iff every image was found sound and together they are at most 128 MiB |
| LegacyMeaning.StorableMeans | internal/legacy/import.go:237-246 | all images are stored iff each has an acceptable address and none has the bytes of a deleted image |
| LegacyApply.ImportedAtItsPath | internal/legacy/import.go:116-123 | an imported item has its planned path as its only canonical one |
| ContentList.List | internal/content/read.go:193-227 | a page is, in order of time and number, at most a hundred kept rows behind the cursor; every other such row is behind the hundredth, which is then the next cursor |
| ContentList.PageK | internal/database/sqlc/content.sql.go:246-285 | page k holds rows 100k to 100(k+1) of the filtered order, in either direction |
| ContentList.FollowCursors | internal/content/read.go:193-227 | following each page's own cursor until there is none gives every row the filters keep, once, in order of time and then number, in either direction |

## Left out

- HTTP handlers, cookies, OAuth, sessions, logging, configuration, the role table and last-admin rules: commands carry an actor with a role, used as a guard only.
- Audit events and the audit list: written beside every command, read by nothing that is modelled.
- Decoding of payload JSON: payloads are typed values; a payload of the wrong kind stands for JSON of the wrong shape.
- Columns that nothing here reads: created-by, updated-by and created-at of items, tags and groups, relation labels and summaries.
- Foreign keys the database enforces: a revision's topic entries refer to stored items, as relation validation requires before they are copied.
- Mutators holding the fence across several steps: a command is one atomic step that is not taken while the worker holds the fence.
- Error classes of failed jobs, status pages and job listings: labels without effect on the protocol.
- The offline upgrade tools, which run with the writer stopped.
- The generation limit of 2^53 - 1 in the schema: generations are unbounded integers.
- File-system and R2 detail beyond complete objects under final and temporary names.
- The promise returned by flush, listeners and real timers: an armed timer is a flag, delivery and cleanup are separate steps, and listeners do not call back into the queue.
- Fractional traffic estimates: counts are natural numbers. Shares are exact fractions, not floating point.
- The daily series, the estimate flag and the sync times of the report.
- The run log of the archive and its pruning, and the daily content counts.
- Locale-aware ordering of equally ranked pages: byte order is used. Sources with equal visits are in no particular order.
- Text search, filter scopes and cursor encoding of the content list: the filter is a parameter and a cursor is its position.
- Image download and inspection in the import: what they find of an image is a parameter of `LegacyApply.Apply`.
- Tag reordering of topics (`reorderTopic`) and the React editor around the queue.
- PublicationWorker.Worker.ProcessOnce: polling intervals and the check that publication is configured are not modelled.
