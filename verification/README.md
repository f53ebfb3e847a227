# Smeshariki AI: a model with proofs

A Dafny model of the parts of Smeshariki AI whose correctness rests on several functions agreeing:
loading knowledge packages, the runs of a dialog, session families, and the history store.
`dafny verify dfyconfig.toml` checks everything.

## What is modelled

**Knowledge.** `IntegrityRules` says, violation by violation, what the integrity check has to report;
and `Visits` in which order; `IntegrityChecker` is the one-pass check with its incremental indexes, proved to report
exactly that in that order, and `IntegrityTheorems` shows that an empty report means a consistent set, stated pair by
pair without any index.
`Entities`, `Loads` and `KnowledgeStore` are the merge, the change list, the transaction and the revision log.
`Tables`, `Schema`, `Reading`, `Postgres`, `PostgresSave`, `PostgresRead` and `Revisions` are the flat tables with
their constraints, the row mappers, `save` statement by statement and the reads; the tables are proved to
refine the map of aggregates, and `PostgresLoad` is a whole load over them. `Lookup` is `find` of both stores and
what the cards rely on.

**Dialog runs.** `DialogRuns` gives the steps between awaits of all runs of the service, `DialogProtocol` the
invariant of every interleaving and its consequences, `AgentService` the service class whose methods are those
steps. `Subscriptions` and `EventBroker` are the bounded fan-out, `Provider` the assembly of streamed chunks with
`Sequences` for text put together from parts, `Runtime` the tool-calling loop. Together: what a subscriber heard is
what was stored.

**Sessions.** `Sessions` (refresh sessions as chains), `Tokens`, `AuthStores`, `AuthWorld` and `AuthService` prove
that a revoked family is cut off at once and for good, and under which overlaps it is not; `Limiter` bounds attempts; `Tabs` is the browser side,
many tabs with one cookie jar and one lock.

**History.** `Dialogs` holds the contents of the history store and what its operations keep, `History` the store
class, `Titles` the title of a dialog.

Fresh UUIDs and random tokens are values not used before. Hashes are injective, so a token or password stands
for its hash. A presented access token is what the signature check makes of it. Clocks are objects that never go
back and are read where the code reads them. `normalize_name`, `str.lower`, JSON parsing and `strip` are left
uninterpreted. Time is counted in microseconds. Locations and artifacts share one datatype, as they share one mapper.

## Results that differ from what one might expect

- A package that swaps the numbers of two stored episodes passes every check and loads into the in-memory store,
  but PostgreSQL refuses it: `save` upserts episodes row by row under `UNIQUE (work, season, number)`.
  `PostgresSave.Save` gives the exact condition, `PostgresSave.SwappedNumbersCannotBeSaved` the example.
- `AuthService.Authenticate` reads the clock up to three times. A token of a revoked family passes if it was alive
  at the first reading and the blacklist entry lapses before the last reading: `AuthWorld.DeadFamilyPasses` is the
  exact condition, `AuthWorld.RevokedTokenCanPass` the example.
- `refresh` and `change_password` read the clock once and list families until that reading plus the token lifetime.
  A refresh that loses to one that read its clock in a later second ends the family with an entry that lapses before
  the winner's token: `AuthWorld.RevokingKeepsSoundWhen` is the exact condition, `AuthWorld.LostRaceLeavesTokenAlive`
  the example. A password change hashes two passwords after its reading, which leaves the same gap to a login meanwhile.
- A load whose clock goes back is stored in memory with duration 0; PostgreSQL refuses its row and rolls it back.
- The limiter admits at most `2 * limit - 1` requests in an interval of one window length, one fewer than the
  obvious bound; the bound is reached.
- Without the Web Locks API, two tabs that read one refresh token end their own family.

## Model

| member | source | states |
|---|---|---|
| IntegrityChecker.CheckIntegrity | backend/src/smeshariki_ai/rag/integrity.py:103-447 | For every set, complete or alone, and every list of unverified references, the one-pass indexed check reports exactly the violations the declarative rules flag, each once at its entity and path and in visiting order, and exactly the external references |
| Visits.OneReport | backend/src/smeshariki_ai/rag/integrity.py:103-113 | The violations of a set and the visiting order fix the report: the check has no freedom left in what it returns and in which order |
| IntegrityTheorems.CleanIsConsistent | backend/src/smeshariki_ai/rag/integrity.py:103-447 | With a complete set the report is empty if and only if the set is consistent: references closed, episode numbers distinct, at most one episode per film, versions and equal relationships disjoint in continuity, names distinct in their scope, members and participants in matching continuities |
| IntegrityTheorems.PackageCleanIsConflictFree | backend/src/smeshariki_ai/rag/integrity.py:120-139 | Checked alone, a package has no violation if and only if no two of its entities conflict, whatever it refers to outside |
| IntegrityTheorems.PrecheckNeverStricter | backend/src/smeshariki_ai/rag/services.py:109-120 | Every violation of the package alone is, for every stored set, a violation of the merged set at the same entity and path, so the pre-check turns away nothing the full check would accept |
| IntegrityTheorems.EpisodesOfClean | backend/src/smeshariki_ai/rag/integrity.py:159-194 | A clean set has distinct (work, season, number) keys and at most one episode per film, although the check compares each episode only with an index of earlier ones |
| IntegrityTheorems.CharactersOfClean | backend/src/smeshariki_ai/rag/integrity.py:268-372 | A clean set has globally distinct character names and no two relationships of one key that share a continuity, symmetric types counted in either direction |
| IntegrityTheorems.PlacesOfClean | backend/src/smeshariki_ai/rag/integrity.py:381-447 | In a clean set two locations, or two artifacts, that share a continuity share no normalized name |
| IntegrityChecker.PairKeyTells | backend/src/smeshariki_ai/rag/integrity.py:65-70 | Two keys are equal if and only if the pairs are the same or, for a symmetric type, the same turned around; the rules themselves speak of ids and types, not of keys |
| Ordering.BeforeMeans | backend/src/smeshariki_ai/rag/integrity.py:61-62 | Ids are compared at the first place where they differ; what comes first there, or ends there, is visited first |
| IntegrityChecker.Checker.Resolve | backend/src/smeshariki_ai/rag/integrity.py:120-139 | A missing target is a violation, an external reference or nothing, depending on completeness and the unverified references; every question asked is recorded |
| IntegrityChecker.Checker.CheckEpisode | backend/src/smeshariki_ai/rag/integrity.py:163-184 | One episode adds exactly its own flags and references and extends the number and film indexes |
| IntegrityChecker.Checker.ReportFilms | backend/src/smeshariki_ai/rag/integrity.py:186-194 | Exactly the episodes of films with more than one episode are reported |
| IntegrityChecker.Checker.CheckInteractions | backend/src/smeshariki_ai/rag/integrity.py:231-266 | Exactly the self references, outsiders and repeated interactions of an episode are reported |
| IntegrityChecker.Checker.CheckVersions | backend/src/smeshariki_ai/rag/integrity.py:282-298 | Exactly the continuities already taken by an earlier slot of the same character are reported |
| IntegrityChecker.Checker.CheckRelationship | backend/src/smeshariki_ai/rag/integrity.py:300-349 | A relationship is compared only with earlier ones of its key, yet exactly the overlapping ones are reported and the index covers it afterwards, skipped self references excepted |
| IntegrityChecker.Checker.CheckCharacterNames | backend/src/smeshariki_ai/rag/integrity.py:351-372 | Exactly the names held by an earlier name of this or an earlier character are reported |
| IntegrityChecker.Checker.CheckScopedNames | backend/src/smeshariki_ai/rag/integrity.py:418-447 | Exactly the names repeated in the place itself or held by an earlier place that shares a continuity are reported |
| KnowledgeStore.Store.Load | backend/src/smeshariki_ai/rag/services.py:97-176 | A load commits if and only if the package was readable, no storage fault occurred and the merged set is consistent; any other load leaves entities, revisions and journal untouched; every committed state is consistent and its log replays; counts and entity count say what was new, changed and equal; the record of the load has its times and what was reported |
| KnowledgeStore.Merge | backend/src/smeshariki_ai/rag/services.py:207-219 | The merged set is the stored one overridden by the package, by type and id |
| KnowledgeStore.Changes | backend/src/smeshariki_ai/rag/services.py:222-244 | The change list holds exactly the created and changed entities; of each type, the counts are how many of its entities were new, stored otherwise and stored just so, and how many changes create and update |
| Loads.CountsMean | backend/src/smeshariki_ai/rag/services.py:226-243 | Each count of a type is the number of its entities in the package that met this fate in the stored set |
| Loads.ChangesCounted | backend/src/smeshariki_ai/rag/services.py:231-240 | The creating changes of a type are as many as its added entities, the updating ones as many as its updated ones |
| KnowledgeStore.CheckMerged | backend/src/smeshariki_ai/rag/services.py:117-120 | The transaction is rejected exactly for an inconsistent merged set |
| KnowledgeStore.RejectedAlone | backend/src/smeshariki_ai/rag/services.py:109-111 | A package rejected alone would have been rejected with every stored set |
| KnowledgeStore.CommitKeepsLog | backend/src/smeshariki_ai/rag/memory.py:126-150 | Committing a load extends the log to one that is in order and replays every earlier state and the new one |
| KnowledgeStore.CountOfCommit | backend/src/smeshariki_ai/rag/services.py:122-132 | After a load the store has as many entities as before plus those counted as added |
| KnowledgeStore.State.ReadAll | backend/src/smeshariki_ai/rag/memory.py:116-124 | Reading gives back the stored entities, each type in id order |
| KnowledgeStore.State.Save | backend/src/smeshariki_ai/rag/memory.py:133-146 | Saving overrides the entities by the changes and appends one numbered revision per change |
| Loads.LoadKeepsLog | backend/src/smeshariki_ai/rag/memory.py:126-146 | Over any run of loads, whatever ids they have as long as these grow, each entity's revisions are numbered 1..n with increasing load ids, the first a create and the rest updates, neighbours differ, and the revisions up to any load rebuild the state after it; one lemma for both stores |
| Loads.SkippedIdReplays | backend/src/smeshariki_ai/rag/tables.py:459-461 | An id that no committed load has rebuilds the state after the last load committed before it |
| Loads.ChangesApply | backend/src/smeshariki_ai/rag/services.py:222-244 | Applying the change list equals overriding the stored entities by the package |
| Loads.CountsAddUp | backend/src/smeshariki_ai/rag/services.py:226-243 | Added, updated and unchanged of a type add up to the entities of that type in the package |
| Loads.MergedSize | backend/src/smeshariki_ai/rag/services.py:130-130 | The merged set has the stored number of entities plus those whose key is new |
| Loads.SizesAddUp | backend/src/smeshariki_ai/rag/services.py:226-243 | Added, updated and unchanged of all types together are the entities of the package, each in exactly one of the counts |
| Loads.AddedAddUp | backend/src/smeshariki_ai/rag/services.py:226-243 | The added counts of all types together are the entities whose key is new |
| Revisions.AppendRevisions | backend/src/smeshariki_ai/rag/postgres.py:286-316 | Numbers all taken from one query before the insert give the same table as appending the changes one after another |
| Revisions.ReloadAddsNoRevision | backend/src/smeshariki_ai/rag/services.py:231-240 | Loading again the package just loaded changes nothing and adds no revision |
| Entities.GroupKnowledge | backend/src/smeshariki_ai/rag/services.py:214-219 | Grouping by type loses, mixes and duplicates nothing |
| Tables.CharacterRoundTrip | backend/src/smeshariki_ai/rag/postgres_mappers.py:127-228 | `from_rows` undoes `to_rows` for a character, with the continuities of each version and relationship grouped by its position |
| Tables.PlaceRoundTrip | backend/src/smeshariki_ai/rag/postgres_mappers.py:256-294 | `from_rows` undoes `to_rows` for a location or artifact |
| Postgres.CharacterToRows | backend/src/smeshariki_ai/rag/postgres_mappers.py:127-181 | The loops produce exactly the positioned rows of the character in its five child tables |
| Postgres.EpisodeToRows | backend/src/smeshariki_ai/rag/postgres_mappers.py:306-337 | The rows of an episode are exactly its positioned lists |
| Reading.Select | backend/src/smeshariki_ai/rag/postgres.py:81-92 | The selected rows are those of the wanted owners, in key and position order |
| Reading.ReadGroups | backend/src/smeshariki_ai/rag/postgres.py:102-110 | Appending ordered rows to group lists rebuilds every list of every aggregate, nested groups and restriction by ids included |
| PostgresRead.ReadCharacters | backend/src/smeshariki_ai/rag/postgres.py:95-118 | Exactly the wanted characters, in id order, rebuilt without a validation error |
| PostgresRead.ReadAll | backend/src/smeshariki_ai/rag/postgres.py:223-229 | Reading the tables gives back exactly the knowledge set they represent |
| PostgresRead.RestrictedRead | backend/src/smeshariki_ai/rag/postgres.py:95-118 | A read restricted to ids is the full read filtered by them |
| PostgresSave.Save | backend/src/smeshariki_ai/rag/postgres.py:238-282 | Between consistent sets, `save` succeeds if and only if no episode takes a number a later changed episode still holds; then the tables hold exactly the merged set, otherwise they are as before. Each statement writes one table, and after each every primary, unique and foreign key holds, episode numbers included |
| PostgresSave.DeleteChildren | backend/src/smeshariki_ai/rag/postgres.py:245-251 | Deleting the child rows of changed owners leaves exactly the rows of the others |
| PostgresSave.UpsertRoots | backend/src/smeshariki_ai/rag/postgres.py:253-263 | In mapper order every root is written after what it refers to; the phase fails exactly on a number handover |
| PostgresSave.InsertChildren | backend/src/smeshariki_ai/rag/postgres.py:265-270 | After inserting the positioned children the tables hold the merged aggregates |
| PostgresSave.CollisionIsHandover | backend/src/smeshariki_ai/rag/tables.py:213-219 | The next episode row breaks the unique number exactly when a later changed episode still holds it |
| PostgresSave.SwappedNumbersCannotBeSaved | backend/src/smeshariki_ai/rag/postgres.py:272-284 | Two stored episodes whose numbers a package swaps, with their tables: both sets are consistent and validated, and the row by row upsert fails |
| PostgresLoad.PostgresStore.Load | backend/src/smeshariki_ai/rag/services.py:97-176 | A load over PostgreSQL commits if and only if the package was readable, no storage fault occurred, it did not finish before it started, the merged set is consistent and no changed episode takes a number that a later changed one still holds; then the tables hold the merged set, the revision table one more revision per change under the id drawn, and the load table its row with the reported counts; any other load leaves all three as they were, but for the id it may have drawn |
| PostgresLoad.ContentContinues | backend/src/smeshariki_ai/rag/postgres.py:231-318 | After a committed load, whatever ids earlier rolled back loads used up, the tables hold the merged set, the revision table holds a log that is in order and replays every committed state, and the load table has a completed row for exactly the committed loads |
| PostgresLoad.ChangedMerge | backend/src/smeshariki_ai/rag/postgres.py:238-240 | Writing the changed entities alone gives the merged set of the whole package |
| Schema.ConsistentSatisfiesSchema | backend/src/smeshariki_ai/rag/tables.py:115-441 | The rows of every consistent validated set satisfy all primary, unique and foreign keys, episode numbers included |
| Schema.CharacterNamesUnique | backend/src/smeshariki_ai/rag/tables.py:115-142 | Normalized character names are unique over all characters |
| Schema.VersionRowsSound | backend/src/smeshariki_ai/rag/tables.py:341-371 | A character has one version per continuity, and its continuity rows belong to its version rows |
| Schema.RelationshipRowsSound | backend/src/smeshariki_ai/rag/tables.py:409-443 | The continuities of a relationship lie within those of its owner's versions |
| Schema.EpisodeLayersFit | backend/src/smeshariki_ai/rag/tables.py:268-306 | The rows of an episode fit its schema, interaction participants being participants of the episode |
| Lookup.FindInMemory | backend/src/smeshariki_ai/rag/memory.py:70-99 | On every consistent set the scan finds exactly the matching entities of each type in id order, the works of the episodes, and the name of everything referred to |
| Lookup.FindInTables | backend/src/smeshariki_ai/rag/postgres.py:121-208 | The find through name rows finds exactly the same |
| Lookup.FoundOnce | backend/src/smeshariki_ai/rag/memory.py:70-99 | That description leaves only one possible result, so the two stores agree on every key |
| Lookup.FindsByIdOrName | backend/src/smeshariki_ai/rag/memory.py:55-78 | A key finds exactly what has it as its id and what has a name, an alias or a title that normalizes to it |
| Lookup.FoundRefersToStored | backend/src/smeshariki_ai/rag/models.py:286-309 | Every reference of what was found is a stored entity |
| Lookup.ReferencesOf | backend/src/smeshariki_ai/rag/models.py:286-309 | The set filled in loops holds exactly what the found entities refer to |
| Lookup.ShownByName | backend/src/smeshariki_ai/rag/lookup.py:143-145 | No card falls back to the slug: what is shown is the stored name |
| Lookup.CharacterCardByName | backend/src/smeshariki_ai/rag/lookup.py:154-185 | The card of a character shows everyone it is tied to and all canon variants by the stored name |
| Lookup.PlaceCardByName | backend/src/smeshariki_ai/rag/lookup.py:187-207 | The card of a place shows its canon variants and its residents or creators by the stored name |
| Lookup.EpisodeCardByName | backend/src/smeshariki_ai/rag/lookup.py:209-222 | The card of an episode shows its work by title and its characters, locations and artifacts by the stored name |
| Lookup.EpisodeCardHasContinuity | backend/src/smeshariki_ai/rag/lookup.py:209-217 | The work of a found episode is found, so its card has a continuity, shown by name |
| Lookup.InteractionCardIsComplete | backend/src/smeshariki_ai/rag/lookup.py:223-233 | Both participants of an interaction are shown by name though `references_of` does not look at interactions |
| Lookup.KeyNamesOneCharacter | backend/src/smeshariki_ai/rag/memory.py:55-58 | A key is a name or alias of at most one character |
| Lookup.AtMostTwoCharacters | backend/src/smeshariki_ai/rag/memory.py:76-78 | A key finds at most two characters, one by name and one by id |
| Lookup.NameRowsMatch | backend/src/smeshariki_ai/rag/postgres.py:128-132 | An aggregate has a name row with a search key exactly when one of its names normalizes to it |
| DialogProtocol.StepKeepsSound | backend/src/smeshariki_ai/application/agent_service.py:139-310 | Every step of every interleaving keeps the invariant: runs in turn, histories, streams and stored pairs in acceptance order |
| DialogProtocol.OneRunAtATime | backend/src/smeshariki_ai/application/agent_service.py:198-210 | In every interleaving at most one run of a dialog is past its wait and not done |
| DialogProtocol.AgentSeesEarlierPairs | backend/src/smeshariki_ai/application/agent_service.py:218-220 | The agent receives exactly the user and assistant pairs of the earlier accepted runs of its dialog that were stored, in acceptance order |
| DialogProtocol.TaskDoneKeepsTails | backend/src/smeshariki_ai/application/agent_service.py:297-300 | A tail is dropped only when every run of its dialog is done, so a later run without a predecessor misses nothing |
| DialogProtocol.StreamIsRunByRun | backend/src/smeshariki_ai/application/agent_service.py:207-295 | A dialog's stream is what its runs published, run after run in acceptance order: each finished run with a stored answer ends with END under that answer's id, each failed one with ERROR |
| DialogProtocol.DialogHoldsPairs | backend/src/smeshariki_ai/application/agent_service.py:234-240 | A dialog's history is the pairs its runs stored, in acceptance order, and nothing else |
| DialogProtocol.StreamIsInOrder | backend/src/smeshariki_ai/application/agent_service.py:207-295 | Each dialog's stream is blocks START DELTA* followed by END or ERROR, at most the last one open |
| DialogProtocol.EndCarriesTheText | backend/src/smeshariki_ai/application/agent_service.py:234-252 | The deltas before an END join to exactly the assistant message stored under the id it carries |
| DialogProtocol.SubscriberHeardTheAnswer | backend/src/smeshariki_ai/application/agent_service.py:214-252 | Whoever hears a stream from a START to the next END has heard the stored answer |
| DialogProtocol.StoredIsSpoken | backend/src/smeshariki_ai/application/agent_service.py:234-240 | What a run stored is its request and the text its deltas spell |
| AgentService.AgentService.Submit | backend/src/smeshariki_ai/application/agent_service.py:139-163 | A request for the user's own dialog is put behind the run accepted last, unless the service stopped accepting |
| AgentService.AgentService.Begin | backend/src/smeshariki_ai/application/agent_service.py:207-217 | Once the predecessor is done START is published |
| AgentService.AgentService.Load | backend/src/smeshariki_ai/application/agent_service.py:218-218 | The run gets the stored history, or fails when the dialog is gone |
| AgentService.AgentService.Emit | backend/src/smeshariki_ai/application/agent_service.py:220-230 | A delta is published at once and the response kept |
| AgentService.AgentService.Persist | backend/src/smeshariki_ai/application/agent_service.py:234-240 | Question and answer are appended together with consecutive ids, or the run fails |
| AgentService.AgentService.Finish | backend/src/smeshariki_ai/application/agent_service.py:247-252 | END carries the id of the stored answer |
| AgentService.AgentService.TaskDone | backend/src/smeshariki_ai/application/agent_service.py:297-300 | The tail is dropped only if this task still is the tail |
| Subscriptions.RunKeepsValid | backend/src/smeshariki_ai/application/event_broker.py:49-75 | For any schedule of offer, close and receive the queue and what was received account for what was published |
| Subscriptions.QueueIsBounded | backend/src/smeshariki_ai/application/event_broker.py:56-75 | The queue never exceeds its size and, once closed, ends with the sentinel |
| Subscriptions.OpenUntilOverflow | backend/src/smeshariki_ai/application/event_broker.py:49-64 | A subscription nobody closes stays open if and only if no offer finds as many events unread as the queue holds, and while it is open what was received and is queued is all that was offered |
| Subscriptions.ReceivedIsPrefix | backend/src/smeshariki_ai/application/event_broker.py:49-73 | Unless the subscription was drained, what was received is a prefix of what was published after it began |
| Subscriptions.DrainedLosesAtMostOne | backend/src/smeshariki_ai/application/event_broker.py:66-75 | A subscription closed with its queue kept delivers all but at most one event, the oldest still queued |
| Subscriptions.OnlyFullQueueLoses | backend/src/smeshariki_ai/application/event_broker.py:66-75 | Closing an open subscription with its queue kept costs it an event if and only if the queue is full |
| EventBroker.Subscription.OfferEvent | backend/src/smeshariki_ai/application/event_broker.py:56-64 | An event is queued at the end while there is room; the subscription is closed by it if and only if it was full |
| EventBroker.Broker.Publish | backend/src/smeshariki_ai/application/event_broker.py:111-133 | Each subscription of the dialog with room gets the event at the end of its queue, each full one is closed and dropped, whatever becomes of the others; no other one changes |
| EventBroker.Broker.Unsubscribe | backend/src/smeshariki_ai/application/event_broker.py:95-109 | Only this subscription is closed and dropped |
| EventBroker.Broker.Shutdown | backend/src/smeshariki_ai/application/event_broker.py:147-166 | All subscriptions are closed with their queues kept |
| EventBroker.ReceivedTextIsStored | backend/src/smeshariki_ai/application/event_broker.py:49-133 | A reader offered any stretch of a stream, joined at any time and closed in any way, that received a message from START to END with no event lost in between has heard exactly the stored answer |
| EventBroker.ReceivingKeepsValid | backend/src/smeshariki_ai/application/event_broker.py:49-54 | Taking an event from a queue disturbs no other subscription: the broker's invariant, closed subscriptions included, still holds |
| AgentService.SubscriberReadsTheAnswer | backend/src/smeshariki_ai/application/event_broker.py:49-133 | End to end over the classes: every subscription the broker of the service ever opened, closed by now or not, whose reader received a message from START to END with no event lost in between, gave it exactly the stored answer |
| Provider.StreamChunks | backend/src/smeshariki_ai/agent/providers/litellm.py:66-147 | Accepted are exactly the well-typed chunk streams with a choice that do not mix text and calls and whose call can be read; the response is the joined text, or the one call whose id, name and arguments are the joined fields of all parts; the deltas are the texts of the chunks, one by one, up to the first chunk that fails |
| Provider.Stream | backend/src/smeshariki_ai/agent/providers/litellm.py:42-183 | The provider yields a delta for each text and then the response the chunks spell, or the deltas up to the chunk that fails and an exception; so deltas and their joined text, or one call alone |
| Provider.TextIsPassedOn | backend/src/smeshariki_ai/agent/providers/litellm.py:104-116 | Chunks that carry texts are accepted, passed on text by text, and answered by all of them joined |
| Provider.CallIsPassedOn | backend/src/smeshariki_ai/agent/providers/litellm.py:118-143 | Chunks that carry pieces of a call are accepted if and only if the joined arguments are a JSON object and id and name are not blank, and answered by the call with the joined id, name and arguments |
| Provider.IllTypedIsRefused | backend/src/smeshariki_ai/agent/providers/litellm.py:78-135 | A second choice, content that is no text, a second call, or an id, name or arguments that are no text make the stream fail |
| Provider.SplittingDoesNotMatter | backend/src/smeshariki_ai/agent/providers/litellm.py:70-127 | Splitting any stretch of text or call parts into other fragments changes neither acceptance nor the response |
| Runtime.Run | backend/src/smeshariki_ai/agent/runtime.py:41-194 | For every model, the agent yields deltas and at most one response equal to their join, and what it yields before an error is what the last stream held up to its first other event; the context is the base and one matching call and result per round, at most `max_iterations`; with a coherent provider the invalid-response error cannot occur |
| Runtime.Judge | backend/src/smeshariki_ai/agent/runtime.py:91-130 | A round ends in an answer equal to its deltas, a call without deltas, or an error; a coherent stream never gives an invalid response |
| Runtime.GrownByOne | backend/src/smeshariki_ai/agent/runtime.py:132-190 | Each round appends one call and the result that answers it |
| Runtime.CoherentIsHeard | backend/src/smeshariki_ai/agent/runtime.py:70-114 | A coherent stream passes every consistency check of the loop |
| Sessions.RunKeepsChains | backend/src/smeshariki_ai/auth/memory.py:82-142 | Under any interleaving of store operations each family is one `replaced_by` chain whose end alone may be active |
| Sessions.AtMostOneActive | backend/src/smeshariki_ai/auth/memory.py:98-112 | A family has at most one active session |
| Sessions.ReplacementsNeverCycle | backend/src/smeshariki_ai/auth/memory.py:108-111 | No session is replaced by itself, however many steps later |
| Sessions.ExchangedAtMostOnce | backend/src/smeshariki_ai/auth/memory.py:98-112 | In any run a refresh token is exchanged at most once |
| Sessions.DeadStaysDead | backend/src/smeshariki_ai/auth/memory.py:98-142 | A family without an active session never has one again |
| Sessions.SessionStore.RotateSession | backend/src/smeshariki_ai/auth/memory.py:98-112 | Rotation succeeds exactly for an active session, marks it as replaced at that time, adds the new one and keeps the chain |
| Sessions.SessionStore.RevokeUserSessions | backend/src/smeshariki_ai/auth/memory.py:126-142 | Exactly the user's active sessions outside the kept family are revoked, and exactly their families returned |
| Tokens.DecodeUndoesEncode | backend/src/smeshariki_ai/auth/tokens.py:21-84 | Decoding a token gives its claims back until its truncated expiry (section 4.1.4 of RFC 7519), which is never later than issue plus lifetime |
| AuthWorld.DeadFamilyIsRejected | backend/src/smeshariki_ai/auth/service.py:129-139 | A family without an active session has no access token that is accepted now or later |
| AuthWorld.DeadFamilyPasses | backend/src/smeshariki_ai/auth/service.py:129-131 | Within a call that reads the clock three times, a token of a dead family passes if and only if it was alive at the first reading, the blacklist entry of its family has lapsed by the last, it was not listed itself and its user exists |
| AuthWorld.RevokedTokenCanPass | backend/src/smeshariki_ai/auth/service.py:129-131 | A token that lives five seconds, its family revoked at 2 s: readings at 4, 5 and 6 s reject it, readings at 4, 5 and 7 s let it pass |
| AuthWorld.RevokedForGood | backend/src/smeshariki_ai/auth/service.py:277-289 | A family revoked once is cut off in every later state, whatever was issued in between |
| AuthWorld.LiveFamilyIsAccepted | backend/src/smeshariki_ai/auth/service.py:281-289 | Tokens of a family with an active session are rejected only when expired, logged out one by one, or without a user |
| AuthWorld.RevokingKeepsSound | backend/src/smeshariki_ai/auth/service.py:277-279 | Revoking sessions first and listing the family until now plus the lifetime covers every token issued so far |
| AuthWorld.RevokingKeepsSoundWhen | backend/src/smeshariki_ai/auth/service.py:277-279 | With a clock reading from before, revoking a family keeps the invariant if and only if every token of the family still alive expires by that reading plus the lifetime, or by an older entry of the family |
| AuthWorld.LostRaceLeavesTokenAlive | backend/src/smeshariki_ai/auth/service.py:210-213 | A token exchanged at 3 s while a second refresh with it had read its clock at 1 s: the second ends the family, and at 7 s the token issued at 3 s is accepted |
| AuthWorld.SigningOutKeepsSound | backend/src/smeshariki_ai/auth/service.py:180-184 | Signing out other sessions leaves every family it kills covered by the blacklist |
| AuthWorld.KeptFamilyStillWorks | backend/src/smeshariki_ai/auth/service.py:180-184 | Tokens of the kept family and of other users are accepted exactly as before a password change |
| AuthWorld.OtherFamiliesCutOff | backend/src/smeshariki_ai/auth/service.py:180-184 | Every token issued to the user for another family is cut off at once by a password change; that a family has one user is part of what every operation keeps |
| AuthService.AuthService.Authenticate | backend/src/smeshariki_ai/auth/service.py:129-131 | Exactly the tokens that pass at the three clock readings of the call are accepted, in every sound state and however the clock moves |
| AuthService.AuthService.Login | backend/src/smeshariki_ai/auth/service.py:94-127 | The right password opens a new family for the user with that login, its tokens running their whole lifetimes from the reading, if and only if the counter of the key is not full; a wrong one is counted, a right one clears the counter; every failure leaves users, sessions and tokens alone |
| AuthService.AuthService.Refresh | backend/src/smeshariki_ai/auth/service.py:192-215 | A token is exchanged exactly if its session is active and not expired and the user exists, for tokens of that user that run their whole lifetimes from the reading; a used token ends its family and no other; other failures change nothing |
| AuthService.AuthService.IssuedIsExchanged | backend/src/smeshariki_ai/auth/service.py:192-209 | A refresh token just issued meets the condition of the next refresh until its expiry and no longer, while its user exists |
| AuthService.OthersStaySignedIn | backend/src/smeshariki_ai/auth/service.py:217-248 | Signing out changes nothing for any token but the presented one and those of the families that end |
| AuthService.AuthService.Exchange | backend/src/smeshariki_ai/auth/service.py:210-215 | For a session read earlier: exchanged if and only if still active, otherwise its family, and only that, is revoked as reuse; the invariant then holds if and only if no live token of the family outlives the entry |
| AuthService.AuthService.Logout | backend/src/smeshariki_ai/auth/service.py:217-248 | The families that end are exactly that of the unexpired access token and that of the session with the refresh token; all others keep their sessions and entries, and of single tokens only the presented one is listed |
| AuthService.AuthService.ChangePassword | backend/src/smeshariki_ai/auth/service.py:141-190 | The password changes if and only if the token passes, the counter of the user is not full, the old password is right and the new one differs; then the user is signed out elsewhere; every other case has its own error and changes nothing but the counter |
| AuthService.AuthService.Register | backend/src/smeshariki_ai/auth/users.py:9-20 | A login free in every case is registered; a taken one changes nothing |
| AuthStores.TokenBlacklist.RevokeFamily | backend/src/smeshariki_ai/auth/memory.py:159-161 | A family is entered only as far as the entry lies ahead |
| Limiter.AtMostTheLimitPerWindow | backend/src/smeshariki_ai/auth/memory.py:173-202 | At most `limit` hits are admitted into one window |
| Limiter.FewerThanTwiceTheLimit | backend/src/smeshariki_ai/auth/memory.py:173-202 | In any half-open interval of one window length fewer than twice the limit are admitted |
| Limiter.TwiceTheLimitLessOneHappens | backend/src/smeshariki_ai/auth/memory.py:173-202 | That bound is reached for every limit and window |
| Limiter.WaitIsTight | backend/src/smeshariki_ai/auth/memory.py:203-205 | A wait is at least a second, never longer than the window, reaches its end, and one second less would not |
| Limiter.OpenAfterWaiting | backend/src/smeshariki_ai/auth/memory.py:173-205 | After the wait the key is open again |
| Limiter.AttemptLimiter.Hit | backend/src/smeshariki_ai/auth/memory.py:173-175 | A hit is admitted exactly up to the limit of its window and otherwise told to wait until that window is over |
| Limiter.AttemptLimiter.Blocked | backend/src/smeshariki_ai/auth/memory.py:177-182 | Blocked exactly while the live window holds the limit |
| Limiter.BlockedFromTheLimitOn | backend/src/smeshariki_ai/auth/memory.py:177-202 | After failures within one window a key is blocked if and only if they reach the limit, and exactly until that window ends |
| Tabs.NoTokenIsPresentedTwice | frontend/src/auth-session.js:27-39 | In every interleaving of any number of tabs taking turns, no refresh token is presented after it was exchanged |
| Tabs.JarHoldsTheActiveToken | frontend/src/auth-session.js:36-39 | Whenever the lock is free the jar holds the family's active token, if it has one |
| Tabs.IdleBrowserIsInTurn | frontend/src/auth-session.js:36-39 | A browser whose tabs are idle and whose jar holds an active token meets the condition under which the runs above start |
| Tabs.WaitingTabFindsRenewal | frontend/src/auth-session.js:27-34 | A tab that waited finds the session just renewed and sends nothing |
| Tabs.RefreshSucceedsOnLiveFamily | frontend/src/auth-session.js:17-23 | A refresh inside the lock on a live session succeeds and never ends the family |
| Tabs.WithoutLockTheFamilyDies | frontend/src/auth-session.js:36-37 | Without the lock, a run of two tabs that send the token they both read: the second is refused and the family of the first ends |
| Dialogs.AppendKeepsSound | backend/src/smeshariki_ai/dialogs/history.py:174-205 | Appending keeps ids unique and increasing, all ratings and reports on their messages, and the title of the first user message |
| Dialogs.AppendAdds | backend/src/smeshariki_ai/dialogs/history.py:174-205 | Only this dialog grows: by the messages in order, with the next ids, each with the time of the append |
| Dialogs.DeleteKeepsSound | backend/src/smeshariki_ai/dialogs/history.py:240-250 | Deleting leaves no rating of a lost message and detaches its reports, which keep what they quote |
| Dialogs.DeleteSpares | backend/src/smeshariki_ai/dialogs/history.py:240-250 | Nothing goes with a dialog but the ratings of its messages; reports lose nothing but the link to them |
| Dialogs.RateKeepsSound | backend/src/smeshariki_ai/dialogs/history.py:252-268 | Ratings stay on live assistant messages |
| Dialogs.ReportKeepsSound | backend/src/smeshariki_ai/dialogs/history.py:270-305 | A new report is the only one of its message and quotes the answer and the nearest earlier user text |
| Dialogs.NearestRequestMeans | backend/src/smeshariki_ai/dialogs/history.py:284-291 | The quoted request is the last user message before the answer, or there is none |
| Dialogs.SeeKeepsSound | backend/src/smeshariki_ai/dialogs/history.py:324-341 | Only reviewed reports are marked as seen |
| Dialogs.JudgeKeepsSound | backend/src/smeshariki_ai/dialogs/history.py:343-353 | Reopening a report clears what only reviewed reports have |
| History.HistoryStore.Append | backend/src/smeshariki_ai/dialogs/history.py:174-205 | All messages get the next ids in order and the title is that of the first user message, or nothing happens |
| History.HistoryStore.Delete | backend/src/smeshariki_ai/dialogs/history.py:240-250 | The owner's dialog goes with its ratings and its reports are detached; a foreign or missing one changes nothing |
| History.HistoryStore.SetFeedback | backend/src/smeshariki_ai/dialogs/history.py:252-262 | An own answer gets the score, every other rating stays; anything else is refused and changes nothing |
| History.HistoryStore.MakeReport | backend/src/smeshariki_ai/dialogs/history.py:270-305 | A report is made if and only if the message is an answer in the own dialog without a report; it quotes the answer with the nearest earlier request; each refusal has its own error and changes nothing |
| History.HistoryStore.MarkSeen | backend/src/smeshariki_ai/dialogs/history.py:324-341 | Exactly the user's reviewed unseen reports among the ids are marked, and counted |
| History.HistoryStore.SetReportStatus | backend/src/smeshariki_ai/dialogs/history.py:343-353 | A judgement sets the status and the time of one report and leaves its text and all others alone |
| History.HistoryStore.Transcript | backend/src/smeshariki_ai/dialogs/history.py:224-238 | Each line shows its message with the time it was stored, its rating and the state of its only report |
| Titles.TitleIsOneShortLine | backend/src/smeshariki_ai/dialogs/models.py:73-79 | A title is one tidy line of at most 201 characters: all words when that fits in 200, else the first 200 characters without a blank at their end and an ellipsis |
| Titles.WordsAreJoined | backend/src/smeshariki_ai/dialogs/models.py:76-76 | Joining keeps the words in order, whatever white space parted them, with single blanks between them |

## Left out

- KnowledgeStore.Store.Load: `readable` stands for the issues of reading the package, and `fault` for any storage error; messages, file names and the sorting of issues are not modelled, and a duration is the plain difference of its two times, without rounding.
- IntegrityChecker.CheckIntegrity: the external references are a set, without the order they are sorted into, and a violation has no message text.
- PostgresSave.Save: stated between consistent sets whose id lists hold no value twice, as validated models guarantee; timestamps and check constraints on single columns are not modelled, and child rows are inserted as one statement per table of each type.
- PostgresLoad.PostgresStore.Load: a package is required to be validated, as reading it guarantees; every database error is reported as `StoreFailed`, a number handover included, and a connection that breaks while a commit is under way is not modelled.
- PostgresRead.ReadAll: validation errors arise only from a missing name row; other column checks of the models are left out.
- Lookup.FindInTables: names are one map keyed by type and id where the code nests one dictionary per type; the fields a card copies unchanged and the limit on shown matches are left out.
- DialogProtocol.StreamIsInOrder: states the stream before shutdown; a run cancelled by shutdown may publish ERROR without START or after its answer was stored.
- AgentService.AgentService.Load: the user of a run is a parameter, required to own the dialog while it exists, as `submit` made sure.
- Subscriptions.DrainedLosesAtMostOne: delivery is to a subscriber that keeps receiving; `receive` waits on an empty queue, which is not a step here.
- Runtime.Run: tool execution is a function of the call and the round; a tool that raises is turned into an error result by the registry, which is not modelled.
- Provider.StreamChunks: usage figures, request building and logging are left out.
- AuthService.AuthService.Refresh: each service call is one step, the clock moving on only where it is read; calls interleaved between reading the clock and writing are covered by `Sessions` as far as chains are concerned and by `AuthService.Exchange` for a lost race; a login while a password change hashes is not modelled.
- Tabs.NoTokenIsPresentedTwice: every answer of a refresh is delivered, and the jar changes by refreshes only, not by a new login.
- Limiter.FewerThanTwiceTheLimit: counts hits of one key with one limit and window, as the service makes them; a reset of the key is not part of such a run.
- `list_dialogs` and `report_news`, which only filter and sort, are left out.
- `verify_session`, which skips the expiry test for long-lived streams, is left out.
- Redis and PostgreSQL versions of the auth and history stores are left out; the in-memory ones define the contract.
- The rate limits per client address, cookies, HTTP routes, server-sent events and the page scripts besides `auth-session.js` are left out.
- Reading YAML packages, the command line, configuration, migrations and the admin statistics are left out.
