# Verified model of the client and worker cores

This project models the stateful parts of the system whose correctness is not visible in any single
function, and proves what they promise:

- **Streaming answers.** The browser reads server-sent events from pieces of text cut anywhere by the
  network. The reader is proved equal to one batch split of the whole text (a subset of section 9.2.6 of
  the WHATWG HTML standard: LF line ends, `event` and `data` fields). The smoke tool's batch parser and
  the server's encoder are modelled beside it.
- **Writing and searching vectors.** Chunking, recursive bisection of rejected batches, regrouping by
  collection, the create/409/re-read race between workers, and the merge of several collections' results.
- **Configuration.** The form is printed to JSON, merged over whatever is stored, and read back by
  coercing getters. Printing and reading are tables (`ConfigTable`); the laws (`ConfigForm`, `ConfigMerge`)
  hold for any table. The merges run on mutable records that share the form's objects (`ConfigHeap`).
- **Validate-then-commit gates** of the setup page and the configuration editor, as transition systems
  whose steps are the segments of the handlers between two awaits.
- **Admin selections.** Choosing the next role binding, checkbox selections, page arithmetic and the
  self-healing list refresh, and the department access rules of a knowledge base.
- **The import worker** under transactions, with every service call free to raise.

Code that changes state is a class or a method with a loop, proved against a specification function;
what the system promises is then proved about that function, and said on its inputs: on JSON fields
(`SseLaws`, `ConfigSaved`), on the points a server returned (`SearchLaws`) or stores (`VectorWriterStored`),
on which calls returned or raised (`WorkerLaws`), and across saving and opening (`ConfigOpened`).
The services behind an interface are parameters: the embedding provider and the vector server
(`VectorWriter.Env`), the JSON parser (`JsonParser`), the list server (`Paging.Server`), the import
service (scripts of `WorkerLoop.Call`).

## Findings

- The browser reader and the batch parser agree on a text, whatever its JSON, exactly when they extract
  the same names and data from its frames (`SseBatch.ParsersAgreeIff`). They do on every text without
  characters that JavaScript and Python treat differently; a byte order mark before a payload separates
  them (`SseBatch.ByteOrderMarkBreaksAgreement`).
- Reading the built configuration back returns the form exactly when the optional key reference has no
  surrounding white space (`ConfigLaws.RoundTripIffTrimmed`).
- `deepMerge` is associative exactly when, wherever the middle patch puts a non-record between two
  records, the last one overwrites everything in the first (`ConfigMerge.MergeAssociativeIff`).
- Both gates take their signature after the await. An edit while a validation is out opens the setup gate
  over an unseen payload (`SetupGate.EditInFlightOpensGate`), and the editor's gate over an unseen bundle
  exactly when the edit changes the bundle (`ConfigGate.EditInFlightIff`), as every edit in range of an
  editable field does, up to white space around the key reference (`ConfigGate.EditInFlightOpensGate`).
- The editor's gate compares stored texts. The steps after which it stands open over a bundle its text
  does not speak of are listed with their exact conditions (`ConfigGate.StepOpensStaleIff`); a run without
  them, and without a change while a validation is out, never has such a gate. A refresh that reads the
  list and then fails is one, exactly when no version is selected and the active version is another one
  (`ConfigGate.FailedRefreshIff`).
- Two role ids can share a binding key exactly when one is the other, a colon and a scope type, followed
  by nothing more or a colon (`RoleBinding.KeysClashIff`), and then only through a scope id with a colon.
- A refused or failed refresh of the failed index jobs empties the selection but leaves the retry
  confirmation ticked (`Paging.RefreshLeaves`), and so does select-all over a list with nothing
  eligible (`Selection.EmptyingUnconfirms`).
- The select-all flag is right in every state reachable over a set of lists exactly when no list repeats
  the id of an eligible item (`Selection.FlagsRightIff`).

## Model

| member | source | states |
|---|---|---|
| TextSplit.SplitResumes | apps/web/src/api/query.ts:93-100 | Composition law: splitting `a + b` is the finished parts of `a`, then the split of the tail of `a` followed by `b`, for every separator |
| TextSplit.SplitJoins | apps/web/src/api/query.ts:94 | Joining the parts gives the text back: a split neither loses nor invents a character |
| TextSplit.LastHasNoSeparator | apps/web/src/api/query.ts:95 | The tail kept in the buffer never holds a complete separator |
| PiecewiseSplit.StreamedIsOneSplit | apps/web/src/api/query.ts:80-90 | For every way of cutting a text into pieces, dispatching finished parts piece by piece makes the calls and the final error of one split of everything |
| SseReader.QueryStream.DispatchEventFrame | apps/web/src/api/query.ts:102-142 | One frame makes exactly the call, the error or nothing that its event stands for, as `SseLaws.OneEvent` and `SseLaws.MultiLineFrame` say on lines and JSON fields |
| SseReader.QueryStream.DispatchBufferedEvents | apps/web/src/api/query.ts:93-100 | Dispatches the finished frames in order up to the first error and returns the unfinished tail |
| SseReader.QueryStream.StreamQuery | apps/web/src/api/query.ts:80-90 | The whole loop with the final flush makes the calls and the error of the batch reference on the concatenated text, which `SseLaws.StreamAnswers` and `SseLaws.StreamBreaks` say on the events sent |
| SseReader.StreamIsBatch | apps/web/src/api/query.ts:78-142 | The reader's loop as a function equals one batch split of the whole text followed by its events in order |
| SseEvents.FramesRunEvents | apps/web/src/api/query.ts:96-98 | Dispatching frames one by one is running the list of their events; the first exception ends both |
| SseEvents.FlushDiscards | apps/web/src/api/query.ts:89-90 | The text that the final flush throws away is empty, or a single newline exactly when the unfinished tail ends in one |
| SseEvents.ReadsEncodedFrame | apps/api/app/api/routes/query_stream.py:341-343 | A frame written by the server's encoder reads back as its event name and payload |
| SseEvents.EncodedEventsReadBack | apps/api/app/api/routes/query_stream.py:341-343 | Round trip: any list of encoded events reads back as exactly that list, in order |
| SseReader.EncodedStreamDispatches | apps/web/src/api/query.ts:80-142 | The loop over an encoded text, however the network cut it, runs exactly the list of events sent |
| SseLaws.GuardsAreFields | apps/web/src/api/query.ts:144-203 | The payload guards hold exactly under the listed conditions on the JSON fields, field by field |
| SseLaws.OneEvent | apps/web/src/api/query.ts:116-142 | A metadata, token, citation or done event whose payload fields are right makes its one handler call with them; any other payload under these names, and every error event, ends the stream with its error; other names do nothing |
| SseLaws.RunBreaks | apps/web/src/api/query.ts:96-142 | A list of events makes the calls of its events up to the first broken one, ends with its error, and ignores whatever follows |
| SseLaws.StreamAnswers | apps/web/src/api/query.ts:78-142 | An encoded stream of well-formed events, cut anywhere, makes exactly their calls in order and no error |
| SseLaws.StreamBreaks | apps/web/src/api/query.ts:78-142 | An encoded stream with a malformed or error event makes the calls before it and ends with its error |
| SseLaws.TokensArrive | apps/web/src/api/query.ts:78-125 | Any sequence of token events, cut anywhere, reaches the token handler as exactly its texts, one call each, in order |
| SseLaws.MultiLineFrame | apps/web/src/api/query.ts:102-115 | A frame of one event line and any number of data lines carries their texts joined by newlines when that parses to an object or a list, and no event otherwise |
| SseLaws.OtherLinesIgnored | apps/web/src/api/query.ts:105-111 | A line that is neither an event nor a data line changes nothing, wherever it stands in the frame |
| SseBatch.ParseSseEvents | tools/p0_smoke.py:383-402 | The batch parser's nested loops report the events of the non-blank frames in order |
| SseBatch.EncodedEventsReadByBatch | tools/p0_smoke.py:383-402 | The batch parser reports exactly the encoded events, names and payloads, when names and payloads hold no Python line boundary |
| SseLaws.PyFrameReports | tools/p0_smoke.py:388-401 | A frame is reported with its name and its joined data parsed, its raw text where that does not parse, or nothing where it has no data line |
| SseBatch.ReportsSolidFrames | tools/p0_smoke.py:385-401 | One event is reported for each frame with a character other than white space, in order |
| SseBatch.OrdinaryPySpace | tools/p0_smoke.py:386-394 | On ASCII text Python strips the same white space and the four separator characters besides |
| SseBatch.ParsersAgreeIff | tools/p0_smoke.py:383-402 | On any text the two readers report the same objects for every JSON parser iff they extract the same (name, joined data) sequence from its frames |
| SseBatch.ParsersAgree | tools/p0_smoke.py:383-402 | In particular they agree on every plain text, however ill-formed |
| SseBatch.SameFramesButFlush | apps/web/src/api/query.ts:90 | The appended frame end changes no event: the browser sees the events of a plain split of the text |
| SseBatch.BlankFrameIsSkipped | tools/p0_smoke.py:386-387 | A frame Python calls blank carries no event for the browser either |
| SseBatch.ByteOrderMarkBreaksAgreement | tools/p0_smoke.py:394 | A payload after a byte order mark is an event to the browser and raw text to Python |
| VectorStore.WriteAllBySlot | apps/api/app/adapters/qdrant.py:171-189 | Writing points one by one changes each collection exactly as its own points do, whatever lies between them |
| VectorWriter.Chunks | apps/api/app/adapters/qdrant.py:721-725 | Chunks are non-empty, at most the batch size long, and concatenate to the input |
| VectorWriter.IndexWriter.Ensure | apps/api/app/adapters/qdrant.py:191-211 | The collection check with its 404 branch ends in the world and outcome of the specification |
| VectorWriter.IndexWriter.Create | apps/api/app/adapters/qdrant.py:213-243 | A refused create with status 409 re-reads the size; other failures are raised |
| VectorWriter.IndexWriter.GroupPoints | apps/api/app/adapters/qdrant.py:171-182 | Filling the dictionary in a loop gives the groups in order of first appearance |
| VectorWriter.IndexWriter.UpsertDraftPointBatch | apps/api/app/adapters/qdrant.py:155-189 | The recursive batch writer ends in the world and outcome of the specification, on every reply and fault |
| VectorWriter.IndexWriter.UpsertDraftPoints | apps/api/app/adapters/qdrant.py:149-153 | The chunk loop stops at the first error with the earlier chunks written |
| VectorWriterLaws.GroupedKeeps | apps/api/app/adapters/qdrant.py:171-182 | Regrouping keeps every collection's points in order, under distinct names |
| VectorWriterLaws.EnsuredSlot | apps/api/app/adapters/qdrant.py:191-211 | A passed collection check leaves a collection that takes vectors of this size and changes nothing else |
| VectorWriterLaws.GroupedWriteIsPointwise | apps/api/app/adapters/qdrant.py:183-189 | Writing group by group leaves the store of writing the points alone in their original order |
| VectorWriterLaws.BatchIsPointwise | apps/api/app/adapters/qdrant.py:155-189 | Bisection is invisible: a batch that returns normally leaves the point-by-point store |
| VectorWriterLaws.NormalReturnIsPointwise | apps/api/app/adapters/qdrant.py:149-189 | Whatever the batch size, the provider's rejections, the mix of collections and the server's faults, a normal return leaves exactly the store of embedding and writing each point alone |
| VectorWriterStored.PointsAreStored | apps/api/app/adapters/qdrant.py:149-189 | After a normal return every point stands under its collection and id with the embedding of its text and its payload, unless a later point has the same place, in a collection of that vector size |
| VectorWriterStored.OthersAreUntouched | apps/api/app/adapters/qdrant.py:149-189 | Points not in the call stay as they were, and no collection changes its size |
| VectorWriterStored.CreatedCollections | apps/api/app/adapters/qdrant.py:183-225 | Exactly the missing collections of the points are created, each with the size of the first embedding that goes there |
| VectorWriterStored.CheckByRequests | apps/api/app/adapters/qdrant.py:191-243 | The collection check request by request: a first failure other than 404 is raised as it is with nothing changed, an existing collection passes iff its size fits, a missing one is created with the size asked for |
| VectorWriterStored.ConflictRereads | apps/api/app/adapters/qdrant.py:213-243 | A create refused with 409 passes iff the collection read again takes the size |
| VectorWriterStored.RefusedBatch | apps/api/app/adapters/qdrant.py:155-175 | A single rejected text, a wrong number of embeddings or an empty collection name stops the batch with its error before any request |
| VectorWriterLaws.BisectionCost | apps/api/app/adapters/qdrant.py:155-163 | A batch of n points costs at most 2n - 1 embedding calls |
| VectorWriterRecovery.PoisonStopsExactly | apps/api/app/adapters/qdrant.py:149-189 | Against a provider that rejects exactly poisoned or oversized batches, the call succeeds iff no text is poisoned, and otherwise has written exactly the points before the first poisoned one |
| VectorWriterRecovery.RetryConverges | apps/api/app/adapters/qdrant.py:149-189 | After any number of attempts failing anywhere, a run over the same points that returns normally leaves the store of a single clean run |
| VectorWriterRecovery.AloneIsSinglePointRun | apps/api/app/adapters/qdrant.py:155-189 | The point-by-point reference is what the writer itself does with a single point |
| CollectionRace.AloneIsEnsureCollection | apps/api/app/adapters/qdrant.py:191-243 | The steps of the race are the writer's own requests: a worker left alone computes the collection check |
| CollectionRace.RunsAgree | apps/api/app/adapters/qdrant.py:191-243 | In every interleaving with any faults, a worker that passed sees a collection of its size, and a size once set never changes |
| CollectionRace.AtMostOneCreate | apps/api/app/adapters/qdrant.py:213-243 | At most one create takes effect in any run, and none once the collection exists |
| CollectionRace.SettledWorkers | apps/api/app/adapters/qdrant.py:191-243 | When all workers of a fault-free run have settled, exactly those of the server's size have passed; workers of one common size all pass |
| CollectionRace.CreatedByWorker | apps/api/app/adapters/qdrant.py:213-243 | A collection that appears during a run has the size of one of the workers |
| CollectionRace.RequestsProgress | apps/api/app/adapters/qdrant.py:191-243 | Every request of an unsettled worker brings the system closer to settling |
| SearchMerge.SearchCollections | apps/api/app/adapters/qdrant.py:93-126 | The nested loops return the specification's merge, sorted descending, at most max(top_k, 0) candidates with ranks exactly 1 to n; `SearchLaws.MergedShowsBestPoints` says which points those are |
| SearchMerge.Unique | apps/api/app/adapters/qdrant.py:710-718 | Distinct names in order of first occurrence |
| SearchMerge.Search | apps/api/app/adapters/qdrant.py:57-91 | No collection, no embedding or a failing request degrade the whole result with their reason; otherwise it is the merge of the points of the distinct collections, asked once each |
| SearchMerge.SortIsStable | apps/api/app/adapters/qdrant.py:120-126 | Equal scores keep their search order through the sort |
| SearchMerge.StableSortUnique | apps/api/app/adapters/qdrant.py:120-126 | Any stable sort by descending score is this one |
| SearchLaws.DecodesIffComplete | apps/api/app/adapters/qdrant.py:468-514 | A point becomes a candidate iff its payload holds the six attributes and a document under either name, all non-empty strings; the candidate has exactly these strings, the payload and the score, 0 when absent |
| SearchLaws.MergedShowsBestPoints | apps/api/app/adapters/qdrant.py:93-126 | For any points found: the answer shows the first top_k complete points, higher scores first and equal scores in search order, each point once, ranked by place |
| SearchLaws.BestPointsUnique | apps/api/app/adapters/qdrant.py:120-126 | That order leaves no choice: only one list of places satisfies it |
| SearchLaws.MergeIsGlobalTopK | apps/api/app/adapters/qdrant.py:93-126 | If every collection answers with its own top k of complete points, the i-th score of the answer reaches t iff more than i of all points stored in the collections do |
| SearchMerge.TiesKeepSearchOrder | apps/api/app/adapters/qdrant.py:93-126 | But for the new ranks, the merged results of each score are the first candidates found with it |
| ConfigHeap.DeepMergeRecords | apps/admin/src/features/config/configSectionMerge.ts:108-122 | On mutable records, cloning the base and storing the patch's own objects computes the recursive merge; every record of the result is new and in one place only, or the patch's own of the same place |
| ConfigMerge.MergeAtSharedPath | apps/admin/src/features/config/configSectionMerge.ts:108-122 | Along shared records: base values survive where the patch has none, the patch wins whole where either side is no record, records merge again |
| ConfigMerge.PatchLeafWins | apps/admin/src/features/config/configSectionMerge.ts:108-122 | Every leaf of the patch is a leaf of the merge, whatever the base holds |
| ConfigMerge.MergeIdempotent | apps/admin/src/features/config/configSectionMerge.ts:108-122 | Merging the same patch again changes nothing |
| ConfigMerge.MergeIsPatchIff | apps/admin/src/features/config/configSectionMerge.ts:108-122 | The merge is the patch itself exactly when the patch overwrites everything in the base |
| ConfigMerge.MergeAssociativeIff | apps/admin/src/features/config/configSectionMerge.ts:108-122 | Merging patches first equals applying them in turn iff, where the middle patch puts a non-record between two records, the last absorbs the first |
| ConfigMerge.NeverFlatteningAssociates | apps/admin/src/features/config/configSectionMerge.ts:108-122 | In particular the merge is associative when the middle patch never puts a non-record where the outer two have records |
| SectionLaws.ModelTakes | apps/admin/src/features/config/configSectionMerge.ts:82-97 | On any form the five model fields are the form's, even where it has none, and every other field is merged |
| SectionLaws.CacheTakes | apps/admin/src/features/config/configSectionMerge.ts:99-106 | On any form the time to live is 300 or 0 by the form's switch, and every other field is merged |
| SectionLaws.GatewayTakesUrl | apps/admin/src/features/config/configSectionMerge.ts:30-43 | Every provider the form holds ends with the form's address, also where the form gives none |
| SectionLaws.GatewayTakesModels | apps/admin/src/features/config/configSectionMerge.ts:44-61 | Every route the form holds ends with the form's default and fallback models, also where the form names none |
| ConfigHeap.WriteBelow | apps/admin/src/features/config/configSectionMerge.ts:34-61 | A write two levels down changes exactly that place of the merged value when the record is new, and nothing at all when it is the form's own |
| ConfigHeap.MergeGatewayInPlace | apps/admin/src/features/config/configSectionMerge.ts:25-63 | The in-place provider and route updates compute the gateway merge of the specification and leave every record of the form as it was |
| ConfigHeap.MergeSectionInPlace | apps/admin/src/features/config/configSectionMerge.ts:7-106 | Every section merge computes its specification on records, and every record reachable from the stored section and from the form keeps its fields, although the form's are shared with the result |
| ConfigHeap.GatewayByTurns | apps/admin/src/features/config/configSectionMerge.ts:25-63 | Updating the section provider by provider and route by route is the gateway merge |
| ConfigHeap.MergeModelInPlace | apps/admin/src/features/config/configSectionMerge.ts:82-97 | The model keys are taken from the form one after another, into a new record |
| ConfigHeap.MergeCacheInPlace | apps/admin/src/features/config/configSectionMerge.ts:99-106 | The answer time-to-live is written into a new record only |
| ConfigSecrets.GatewayIsMerge | apps/admin/src/features/config/configSectionMerge.ts:25-80 | On any printed form the gateway's special cases amount to one plain merge of the form with the stored secret references put back |
| ConfigSecrets.GatewayKeepsSecrets | apps/admin/src/features/config/configSectionMerge.ts:65-80 | At each secret place the merge with a printed form holds the stored text if that has a character other than white space, and the printed null otherwise |
| ConfigSecrets.TypedSecretWins | apps/admin/src/features/config/configSectionMerge.ts:65-80 | On any form a non-empty secret replaces the stored one; only null, an empty text or no value at all lets a stored reference stay |
| JsonValue.TrimsToNothing | apps/admin/src/features/config/configSectionMerge.ts:75 | Trimming leaves something iff the text has a character other than white space |
| JsonValue.TrimIsMiddle | apps/admin/src/features/config/configSectionMerge.ts:75 | Trimming leaves the text between the outermost characters that are not white space |
| JsonValue.OrdinarySpace | apps/admin/src/features/config/configSectionMerge.ts:75 | On ASCII text the white space that trimming knows is the blank and tab to carriage return, no other character |
| ConfigSecrets.GatewayIdempotent | apps/admin/src/features/config/configSectionMerge.ts:25-80 | Merging the same printed gateway twice is merging it once |
| ConfigForm.PrintAt | apps/admin/src/features/setup/setupPayloadBuilder.ts:39-325 | A printed section holds, at every path of its template, the printed leaf of that path |
| ConfigForm.FormModel.HydrateConfigForm | apps/admin/src/features/config/configFormHydration.ts:14-206 | Assigning field after field computes the hydration of the whole table of readers |
| ConfigForm.ReadsPrinted | apps/admin/src/features/config/configValueCoercion.ts:7-64 | A coercing reader over a printed leaf returns the form's value, for any template, any path and any value the input can produce |
| ConfigForm.HydrateDelivers | apps/admin/src/features/config/configFormHydration.ts:14-206 | If every reader finds the wanted value, hydration delivers it in every field, for any table of readers, also where two readers share a field |
| ConfigForm.PrintDepends | apps/admin/src/features/setup/setupPayloadBuilder.ts:39-332 | Forms that agree on a section's fields, up to white space around the key reference, print the same section |
| ConfigTable.SectionReadersMatch | apps/admin/src/features/config/configFormHydration.ts:14-206 | Every reader of every section looks exactly where the printer puts its field |
| ConfigTable.SectionCovered | apps/admin/src/features/setup/setupPayloadBuilder.ts:39-325 | Every field a section prints is one of its editable fields |
| ConfigTable.SectionNamed | apps/admin/src/features/config/configFormHydration.ts:14-206 | Every editable field of a section other than the gateway has a reader there |
| ConfigTable.SectionKeysDistinct | apps/admin/src/features/config/configFields.ts:1-230 | No two sections share a key |
| ConfigBundle.BuildLoop | apps/admin/src/features/config/useConfigManagement.ts:229-250 | The section loop and the three final assignments compute the bundle of the specification |
| ConfigBundle.BuiltSection | apps/admin/src/features/config/useConfigManagement.ts:229-250 | Each section of the bundle is the merge of its stored value with its printed form, whatever the other sections do |
| ConfigBundle.OtherSectionsKept | apps/admin/src/features/config/useConfigManagement.ts:229-250 | Sections outside the table are kept as they are stored |
| ConfigBundle.SectionIsMerge | apps/admin/src/features/config/configSectionMerge.ts:7-106 | On a printed form every section's merge, special cases included, is a plain merge of what is printed with secrets put back |
| ConfigLaws.HydratingReturnsForm | apps/admin/src/features/config/useConfigManagement.ts:221-250 | Whatever is stored, however malformed, hydrating the built bundle gives back every editable field, the key reference trimmed |
| ConfigLaws.RoundTripIffTrimmed | apps/admin/src/features/config/useConfigManagement.ts:221-250 | The form itself comes back on every editable field iff its key reference is trimmed |
| ConfigLaws.RebuildIsIdentical | apps/admin/src/features/config/useConfigManagement.ts:221-250 | Building again from the form read back, with the same version, gives the identical bundle |
| ConfigLaws.BuildsDiffer | apps/admin/src/features/config/useConfigManagement.ts:229-250 | Forms that differ in an editable field, up to trimming the key reference, build different bundles over any base |
| ConfigLaws.BuildKeepsSecret | apps/admin/src/features/config/configSectionMerge.ts:25-80 | A save keeps a stored reference, a text with a character other than white space, as it is, and leaves null at every secret place without one |
| ConfigLaws.SavesKeepSecrets | apps/admin/src/features/config/useConfigManagement.ts:229-250 | Any sequence of saves, whatever the forms, keeps a stored reference as it is; a place without one holds null from the first save on |
| ConfigLaws.SavesKeepOtherSections | apps/admin/src/features/config/useConfigManagement.ts:229-250 | No sequence of saves touches a section outside the table |
| ConfigSaved.FormInRangeIff | apps/admin/src/features/config/configValueCoercion.ts:7-64 | A form is in range iff every editable field holds a text, number, boolean or one of the listed words, as its coercion takes over |
| ConfigSaved.HydratedField | apps/admin/src/features/config/configFormHydration.ts:14-206 | From any bundle, a field read from one place takes the value there if it is one its coercion takes over, and keeps its own otherwise |
| ConfigSaved.SavedHeader | apps/admin/src/features/config/useConfigManagement.ts:229-250 | The built bundle has the edited version's number, the stored schema version if a number or 1, and the stored scope if a record or the global one |
| ConfigSaved.SavedCache | apps/admin/src/features/config/configSectionMerge.ts:99-106 | The saved time to live of final answers is 300 when the form enables them and 0 otherwise, whatever was stored |
| ConfigSaved.SavedKeyReference | apps/admin/src/features/setup/setupPayloadBuilder.ts:84 | The key reference is saved trimmed, and as null iff it is all white space |
| SetupGate.SetupFlow.RunValidation | apps/admin/src/features/setup/useSetupActions.ts:60-72 | A click sends the payload on screen when validation is allowed, and does nothing otherwise |
| SetupGate.SetupFlow.OnValidated | apps/admin/src/features/setup/useSetupActions.ts:72-78 | The reply records as validated the payload on screen at that moment |
| SetupGate.SetupFlow.RunInitialization | apps/admin/src/features/setup/useSetupActions.ts:93-106 | A submission goes out exactly when the gate is open |
| SetupGate.OpenGateIsAccepted | apps/admin/src/features/setup/useSetupDerivedState.ts:56-110 | In every run where the form rests while a validation is out, an open gate means the backend accepted the payload now built, and only accepted payloads were ever submitted |
| SetupGate.ReplyAcceptsIffUnchanged | apps/admin/src/features/setup/useSetupActions.ts:60-91 | After a positive reply the current payload counts as fresh, and it was accepted iff it is the one sent or one accepted before |
| SetupGate.FreshStaysAccepted | apps/admin/src/features/setup/useSetupDerivedState.ts:56-58 | No step other than a positive reply can make an unaccepted payload count as fresh |
| SetupGate.EditInFlightOpensGate | apps/admin/src/features/setup/useSetupActions.ts:60-129 | A run with an edit during the request submits a payload the backend has not accepted |
| SetupGate.SubmitsIff | apps/admin/src/features/setup/useSetupDerivedState.ts:60-110 | A submission sends the payload on screen iff nothing is out, it is confirmed, locally right, validated as it stands, and the system is not initialized without recovery; otherwise nothing changes |
| SetupGate.UnconfirmedNeverSubmits | apps/admin/src/features/setup/useSetupDerivedState.ts:101-110 | No run without a tick of the confirmation submits anything |
| SetupGate.UnvalidatedNeverSubmits | apps/admin/src/features/setup/useSetupDerivedState.ts:56-110 | No run without a positive reply, from a page where none is recorded, submits anything |
| SetupGate.LocalErrorsHoldBack | apps/admin/src/features/setup/useSetupDerivedState.ts:98-110 | While a form with local errors is left alone neither a validation nor a submission goes out |
| SetupGate.ReportCloses | apps/admin/src/features/setup/useSetupDerivedState.ts:60-110 | Once any request reports an initialized system without recovery, nothing is validated or submitted until another report |
| SetupGate.OneSubmissionAtATime | apps/admin/src/features/setup/useSetupActions.ts:93-129 | While a submission is out no other follows |
| SetupGate.ClosingSteps | apps/admin/src/features/setup/useSetupActions.ts:60-146 | A negative or failed reply, a failed refresh after it and a reset take the validation back; a reset and a successful submission take the tick back |
| ConfigGate.ConfigEditor.BuildEditedActiveConfigBundle | apps/admin/src/features/config/useConfigManagement.ts:229-258 | The bundle is built over the details of the selected version, else of the active one, else over nothing |
| ConfigGate.ConfigEditor.SyncConfigFormFromVersion | apps/admin/src/features/config/useConfigManagement.ts:221-227 | The form becomes the defaults hydrated from the version's bundle, or the active one's, or none, as `ConfigOpened.OpeningShowsStored` says field by field, and is signed |
| ConfigGate.ConfigEditor.OnEditOpened | apps/admin/src/features/config/useConfigVersionActions.ts:138-154 | The opened version is selected, its bundle is shown, the validation is reset; `ConfigOpened.OpeningShowsSaved` says what the fields hold |
| ConfigGate.ConfigEditor.ValidateSelectedConfig | apps/admin/src/features/config/useConfigVersionActions.ts:172-188 | The bundle sent is the one built at the click |
| ConfigGate.ConfigEditor.OnValidated | apps/admin/src/features/config/useConfigVersionActions.ts:188-207 | The reply records as validated the signature of what is on screen at that moment |
| ConfigGate.ConfigEditor.SaveSelectedDraft | apps/admin/src/features/config/useConfigVersionActions.ts:210-243 | The handler sends the bundle now built unless it edits without a selected version; it does not ask the gate |
| ConfigGate.ConfigEditor.OnSaveButton | apps/admin/src/features/config/ConfigEditorModal.vue:178 | The button runs the handler exactly when the gate is open |
| ConfigGate.CurrentGateIsAccepted | apps/admin/src/features/config/useConfigManagement.ts:92-113 | In every run where no step changes the bundle while a validation is out, an open gate whose text is current means the backend accepted exactly the bundle now built |
| ConfigGate.StepOpensStaleIff | apps/admin/src/features/config/useConfigVersionActions.ts:61-340 | A step leaves the gate open with a text that is not current exactly under the listed conditions, each of which can be looked up before the step |
| ConfigGate.AlwaysCurrentIff | apps/admin/src/features/config/useConfigVersionActions.ts:61-340 | A run keeps every open gate current iff none of its steps meets its condition |
| ConfigGate.SaveRoundNeverOpensStale | apps/admin/src/features/config/useConfigVersionActions.ts:244-262 | The reply to a save, the refresh after it, closing and opening "create" anew never leave the gate open with a stale text, whatever version, bundle and active version arrive |
| ConfigGate.OpenGateIsAccepted | apps/admin/src/features/config/useConfigManagement.ts:92-113 | In such runs, past saves, refreshes and reopened modals, an open gate means the backend accepted exactly the bundle now built, and only accepted bundles were ever sent to be saved |
| ConfigGate.StaleGateIsUnbacked | apps/admin/src/features/config/useConfigManagement.ts:92-96 | An open gate's text is current iff the bundle now built is the one the gate was opened for |
| ConfigGate.ReplyAcceptsIffUnchanged | apps/admin/src/features/config/useConfigVersionActions.ts:172-208 | After a positive reply in any state the recorded texts agree, and the bundle now built is accepted iff it is the one sent or one accepted before |
| ConfigGate.FailedRefreshIff | apps/admin/src/features/config/useConfigVersionActions.ts:61-101 | A refresh that reads the list and then fails leaves an open gate open, over the bundle it was opened for iff a version is selected or the active version is the same |
| ConfigGate.EditInFlightIff | apps/admin/src/features/config/useConfigVersionActions.ts:172-208 | An edit while the validation is out ends with the gate open over the edited form, whose bundle is accepted iff the edit did not change it |
| ConfigGate.EditInFlightOpensGate | apps/admin/src/features/config/useConfigVersionActions.ts:172-208 | Any edit in range that changes an editable field, up to white space around the key reference, ends with the gate open over an unaccepted bundle |
| ConfigOpened.OpeningShowsStored | apps/admin/src/features/config/useConfigManagement.ts:221-227 | Opening a version, creating or refreshing shows in each field read from one place the value in the opened version's bundle, else the active one's, else the default |
| ConfigOpened.OpeningShowsSaved | apps/admin/src/features/config/useConfigManagement.ts:221-227 | If that bundle was built from a form over anything stored, every editable field shows that form's value, the key reference trimmed |
| ConfigOpened.SaveThenEdit | apps/admin/src/features/config/useConfigVersionActions.ts:244-262 | Saving as a version, refreshing and opening it again shows the form as it was saved, whichever version is active by then |
| ConfigOpened.SaveClickedIff | apps/admin/src/features/config/useConfigManagement.ts:92-113 | A click saves one bundle exactly when mode, permission, all five busy flags, local checks, result, texts and selection allow it, condition by condition |
| ConfigOpened.SavedBundleKeeps | apps/admin/src/features/config/useConfigManagement.ts:229-258 | The bundle a click saves carries the edited version's number and keeps that version's other sections and secret references, not another version's |
| ConfigOpened.SavedBundleShows | apps/admin/src/features/config/useConfigManagement.ts:229-258 | Reading the bundle a click saves back shows every editable field as on the screen, the key reference trimmed |
| ConfigOpened.UnvalidatedNeverSaves | apps/admin/src/features/config/useConfigManagement.ts:92-113 | In any run without a positive reply, from a page without one, nothing is saved |
| ConfigOpened.ReadersNeverSave | apps/admin/src/features/config/useConfigManagement.ts:97-113 | In any run without the right to manage nothing is saved |
| ConfigOpened.ClosedNeverSaves | apps/admin/src/features/config/useConfigManagement.ts:97-113 | In any run that does not open the editor nothing is saved |
| ConfigOpened.BusyNeverSaves | apps/admin/src/features/config/useConfigManagement.ts:97-113 | Between the start of a validation, refresh, save, publication or archiving and its end nothing is saved |
| ConfigOpened.ClosingSteps | apps/admin/src/features/config/useConfigManagement.ts:204-215 | An edit, an opened editor, a negative or failed reply, a publication and clearing each take a positive reply back |
| ConfigOpened.ClearingForgets | apps/admin/src/features/config/useConfigManagement.ts:191-202 | After clearing the editor is closed, no version is selected, and every opening shows the defaults |
| RoleBinding.KeysClashIff | apps/admin/src/features/users/userDisplay.ts:26-36 | Two different role ids can share a key iff one is the other, a colon and a department or knowledge base scope type, followed by nothing more or a colon |
| RoleBinding.ClashExtends | apps/admin/src/features/users/userDisplay.ts:30-36 | Any shared key of two roles goes through a scope id that holds a colon |
| RoleBinding.SameRoleKeys | apps/admin/src/features/users/userDisplay.ts:30-36 | For one role the key tells scope type and scope apart, whatever the ids |
| RoleBinding.KeysInjective | apps/admin/src/features/users/userDisplay.ts:26-36 | Equal keys mean equal role, scope type and scope as soon as either the role ids or the scope ids hold no colon |
| RoleBinding.KeyText | apps/admin/src/features/users/userDisplay.ts:30-36 | The text of a key for each of the three scope types |
| RoleBinding.RoleBindingSelection.PreferredDepartmentIds | apps/admin/src/features/users/useUserRoleBindingSelection.ts:231-243 | The primary department first, then the others, each id once |
| RoleBinding.PrimaryFirst | apps/admin/src/features/users/useUserRoleBindingSelection.ts:231-243 | The preferred ids are the user's departments, each once, the first primary one in front and the others in their order |
| RoleBinding.CandidatesIff | apps/admin/src/features/users/useUserRoleBindingSelection.ts:40-61 | The candidates are exactly the active roles with each scope of their type, or with none for the enterprise |
| RoleBinding.RoleBindingSelection.PreferredDepartmentScope | apps/admin/src/features/users/useUserRoleBindingSelection.ts:207-229 | The first preferred department that is active and free, for department roles only |
| RoleBinding.RoleBindingSelection.SyncRoleBindingScopeDefault | apps/admin/src/features/users/useUserRoleBindingSelection.ts:140-175 | The form after a sync is that of the specification, branch by branch |
| RoleBinding.RoleBindingSelection.SelectNextAvailableRoleBindingTarget | apps/admin/src/features/users/useUserRoleBindingSelection.ts:177-205 | The form after a selection is that of the specification, branch by branch |
| RoleBinding.SyncChooses | apps/admin/src/features/users/useUserRoleBindingSelection.ts:140-175 | A sync leaves no scope without a scoped role, a free choice as it is, and otherwise the first free preferred department, else the first free scope, else the first scope |
| RoleBinding.SelectNextChooses | apps/admin/src/features/users/useUserRoleBindingSelection.ts:177-205 | Selecting drops the high-risk confirmation, stays with the current role while that has something to grant, else goes to the first free candidate, and gives a department role its first free preferred department |
| RoleBinding.SelectNextFindsFree | apps/admin/src/features/users/useUserRoleBindingSelection.ts:177-205 | Whenever any candidate is free, selecting ends on an existing role and a ready scope whose key is not displayed |
| RoleBinding.EmptyOnlyWhenExhausted | apps/admin/src/features/users/useUserRoleBindingSelection.ts:87-94 | The form is emptied only when every candidate is bound |
| RoleBinding.SyncIdempotent | apps/admin/src/features/users/useUserRoleBindingSelection.ts:140-175 | Syncing twice is syncing once |
| RoleBinding.SyncFindsFree | apps/admin/src/features/users/useUserRoleBindingSelection.ts:140-175 | Syncing picks a free scope of the selected role whenever one exists |
| RoleBinding.GrantAll | apps/admin/src/features/users/useUserRoleBindingSelection.ts:41-94 | Alternating select and add terminates with every candidate bound, also when the role selected at the start is inactive |
| Selection.IdSelection.ToggleId | apps/admin/src/features/knowledge/useDocumentSelection.ts:112-123 | A toggle adds or removes one id as a Set does and drops the confirmation with the last id |
| Selection.IdSelection.ToggleEvery | apps/admin/src/features/knowledge/useDocumentSelection.ts:129-136 | Select-all takes the eligible ids; clearing it drops the confirmation |
| Selection.IdSelection.PruneSelected | apps/admin/src/features/knowledge/useDocumentSelection.ts:98-110 | Pruning keeps the selected ids that are still eligible, in order |
| Selection.StepSelects | apps/admin/src/features/knowledge/useDocumentSelection.ts:88-136 | Membership of every id after every operation: only the toggled id changes, select-all takes the eligible ids, pruning keeps them |
| Selection.ToggleUndone | apps/admin/src/features/knowledge/useDocumentSelection.ts:112-123 | Ticking a new id puts it last, and unticking it gives back the selection as it was |
| Selection.RunSound | apps/admin/src/features/knowledge/useDocumentSelection.ts:88-183 | No sequence of toggles, select-alls, prunes, clears and reloads over lists with distinct eligible ids ever selects an id twice |
| Selection.ReachableFlags | apps/admin/src/features/knowledge/useDocumentSelection.ts:42-74 | In every state reachable over such lists the offered ids are exactly the selected eligible ones, none twice, and the length comparison is true iff something is eligible and all of it is selected |
| Selection.FlagsRightIff | apps/admin/src/features/knowledge/useDocumentSelection.ts:52-56 | The flag is right in every state reachable over a set of lists iff each list has distinct eligible ids |
| Selection.RepeatedIdsMislead | apps/admin/src/features/knowledge/useDocumentSelection.ts:52-56 | Over any list that repeats an eligible id, select-all and one more tick leave the flag wrong |
| Selection.EmptyingUnconfirms | apps/admin/src/features/knowledge/useDocumentSelection.ts:88-136 | An operation that empties a selection leaves the confirmation ticked iff it is a select-all over a list with nothing eligible |
| Paging.PagesPartition | apps/admin/src/utils/pagination.ts:20-33 | Every item is on exactly one page of 1..totalPages iff the page size is at least one, and on at most one in any case |
| Paging.RangesChain | apps/admin/src/utils/pagination.ts:20-33 | The displayed ranges follow one another without gap from the first item to the last, none empty |
| Paging.PagesShowTheList | apps/admin/src/utils/pagination.ts:20-33 | Concatenating the honest slices of pages 1..totalPages gives the list |
| Paging.SliceFillsRange | apps/admin/src/utils/pagination.ts:24-33 | The honest slice of a page holds as many items as its displayed range announces |
| Paging.FailedIndexJobs.ChangePage | apps/admin/src/utils/pagination.ts:35-46 | The page is clamped to 1..totalPages and a refresh is asked for exactly when it moved |
| Paging.FailedIndexJobs.RefreshFailedIndexJobs | apps/admin/src/features/knowledge/useKnowledgeImportJobs.ts:105-115 | Permission is looked at before the token; without a token the view stays as it is and no call is made |
| Paging.FailedIndexJobs.Refresh | apps/admin/src/features/knowledge/useKnowledgeImportJobs.ts:117-156 | With a token, the recursive refresh terminates and leaves the view of the specification, on every reply |
| Paging.BackIsEarlier | apps/admin/src/features/knowledge/useKnowledgeImportJobs.ts:128-135 | The honest slice beyond page one is empty exactly when the page stepped back to is strictly earlier |
| Paging.RefreshCalls | apps/admin/src/features/knowledge/useKnowledgeImportJobs.ts:105-135 | Against a list that changes between calls, the refresh takes at most as many calls as the page it starts from |
| Paging.RefreshLeaves | apps/admin/src/features/knowledge/useKnowledgeImportJobs.ts:105-156 | A view read from a list never shows an empty later page of a list that has items and keeps selected exactly what it still shows; a refused or failed refresh empties the selection and keeps the confirmation; without a token nothing changes |
| Paging.RefreshShows | apps/admin/src/features/knowledge/useKnowledgeImportJobs.ts:117-156 | A refresh that read a list shows the last answer's slice for its page, its page size and its total; any other leaves an empty page one |
| Paging.StillServer | apps/admin/src/features/knowledge/useKnowledgeFolders.ts:130-145 | Against a list that holds still, at most two calls end on the page asked for or the last one, showing its slice |
| PermissionRules.QueryDepartmentIds | apps/admin/src/features/knowledge/knowledgePermissionRules.ts:6-17 | The loop over the rules collects the departments that may query or manage, each once |
| PermissionRules.BuildDepartmentRules | apps/admin/src/features/knowledge/knowledgePermissionRules.ts:29-41 | The loop pushes the three rules of every distinct non-empty id |
| PermissionRules.BuildsGrants | apps/admin/src/features/knowledge/knowledgePermissionRules.ts:29-41 | Built are exactly the discover, query and manage rules of the non-empty ids given |
| PermissionRules.BuildsOnce | apps/admin/src/features/knowledge/knowledgePermissionRules.ts:29-41 | No rule is built twice, however often an id is given |
| PermissionRules.ReadsGrants | apps/admin/src/features/knowledge/knowledgePermissionRules.ts:6-17 | Read back are exactly the departments with a query or manage rule |
| PermissionRules.CanQueryIff | apps/admin/src/features/knowledge/knowledgePermissionRules.ts:19-27 | A department can query iff the base is enterprise-wide or a rule of its own lets it query or manage |
| PermissionRules.UploadConflictsIff | apps/admin/src/features/knowledge/useKnowledgePermissions.ts:33-47 | An upload not for the whole enterprise conflicts iff there is a default owner, the base's own or its department, that cannot query |
| PermissionRules.RulesReadBack | apps/admin/src/features/knowledge/knowledgePermissionRules.ts:6-41 | Reading back the rules built for any ids gives the non-empty ones in first-occurrence order |
| PermissionRules.SaveSyncSettles | apps/admin/src/features/knowledge/useKnowledgeBaseCrudActions.ts:227-246 | Save, sync, save stores what the first save stored, and syncing again changes nothing |
| PermissionRules.SyncAfterSave | apps/admin/src/features/knowledge/useKnowledgePermissions.ts:172-188 | After a save the form shows the listed departments and the trimmed default owner, or none for an enterprise-wide base |
| PermissionRules.WhoCanQuery | apps/admin/src/features/knowledge/knowledgePermissionRules.ts:19-27 | After a save exactly the listed departments and the default owner can query, or everyone for an enterprise-wide base |
| PermissionRules.SavedOwnerUploads | apps/admin/src/features/knowledge/useKnowledgePermissions.ts:33-47 | The default owner that was saved never triggers the upload's parent conflict |
| PermissionRules.DocumentOwnerConflicts | apps/admin/src/features/knowledge/useKnowledgePermissions.ts:22-32 | A document owner conflicts after a save iff neither it nor the base is enterprise-wide and it is neither listed nor the default owner |
| WorkerLoop.Session.Commit | apps/api/app/db/session.py:44-57 | Only a commit that does not raise lets the database see the session's writes, all of them in order |
| WorkerLoop.Worker.CallInScope | apps/worker/app/main.py:56-62 | One call in one scope: the database gains all its writes iff it returned and the commit succeeded; a raise is passed on as it is, and a failed commit is never an import error |
| WorkerLoop.Worker.HeartbeatAndAdvance | apps/worker/app/main.py:69-81 | Heartbeat and advance share one scope: both calls' writes reach the database together iff both returned and the commit succeeded; an import error comes out iff one of the calls raised it |
| WorkerLoop.Worker.AdvanceJob | apps/worker/app/main.py:67-118 | The inner loop commits the transactions of the specification and reports whether the stop signal ended it |
| WorkerLoop.Worker.Run | apps/worker/app/main.py:54-132 | Over any script of replies the committed database is the replay of the logged transactions, which are those of the specification |
| WorkerLoop.RunIsWords | apps/worker/app/main.py:54-131 | Every run's committed transactions are words: a claim, advances of the job held while it is running, at most one failure, nothing after it until the next claim |
| WorkerLoop.RunIsWhole | apps/worker/app/main.py:56-93 | Every committed transaction is one whole scope whose calls all returned and whose commit succeeded; a failure mark belongs to a turn whose heartbeat or advance raised an import error |
| WorkerLaws.TurnsLogIs | apps/worker/app/main.py:67-109 | The inner loop on its calls: one transaction for each turn whose two calls returned and committed, in order, then a failure mark iff the job is running, the next turn raised an import error, and the mark returned and committed |
| WorkerLaws.FailedCommitMarksNothing | apps/api/app/db/session.py:44-57 | A commit that fails after two calls that returned commits nothing and marks nothing |
| WorkerLaws.RoundLogIs | apps/worker/app/main.py:54-67 | A claim counts iff it returned and committed, and only the job it handed out is worked on |
| WorkerLaws.RunLogIs | apps/worker/app/main.py:54-131 | A run is its rounds one after another, up to the first one the signal stopped |
| WorkerLoop.RaiseLeavesNoTrace | apps/worker/app/main.py:68-106 | A turn that does not advance commits neither call's writes: from the log only whether it raised an import error can be told |

## Left out

- HTTP transport, headers, access tokens, timeouts and UTF-8 decoding: the models take decoded text and server replies.
- JSON text: parsing is a parameter and printing is taken to be injective; records are maps, so the order of keys in printed JSON is not modelled, and `undefined` is the absent key.
- Numbers are reals: NaN and infinities do not occur; embeddings are opaque sequences and scores a total order.
- Handlers of the streaming client are all present and return; an absent handler only shortens the call log.
- Exceptions of the embedding provider other than its own error type, named-vector collections and payload coercions beyond the attributes a candidate needs.
- `SearchLaws.MergeIsGlobalTopK`: assumes complete payloads of the points found, as a point that cannot be shown would leave its collection's top k short; what is shown then is `SearchLaws.MergedShowsBestPoints`.
- `ConfigGate.ConfigEditor.OnSaveButton`: saving goes through the button that the gate enables; the steps that only set a busy flag have no method of their own.
- `ConfigHeap.MergeSectionInPlace`: arrays count as leaves, since no merge writes into one; the bundle around the sections is a clone and is built on values.
- `WorkerLoop.Worker.Run`: a commit that raises is taken to have no effect, rollback and close do not raise, signals are seen at loop guards, and runs are finite prefixes; other processes' transactions between two scopes are not interleaved.
- `Paging.FailedIndexJobs.Refresh`: the server echoes the page asked for and answers with page sizes of at least one; the busy flag between two awaits is not modelled.
- `RoleBinding.GrantAll`: every grant succeeds and is displayed; the high-risk confirmation is not modelled.
- Payload updates, activation, deletion and snapshot operations of the vector adapter: single requests without the properties above.
- Local form validation, labels, feedback messages and Vue reactivity: no property that spans operations.
- The import, permission and query services behind the interfaces are not part of this model.
