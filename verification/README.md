# Verified model of the document extraction service

The service turns PDF documents into typed records with the help of a language model. This project models the parts
of it in which its own code decides something, and proves what they keep.

* **Schema simplification** (`JsonTrees`, `Simplifier`, `NormalForm`, `Acyclicity`, `SchemaMeaning`, `ToolSchemas`,
  `DocumentTypes`, `ChosenTypes`). References into `$defs` are inlined, `anyOf` lists collapse to one type, `pattern`
  and `format` are dropped. The transformation has a termination measure exactly on acyclic definitions, its output is
  a normal form that stands without any definitions, and against a validity semantics for JSON Schema 2020-12 it keeps
  the meaning on one fragment, only widens it on a second and only narrows it on a third. Where `pattern` and `format`
  are annotations, it only narrows the schemas of the four document types. Which type replaces an `anyOf` is stated on
  the branches; every decimal field of the document types becomes a number.
* **Page merge** (`PageMerge`, `PageMergeHeap`). A fold of page outputs field by field, with provenance. Its laws
  (absorption, when exactly cutting the pages and combining the parts is associative, agreement with one-pass
  specifications) are proved about a function on values; the code that extends the first page's own list object in
  place is proved equal to that function, and to change no list object but the first contributor's.
* **Token accounting** (`LlmTokens`, `TokenAccounting`, `Pipeline`). Retries inside pages; no reported token gets
  lost on success or on failure, and what a run records, on a stored document or for an upload, makes the ledger
  grow by exactly the tokens of its calls. Page by page, the outcome is told from the calls that start at the page's
  turn; strategy by strategy, which data and which source pages come out.
* **Document lifecycle** (`Ledger`, `Lifecycle`, `LifecycleSafety`, `LifecycleRuns`, `LifecycleRecords`,
  `LifecycleSchedules`, `DocumentService`). Uploads, batch items and worker jobs as runs that interleave on one
  database and file store, any operation of which may fail and any run of which may be cancelled. Invariants over all
  reachable states, what a run leaves behind, that what it records is exactly the outcome of its own processing, and
  schedules that show where less holds than one might expect. `DocumentService` has the statements of the upload,
  processing and audit methods over a session and a store, each proved to be an execution of that model, for any
  answers of the database.
* **Cost report** (`Dictionaries`, `CostReport`, `ReportMeaning`, `LedgerReport`). Groups by key and model are priced
  and folded by key; four breakdowns conserve one ledger, and every line is told row by row: which rows count for it,
  and what each of them costs. After any interleaving of runs, the report's extraction line is exactly
  the recorded extractions.
* **Partial validation, money checks and corrections** (`Validation`, `ValidationMeaning`, `ValidationTexts`, `Money`,
  `CorrectionDiff`). For each of the four document types: when exactly it is complete, the value of every field, and
  every warning in its words.
* **Batch scheduling** (`BatchScheduler`, `BatchRuns`, `BatchReports`). A semaphore-bounded set of tasks whose items
  are runs on the shared database and file store: never more of them are under way than the semaphore admits, and
  whatever else happens there, a batch reports what its items report one after the other: for each file how its own
  run ended.

`Options` holds the option type. `dfyconfig.toml` has a pattern that matches all files.

## Findings

The proofs turned up five places where the code does not do what one would expect of it. Each has a lemma that shows
it and one that says exactly when the expected property holds.

* **A committed document can lose its file.** If refreshing a new document fails after its commit, or the commit
  raises although it took effect, the upload is treated as not created and its file is deleted
  (`LifecycleSchedules.CommittedWithoutFile`). A committed document lacks its file exactly when both have happened,
  the late failure and the deletion (`LifecycleRuns.FileIsLostExactlyWhen`); without late failures every committed
  document has its file (`LifecycleRuns.CommittedHaveFiles`).
* **The catch-all may not set FAILED.** After a recorded extraction error the catch-all assigns the status its
  session has already seen, the mapper writes nothing, and the document keeps the status that another run has set in
  between (`LifecycleSchedules.CatchAllIsNoOp`; exact condition in `LifecycleRuns.TerminalAtCommit`).
* **A database error leaves PROCESSING behind.** The session that failed cannot record the failure
  (`LifecycleSchedules.StaysProcessing`). A finished run on a stored document has set a terminal status exactly when
  no operation of the database failed before its second commit (`LifecycleRuns.EndsTerminalExactlyWhen`). An upload
  has no catch-all: when it is over, it has set a terminal status exactly when none of the events that stop it has
  happened, from a failing or cancelled operation at any place before its last commit has taken effect to a
  successful hand-over to the queue (`LifecycleRuns.UploadEndsTerminalExactlyWhen`).
* **A document can be FAILED with a completed extraction.** If building the response fails, the recorded extraction is
  still pending, and the commit of the catch-all writes it together with the status FAILED
  (`LifecycleSchedules.FailedWithCompletedExtraction`). A commit with an extraction shows FAILED exactly if the
  extraction failed or building the response did, and COMPLETED exactly if neither did
  (`LifecycleRecords.StatusTellsExtraction`); an upload, which has no catch-all, always shows what it records
  (`LifecycleRecords.UploadShowsExtraction`).
* **Merging pages of mixed kinds is not associative** (`PageMerge.MixedKindsAreNotAssociative`; exact condition in
  `PageMerge.AssociativeExactlyWhen`).

The second loop of the validation warnings (`required field missing`) never adds a warning
(`Validation.NothingUnreported`).

## Assumptions

* After an error of the database every further operation of the session fails until rollback; a commit that raises
  may or may not have taken effect. Flushed changes become visible to others only by the commit, the last commit
  wins.
* Ids are fresh. A run takes any id that no row and no other run has; its own document and its extraction, of which
  it creates at most one each, are named after the run.
* The mapper writes an assignment to a loaded column only if it differs from the session's copy. Documents are never
  deleted. A failing save stores no file.
* Deliveries of the queue, repeated or not, and requests that name a document are runs on a stored document that may
  begin at any time for any document.
* Decimals are exact. The six queries of a report see one snapshot; a group's sums are those of its rows, and null only
  if these add up to nothing. The id of an extraction is its primary key.
* The validation library reports at least one error for each field that does not validate, and runs the check of the
  whole model only if there is none. Its parsing of single values, the texts of the faults it finds in them, its words
  for a missing field and for an error that a validator raises, `upper` and `isalpha` are parameters; its parsing
  accepts the stand-in raw values and rejects null.
* The model library generates the schemas of the document types with one definition per nested record, a `format` for
  dates, and `anyOf` lists for decimals and optional fields; its titles, descriptions and patterns are parameters.
* Schema dictionaries have distinct keys, visited `$ref` values are strings and inlined definitions are
  dictionaries; otherwise the code raises.

## Model

| member | source | states |
|---|---|---|
| Simplifier.CollectTypes | app/integrations/llm/litellm_client.py:40-46 | the loop over the branches of an `anyOf` list collects their truthy types in order |
| Simplifier.ResolveAndSimplify | app/integrations/llm/litellm_client.py:25-72 | the recursion with its loops computes the specification function and terminates by rank, then size |
| ChosenTypes.PrimaryTypeIsChosen | app/integrations/llm/litellm_client.py:39-61 | on the branches: "number" if one offers it, else "integer", else "boolean", else the first truthy type that is not "null", "string" if there is none |
| ChosenTypes.SimplifiedTypeIsChosen | app/integrations/llm/litellm_client.py:37-72 | that type is the `type` of every simplified dictionary with an `anyOf` list, if its own `type` does not come after the list |
| ChosenTypes.OwnTypeStays | app/integrations/llm/litellm_client.py:37-72 | in all other cases a dictionary keeps its own `type` |
| ChosenTypes.ResolvedKeysWin | app/integrations/llm/litellm_client.py:27-35 | a resolved reference has every key of the simplified definition, with its value there, and next to them the other keys of the dictionary as they are |
| SchemaMeaning.BuiltKeeps | app/integrations/llm/litellm_client.py:37-68 | every other key keeps its place in the output, with its simplified value, and no key is added |
| ChosenTypes.DecimalsOfDocument | app/schemas/documents.py:47-179 | every decimal field of the four document types, optional or not, is simplified to a number |
| ChosenTypes.DecimalsOfParts | app/schemas/documents.py:25-44 | the same for the decimal fields of the records in their lists |
| ChosenTypes.InvoiceDecimals | app/schemas/documents.py:25-64 | by name: `subtotal`, `tax_amount`, `total_amount` of an invoice, and `quantity`, `unit_price`, `amount` of its line items, are numbers |
| ChosenTypes.ContractDecimals | app/schemas/documents.py:81-101 | `payment_amount` of a contract is a number |
| ChosenTypes.PayslipDecimals | app/schemas/documents.py:40-136 | `gross_pay` and `net_pay` of a payslip, and `amount` of its deductions, are numbers |
| ChosenTypes.ReceiptDecimals | app/schemas/documents.py:25-170 | the amounts of a receipt and of its items are numbers |
| NormalForm.DereferenceAndSimplify | app/integrations/llm/litellm_client.py:18-74 | popping `$defs` and simplifying the rest, on anything that is not a dictionary the identity |
| Acyclicity.TerminationMeasureExists | app/integrations/llm/litellm_client.py:27-35 | definitions are acyclic as a graph if and only if a rank exists that falls along references, the termination measure |
| Acyclicity.RankFallsAlongChain | app/integrations/llm/litellm_client.py:27-35 | along every chain of references the rank strictly falls |
| NormalForm.SimplifyIsNormal | app/integrations/llm/litellm_client.py:25-72 | at no depth of the output is there a reference to a known definition, an `anyOf` list, `pattern` or `format` |
| ChosenTypes.NormalMeans | app/integrations/llm/litellm_client.py:27-72 | with the key names themselves: no "pattern", no "format", no list under "anyOf", and no "$ref" to "#/$defs/" and the name of a definition |
| NormalForm.NormalIsUnchanged | app/integrations/llm/litellm_client.py:25-72 | every such normal tree is a fixed point |
| NormalForm.SimplifyIsIdempotent | app/integrations/llm/litellm_client.py:25-72 | simplifying twice is simplifying once |
| NormalForm.RankDoesNotMatter | app/integrations/llm/litellm_client.py:25-72 | the result is the same whichever rank witnesses termination |
| NormalForm.DefsSurviveExactlyWhenReached | app/integrations/llm/litellm_client.py:22-35 | the output has a `$defs` key exactly when following references from the root reaches a dictionary that has one |
| NormalForm.DereferenceIsIdempotent | app/integrations/llm/litellm_client.py:18-74 | the whole transformation is idempotent unless the root leads to such a dictionary |
| NormalForm.SecondRunChangesExactlyWhenDefsReached | app/integrations/llm/litellm_client.py:18-74 | a second run that the code accepts changes the output if and only if the root leads to such a dictionary |
| NormalForm.SecondRunMayChange | app/integrations/llm/litellm_client.py:22-35 | for every plain definition name, a document on which the second run removes a key |
| SchemaMeaning.OutputStandsAlone | app/integrations/llm/litellm_client.py:22-72 | wherever the simplified schema applies a subschema, that has no local reference: none dangles when the definitions are gone |
| SchemaMeaning.DefinitionsDoNotMatter | app/integrations/llm/litellm_client.py:22-72 | such a schema accepts the same instances with definitions in scope and without any |
| SchemaMeaning.MeaningIsRelated | app/integrations/llm/litellm_client.py:25-72 | what each fragment guarantees about acceptance, before with the definitions and after without them |
| SchemaMeaning.DocumentsAreRelated | app/integrations/llm/litellm_client.py:18-74 | the same from document to document, for the entry point |
| SchemaMeaning.SimplifyKeepsMeaning | app/integrations/llm/litellm_client.py:18-74 | without `anyOf`, `pattern`, `format`, the returned document accepts, on its own, exactly the instances of the given one |
| SchemaMeaning.SimplifyOnlyWidens | app/integrations/llm/litellm_client.py:18-74 | without `anyOf`, every instance accepted before is accepted by the returned document |
| SchemaMeaning.SimplifyOnlyNarrows | app/integrations/llm/litellm_client.py:18-74 | with a bare branch of the chosen type in every `anyOf` and no checks outside, every instance accepted after was accepted before |
| SchemaMeaning.SimplifyOnlyNarrowsLeniently | app/integrations/llm/litellm_client.py:18-74 | the same with `pattern` and `format` anywhere, if these never reject an instance |
| ToolSchemas.ToolSchemasOnlyNarrow | app/schemas/registry.py:18-34 | the same for every document of the shape that the document types have: records of scalars, choices of scalars, lists and references to records |
| DocumentTypes.DocumentTypesAreRecordSchemas | app/schemas/registry.py:18-34 | whatever the titles, descriptions and patterns, the schema of a document type has that shape and is accepted |
| DocumentTypes.DocumentTypesOnlyNarrow | app/schemas/documents.py:25-179 | so for invoices, contracts, payslips and receipts: what the simplified schema accepts, the original accepts |
| SchemaMeaning.AnyOfBecomesOneType | app/integrations/llm/litellm_client.py:39-61 | a lone `anyOf` becomes a schema that accepts exactly the instances of the chosen type |
| SchemaMeaning.OptionalNumberLosesNull | app/integrations/llm/litellm_client.py:48-61 | the narrowing is strict: an optional number no longer accepts null |
| SchemaMeaning.OptionalDateForgetsItsFormat | app/integrations/llm/litellm_client.py:48-68 | without a bare branch the meaning may widen: a string that the format rejects is accepted |
| SchemaMeaning.LocalRefIsKnown | app/integrations/llm/litellm_client.py:28-31 | for names without escapes the last path segment is the definition that the pointer denotes |
| PageMerge.RunKeepsKind | app/services/page_extraction.py:207-237 | once set, a value stays useful and keeps its kind, and candidates of other kinds leave no trace |
| PageMerge.FirstUsefulDecidesKind | app/services/page_extraction.py:212-219 | a field is set exactly when some candidate is useful, with the kind of the first one |
| PageMerge.CutAndCombine | app/services/page_extraction.py:207-237 | for every mix of kinds and every cut: the second part, restricted to the settled kind, merged on its own and combined gives the one-pass value |
| PageMerge.AssociativeExactlyWhen | app/services/page_extraction.py:207-237 | merging halves separately agrees with one pass if and only if the kinds agree, a half is empty, or no candidate of the second half improves the first |
| PageMerge.MergeIsAssociative | app/services/page_extraction.py:207-237 | candidates of one kind may be cut anywhere |
| PageMerge.MixedKindsAreNotAssociative | app/services/page_extraction.py:222-235 | a concrete cut of a string, a list and a longer string that differs |
| PageMerge.MergeAbsorbs | app/services/page_extraction.py:207-261 | appending any selection of merged candidates changes neither value nor pages |
| PageMerge.MergePagesAbsorbs | app/services/page_extraction.py:197-237 | the same for whole pages and all fields at once |
| PageMerge.TextMergeMeans | app/services/page_extraction.py:254-261 | a string field holds the earliest longest candidate, its pages are the strict left-to-right maxima and the last one supplied the value |
| PageMerge.RecordPagesAscend | app/services/page_extraction.py:231-235 | these pages strictly increase and are exactly the pages of the maxima |
| PageMerge.ListMergeMeans | app/services/page_extraction.py:216-229 | a list field holds the first useful list verbatim and then each later item with a new key, its key set is the union, its pages are the contributors |
| PageMerge.OtherMergeMeans | app/services/page_extraction.py:216-237 | a field whose first useful value is neither string nor list keeps that value and its page, whatever follows |
| PageMerge.MergeIgnoresOtherKinds | app/services/page_extraction.py:216-237 | candidates of mixed kinds merge like those of the first useful one's kind alone |
| PageMerge.MergedFieldsAre | app/services/page_extraction.py:204-219 | a field is in the merged record exactly if it is in the schema and some page has a useful value for it |
| PageMerge.StripMeans | app/services/page_extraction.py:254-261 | stripping takes white space off both ends and all of it: what is left begins and ends with other characters |
| PageMerge.UselessValuesAre | app/services/page_extraction.py:243-252 | the useless values are exactly null, texts of white space, empty lists and empty containers |
| PageMerge.PagesComeFromCandidates | app/services/page_extraction.py:216-235 | every source page is the page of a candidate |
| PageMergeHeap.UniqueListItems | app/services/page_extraction.py:263-278 | the loop with its growing `seen` set computes the additions |
| PageMerge.AppendListsOnce | app/services/page_extraction.py:280-283 | appending a page keeps the listed ones in place, lists that page, adds no other and never repeats one |
| PageMerge.PagesDoNotRepeat | app/services/page_extraction.py:207-237 | no field lists a page twice, whatever its candidates |
| PageMergeHeap.MergeOneField | app/services/page_extraction.py:208-235 | one round for a field on the heap, adopting, extending in place or replacing |
| PageMergeHeap.MergeResults | app/services/page_extraction.py:197-237 | the heap merge equals the value merge of the pages as they were; each list field holds the list object of its first contributor, and no other list object changes |
| TokenAccounting.Extract | app/services/tool_call_extractor.py:49-109 | the retry loop makes exactly the calls of the specification and returns or raises with their token sum |
| TokenAccounting.ExtractionSucceeds | app/services/tool_call_extractor.py:59-109 | it succeeds if and only if some call is a tool call, and raises before the budget is used up only for a client error |
| TokenAccounting.CallsMean | app/services/tool_call_extractor.py:81-95 | all calls but the last were retried, the last was not unless the budget is used up |
| TokenAccounting.CallsAreMade | app/services/tool_call_extractor.py:59-95 | an extraction makes at least one and at most `maxRetries + 1` calls, none if the limit is negative; it goes on exactly while it gets no tool call and no error |
| TokenAccounting.ProseUsesAllCalls | app/services/tool_call_extractor.py:59-95 | answers without a tool call use up exactly `maxRetries + 1` calls, and the extraction raises |
| TokenAccounting.OutcomeMeans | app/services/tool_call_extractor.py:59-109 | it gives the arguments of its last call, if that called the tool, or an error with the number of calls |
| TokenAccounting.OutcomeSpends | app/services/tool_call_extractor.py:59-109 | in both cases with the input and output tokens of all its calls |
| TokenAccounting.ExtractPageByPage | app/services/page_extraction.py:97-166 | both loops: it raises exactly if a page failed and none gave anything useful, with the number of failed pages; otherwise the record merges, in page order, exactly the useful pages and warns of exactly the failed ones |
| TokenAccounting.PageMeans | app/services/page_extraction.py:106-136 | a page is listed as useful, with exactly the arguments of its tool call, if and only if it is not blank, the extraction that starts at its turn succeeds and some value is useful; it is warned of if and only if it is not blank and that extraction raises |
| TokenAccounting.RaisesWhenAllFail | app/services/page_extraction.py:138-144 | the condition of the error: some page fails, and none gives anything useful |
| TokenAccounting.PagesConserveTokens | app/services/page_extraction.py:106-136 | the totals are the tokens of all calls made, at most the budget times the non-blank pages in number |
| TokenAccounting.PagesAreOrdered | app/services/page_extraction.py:119-136 | warnings and useful pages are in page order and disjoint |
| TokenAccounting.SourcePagesExist | app/services/page_extraction.py:150-156 | every source page is a useful page of the document |
| Pipeline.SelectPages | app/services/page_extraction.py:182-195 | the first, the last and the pages that mention money, in page order |
| Pipeline.MoneyMeans | app/services/page_extraction.py:14-24 | a page mentions money if and only if one of the nine keywords, written out, stands somewhere in its lower-cased text |
| Pipeline.ExtractFromPages | app/services/page_extraction.py:41-166 | the first strategy has all pages as its sources, the second exactly the selected ones, the third those of the merged fields, with the data of the last call or of the merge; result or error carry the tokens of all calls, within the budget |
| Pipeline.ResolveExtractionInput | app/services/document_processor.py:81-112 | it succeeds exactly for a supported type, given or classified; the classifier is asked only without one; without a given strategy the second one is taken from eleven pages on, else the first |
| Pipeline.ProcessPages | app/services/document_processor.py:51-83 | an outcome exists exactly for a supported type, else no call is made; it is an error exactly if the strategy raises, and carries the tokens of all calls and the classifier's usage |
| Pipeline.ExtractExistingDocument | app/services/document_processor.py:51-79 | from the calls to the ledger: its extraction tokens grow by exactly the tokens of the calls if the run records anything, and stay otherwise |
| Pipeline.ExtractInlineUpload | app/services/documents.py:243-275 | the same for an upload processed at once, and a response means that the calls are billed |
| Pipeline.ExtractQueuedUpload | app/services/documents.py:171-207 | the same for an upload for the queue; a response means billed calls exactly if it was not handed over |
| Ledger.RecordingAccounts | app/services/audit.py:41-61 | adding an extraction with a fresh id and its usage rows keeps the ledger in order |
| Ledger.RowsBill | app/services/audit.py:120-146 | the rows written are one extraction row equal in document, model and tokens, and at most one classifier row |
| Ledger.BackfillExtractionUsage | migrations/versions/2026-05-29_llm_usage_ledger.py:92-131 | one row per existing extraction |
| Ledger.BackfillAccounts | migrations/versions/2026-05-29_llm_usage_ledger.py:92-131 | these rows put the ledger in order |
| LifecycleSafety.StepIsStep | app/services/documents.py:151-374 | every step of every run commits either nothing or a whole record of its own run |
| LifecycleSafety.InvariantHolds | app/services/documents.py:151-374 | ledger, results, files and run state are kept by every schedule with any failures and cancellations |
| LifecycleSafety.LedgerTheorem | app/services/audit.py:31-146 | in every reachable state each extraction has exactly one matching extraction row and at most one classifier row, nothing else is billed, and the token sums agree |
| LifecycleSafety.CompletedTheorem | app/services/documents.py:328-343 | in every reachable state a document shown as completed has a completed or partial extraction |
| LifecycleSafety.FilesTheorem | app/services/documents.py:171-181 | in every reachable state a committed document lacks its file exactly after a late failure and a successful cleanup, and a file without a document has one of three reasons |
| LifecycleRuns.FileIsLostExactlyWhen | app/services/documents.py:171-181 | over events: a committed document lacks its file if and only if creating it failed late and its cleanup deleted the file |
| LifecycleRuns.CommittedHaveFiles | app/services/document_intake.py:31-68 | if failing to create a document means its commit did not take effect, every committed document has its file |
| LifecycleSchedules.CommittedWithoutFile | app/services/documents.py:257-275 | a schedule in which a committed document loses its file |
| LifecycleRuns.AtMostOneExtraction | app/services/documents.py:302-361 | no run commits two extractions, although failure handling may run twice |
| LifecycleRecords.RecordsTheOutcome | app/services/documents.py:302-361 | whatever interleaves and fails, a commit with an extraction is exactly the outcome of the run's own processing: status, document, model, tokens and usage rows; only the document's status may be the catch-all's |
| LifecycleRecords.StatusTellsExtraction | app/services/documents.py:328-361 | such a commit shows FAILED if and only if its extraction failed or building the response did, and COMPLETED if and only if the extraction is completed or partial and building the response did not fail |
| LifecycleRecords.UploadShowsExtraction | app/services/documents.py:552-558 | for uploads: FAILED if and only if the extraction failed, COMPLETED if and only if it is completed or partial |
| LifecycleRecords.RowsMean | app/services/audit.py:120-146 | the classifier's row exists exactly if it was asked, with its own model and tokens; the extraction's row always does, with the run's model |
| LifecycleRecords.ExtractionNeedsFile | app/services/documents.py:277-300 | a run on a stored document commits an extraction only if it has read the document's file |
| LifecycleSchedules.FailedWithCompletedExtraction | app/services/documents.py:297-343 | a schedule in which a document is FAILED although its committed extraction is completed |
| LifecycleRuns.StoryHolds | app/services/documents.py:277-300 | the first commit of a run on a stored document marks it, the second sets a terminal status, a third changes nothing |
| LifecycleRuns.EndsTerminal | app/services/documents.py:277-361 | a run on a stored document without a database failure has set a terminal status, or the document does not exist |
| LifecycleRuns.EndsTerminalExactlyWhen | app/services/documents.py:277-361 | a finished run on a stored document has set a terminal status if and only if none of its steps before the second commit was a failing operation of the database |
| LifecycleRuns.UploadEndsTerminalExactlyWhen | app/services/documents.py:243-361 | an upload that is over has set a terminal status if and only if no event stopped it before its last commit took effect |
| LifecycleRuns.TerminalAtCommit | app/services/documents.py:297-300 | after a later commit the status is terminal if and only if it is the second, or it was terminal before |
| LifecycleSchedules.StaysProcessing | app/services/documents.py:297-300 | a schedule in which a database failure leaves the document being processed |
| LifecycleSchedules.CatchAllIsNoOp | app/services/documents.py:297-300 | a schedule in which the last commit of a failed run succeeds and the document is being processed |
| DocumentService.Session.SetDocumentStatus | app/repositories/documents.py:25-32 | a flushed assignment, written only if it differs from what the session has seen |
| DocumentService.Session.Commit | app/services/documents.py:342-342 | pending changes take effect together or not at all, possibly also when the commit raises |
| DocumentService.PrepareDocument | app/services/document_intake.py:24-51 | parsing and saving are the first step of an upload in the interleaving model |
| DocumentService.AbandonUpload | app/services/document_intake.py:60-68 | rollback and deletion; an error of the deletion is swallowed and the file stays |
| DocumentService.CreateDocument | app/services/documents.py:363-366 | flush, commit and refresh, each a step of the model; on any error the upload is to be cleaned up |
| DocumentService.AddUsageEvents | app/services/audit.py:120-146 | the loop adds the classifier rows and then the extraction row, each a step of the model, or the session is broken |
| DocumentService.RecordProcessingFailure | app/services/documents.py:345-361 | a failed extraction with the tokens of the error, its usage and the status in one commit |
| DocumentService.RecordProcessingSuccess | app/services/documents.py:328-343 | the validated extraction, its usage and the status in one commit, COMPLETED exactly if validation completed or gave part of the data; an error while building the response leaves them pending |
| DocumentService.ProcessDocumentPages | app/services/documents.py:302-326 | which of the two is recorded, and that an extraction error is raised again |
| DocumentService.CatchAll | app/services/documents.py:297-300 | the handler's commit sets FAILED if it is the second of the run and changes no status if it is the third |
| DocumentService.ProcessExistingInline | app/services/documents.py:277-300 | the statements are an execution of the model for any answers of the database; they end in its terminal place, with a terminal status after two commits, keep ledger and results in order, and bill exactly the tokens of the outcome if anything is recorded |
| DocumentService.ProcessUploadedInline | app/services/documents.py:243-275 | the same for an upload, with the same billing; a response means that the outcome is committed and shows: COMPLETED exactly for a completed or partial validation; an outcome is recorded unless the database fails, and the document lacks its file exactly after a late failure and a successful cleanup |
| DocumentService.ExtractUploadedDocument | app/services/documents.py:171-207 | the same for an upload that is handed to the queue, which records nothing, or, if that fails, processed without a handler |
| DocumentService.Follows | app/services/documents.py:151-374 | every state that the statements go through satisfies all invariants of the model |
| CostReport.PricedTogether | app/services/cost_report.py:178-180 | rows of one price cost together what their summed tokens cost |
| CostReport.GroupingConserves | app/repositories/llm_usage.py:76-96 | the groups of the query amount to what the joined ledger rows amount to one by one, in any order |
| CostReport.GroupingConservesKey | app/repositories/llm_usage.py:76-96 | the same for the groups and rows of one key |
| CostReport.BuildUsageCosts | app/services/cost_report.py:154-198 | the loop that fills and overwrites the dictionary computes the fold by key |
| CostReport.UsageCostsFold | app/services/cost_report.py:181-196 | per key and in total the dictionary holds what the groups amount to |
| CostReport.UsageCostsConserve | app/services/cost_report.py:154-198 | per key and in total it holds the direct sums over ledger rows |
| CostReport.BuildCostBreakdown | app/services/cost_report.py:99-152 | the lines, the totals and the number of extractions that the loops compute |
| CostReport.CountsConserve | app/repositories/extractions.py:64-102 | the counts sum to the number of extractions in the window |
| CostReport.BreakdownIsConserving | app/services/cost_report.py:99-152 | lines and totals conserve the ledger and the extraction count, each line for its key, and count times average cost is the cost |
| ReportMeaning.GenerateReport | app/services/cost_report.py:43-97 | whatever order the database answers in: every line and the totals are sums over ledger rows, each priced for its own model or free without a price; counts, averages and durations are those of the key's extractions |
| ReportMeaning.ReportTells | app/services/cost_report.py:43-198 | the rows that count: linked to an extraction, in the window, with the document type, strategy, model or purpose of the line |
| ReportMeaning.JoinSpends | app/repositories/llm_usage.py:76-96 | the join keeps exactly these rows |
| LedgerReport.ExtractionRowsAmount | app/services/audit.py:31-146 | in a ledger that is in order, any amount summed over the extraction rows is that amount summed over the extractions |
| LedgerReport.ReportTellsExtractions | app/services/cost_report.py:43-97 | after any interleaving of runs, a report without date limits counts every recorded extraction, and its extraction line is exactly their tokens, each priced for its own model |
| Validation.TheSchemas | app/schemas/documents.py:47-179 | the four schemas meet what the recovery needs |
| Validation.Warnings | app/services/validation.py:190-211 | the two loops give one warning per error of the library and one per unreported missing field |
| Validation.NothingUnreported | app/services/validation.py:205-209 | there never is an unreported missing field |
| Validation.CandidateWithFieldValue | app/services/validation.py:155-169 | the loop that fills a candidate with raw values and stand-ins |
| Validation.ValidatedFieldValue | app/services/validation.py:171-188 | the value comes from the validated candidate, or from the plain parse if that fails |
| Validation.CurrencyCandidateValidates | app/services/validation.py:180-188 | the candidate for the currency field validates whenever the field itself does |
| Validation.OtherCandidatesFail | app/services/validation.py:227-248 | with a required currency the candidate for any other field fails |
| Validation.BothRoutesAgree | app/services/validation.py:171-188 | on either route a field that is not in error gets its own parsed and checked value |
| Validation.ErrorsBlame | app/services/validation.py:146-153 | a field is blamed exactly when it is in error on its own |
| Validation.QualityWarnings | app/services/validation.py:78-144 | at most one warning, exactly when the schema's amounts are all there and do not fit |
| Validation.QuietMeansClose | app/services/validation.py:88-144 | a validated or recovered record without a quality warning states a total at most one cent off |
| Validation.RecoverPartial | app/services/validation.py:41-76 | recovery never raises; each valid field keeps its own value, the others get their default, data is missing exactly when the status is failed, and the warnings are those of the errors and then of the recovered amounts |
| Validation.Validate | app/services/validation.py:27-39 | completed exactly without errors, failed exactly with errors and no valid field; the warnings are the errors and then the amounts that do not fit |
| Validation.RecoveryAgreesWithValidation | app/services/validation.py:41-76 | a recovered field has the value that full validation gives it in any input that validates |
| Validation.RecoveredCurrency | app/schemas/documents.py:14-22 | a recovered currency is the upper-cased three-letter code |
| ValidationMeaning.CompleteMeans | app/schemas/documents.py:47-179 | schema by schema, nothing is in error if and only if every required field is there with a value, every optional one is missing, null or has a value, a currency is a three-letter code once upper-cased, and no due, termination or period-end date lies before its counterpart |
| ValidationMeaning.BestValueMeans | app/services/validation.py:41-62 | every field gets its own parsed value, a currency upper-cased, or none |
| ValidationMeaning.InvoiceQuality | app/services/validation.py:88-104 | an invoice is warned of exactly if subtotal, tax and total are there and, in cents, the total is not the sum |
| ValidationMeaning.PayslipQuality | app/services/validation.py:106-126 | a payslip exactly if, in cents, the net pay is not the gross pay without all deductions |
| ValidationTexts.FieldTold | app/services/validation.py:190-203 | what is said of a field: that it is required and missing, each fault of a value that does not parse, or that its text is no currency code |
| ValidationTexts.ValidateExtraction | app/services/validation.py:251-255 | for each document type: status and data as above, and the whole list of warnings, in the order of the fields; an unknown type raises |
| Money.RoundsToInterval | app/schemas/documents.py:7-11 | a number of cents stands for the amounts within half a cent, the end points only if it is even |
| Money.RoundingIsMonotone | app/schemas/documents.py:10-11 | a larger amount never rounds to fewer cents |
| Money.RoundingIsOdd | app/schemas/documents.py:10-11 | rounding commutes with negation |
| Money.TotalWarns | app/services/validation.py:88-144 | the check of invoices and receipts warns exactly on a mismatch of present amounts |
| Money.PayslipWarns | app/services/validation.py:106-126 | the check of payslips, with its sum over the deductions |
| Money.NoWarningMeansClose | app/services/validation.py:97-99 | no warning means a gap of at most one cent |
| Money.WholeCentUnnoticed | app/services/validation.py:97-99 | the bound is attained |
| Money.SmallGapsMayWarn | app/services/validation.py:97-99 | no smaller gap is safe from a warning |
| Money.ExactOnCents | app/services/validation.py:97-99 | on whole cents the check warns exactly when the amounts differ |
| Money.DeductionOrderIsIrrelevant | app/services/validation.py:115-120 | permuting the deductions does not change the check |
| CorrectionDiff.DiffExtractionData | app/services/corrections.py:77-107 | the loop over the keys of both sides computes the three parts |
| CorrectionDiff.PatchCorrects | app/services/corrections.py:77-107 | patching the original with the diff gives the corrected data, up to Python's equality |
| CorrectionDiff.ReversePatchRestores | app/services/corrections.py:77-107 | the reversed diff restores the original |
| CorrectionDiff.SwapReverses | app/services/corrections.py:77-107 | swapping the parts gives the diff of the swapped arguments |
| CorrectionDiff.PatchIsExactIff | app/services/corrections.py:97-101 | patching gives exactly the corrected data if and only if equal values at common keys are identical |
| CorrectionDiff.DiffIsPartition | app/services/corrections.py:85-101 | a key is reported at most once, and exactly when the sides differ at it |
| CorrectionDiff.EmptyIffAgree | app/services/corrections.py:77-107 | the diff is empty if and only if the two sides agree |
| CorrectionDiff.DiffOfPatched | app/services/corrections.py:77-107 | diffing against the patched original gives the same diff |
| CorrectionDiff.Create | app/services/corrections.py:45-74 | the corrected data is validated for its document type; a correction is refused, with the warnings, exactly when validation fails, and otherwise keeps the original, the validated data, all warnings and their diff |
| BatchScheduler.EverySchedule | app/services/documents.py:401-427 | never more than the limit in flight, every move counts down from two per file, finished tasks have their own outcome |
| BatchScheduler.NeverStuck | app/services/documents.py:409-412 | as long as a task is not finished some task can move |
| BatchScheduler.MaximalSchedules | app/services/documents.py:401-437 | every schedule that cannot go on has two moves per file, every task finished, and each item's own outcome in its position |
| BatchScheduler.ExtractBatchItems | app/services/documents.py:401-437 | tasks move in any order; never do more than five run, and each item has its own file's name and, by how its task ended, status and error |
| BatchScheduler.BatchExtract | app/services/documents.py:376-399 | the response with its two counts: failed are exactly the items that raised or whose extraction failed, succeeded all others |
| BatchScheduler.CountsCover | app/services/documents.py:391-399 | every item that the code can report is counted as succeeded or as failed, and none as both |
| BatchRuns.UploadsRunAlone | app/services/documents.py:439-468 | an upload goes through the same places and commits in any interleaving, on any database, as its own steps give it on an empty one |
| BatchRuns.ItemRunsAsIfSequential | app/services/documents.py:401-468 | in particular each item ends as in the schedule that runs the items one after the other |
| BatchRuns.AtMostLimitRuns | app/services/documents.py:409-420 | at every prefix of a schedule in which items run only while their task holds the semaphore, no more of their runs are begun and not over than the limit |
| BatchRuns.PlayIsNeverStuck | app/services/documents.py:409-427 | as long as a task is not finished, a task may pass the semaphore or the run of one may move |
| BatchRuns.BatchIsSequential | app/services/documents.py:401-468 | when all tasks of such a schedule are finished, the batch reports, position by position, what its items report one after the other |
| BatchReports.BatchSays | app/services/documents.py:401-468 | position by position, by how that file's own run ended: the status that its processing gave, "processing" if the document is in the queue, or "failed" with the text of the error |

## Left out

- PageMergeHeap.MergeResults: requires the pages to hold distinct list objects, as parsed answers do; with a list
  object shared between pages an extension would also change the later page.
- SchemaMeaning.SimplifyOnlyWidens: states nothing for arbitrary `anyOf` lists or for properties named `$ref`,
  `pattern` or `format`, where the transformation is lossy; keywords outside the eight modelled ones are
  annotations.
- NormalForm.DereferenceAndSimplify: requires `$defs` to be a dictionary; with another value the code raises or
  tests membership in a list.
- LifecycleRuns.EndsTerminal: is claimed for runs on stored documents only; what uploads show is in
  LifecycleRuns.UploadEndsTerminalExactlyWhen.
- LifecycleSafety.LedgerTheorem: covers runs that reach the recording of an outcome; classifier calls of runs that
  end before it are not recorded by the code.
- DocumentService.ProcessExistingInline: from its first statement to its last no other run moves; that other runs
  move in between is the subject of `Lifecycle`, whose runs its statements follow.
- LedgerReport.ReportTellsExtractions: is stated without date limits, as the two kinds of rows of one outcome carry
  their own times; with limits the report agrees with the rows of the window (ReportMeaning.GenerateReport).
- ReportMeaning.GenerateReport: what the database takes as the average duration of a key is carried along without a
  claim.
- Pipeline.ProcessPages: the calls are made before the file is loaded; they touch neither session nor store.
- Confidence scores and response mapping: single-branch facts.
- The `SELECT ... GROUP BY` plan, row locks, the queue, PDF parsing and the language model are environment steps or
  parameters.
- Overflow of the decimal context and integer column widths.
- HTTP routing, wiring, configuration, storage paths, upload size checks, logging and prompt texts.
