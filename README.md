# Real-time transcript sessions: a Dafny model

This project models the core of a real-time speech translation platform.
Hosts create sessions. Participants speak. A streaming transcription and
translation engine delivers tokens, and the application:

- reconciles the engine's non-final tokens (live previews, broadcast to the
  other participants) and final tokens (finalised transcripts). Each final
  batch is read past a cursor. An original utterance that still awaits its
  translation is held back and paired with the next translation-only batch
  (`Transcribe`, a class `SessionTranscriber` over a pure step function per
  callback);
- keeps each client's transcript list and its per-participant preview map in
  step with the broadcast channel and the database insert feed
  (`Transcripts`, class `TranscriptStore`);
- merges the context sets attached to a session into one engine context.
  Terms are deduplicated in first-seen order. For metadata and translation
  pairs the last value wins per key. Texts are joined with a blank line, and
  empty fields are omitted. The module also validates a context set against
  its size limits and estimates its token count (`ContextMerge`);
- validates imported context-set JSON: every error is collected, unknown
  fields are warned about, and accepted data is normalised
  (`JsonValidator`). The downloadable template and the AI prompt embed an
  example that the validator accepts (`JsonTemplate`);
- edits a context set in a modal form (`ContextForm`, class
  `ContextSetForm`) and picks sets to attach to a session (`ContextSelector`);
- implements two API routes. Creating a context set runs an ordered
  validation, builds the rows and pages the listing (`ContextSetsRoute`).
  Creating a session runs its validation and builds the session, host,
  invitation and context-link rows (`SessionsRoute`);
- sorts the dashboard into upcoming and active sessions and assigns each a
  role (`Dashboard`);
- runs a countdown to a scheduled start (`Countdown`, class
  `CountdownTimer`) and an e-mail chip input (`EmailChips`, class
  `EmailChipInput`);
- gates every page behind HTTP Basic authentication (`Middleware`).

`Common` holds the shared helpers: `Option`, ASCII white space, trimming and
lower-casing, filtering and mapping, first-occurrence deduplication, a
stable sort and `split`. `Types` holds the database records.

Numbers are unbounded integers. Dates are integer milliseconds. Strings are
sequences of characters.

## Model

| member | source | states |
|---|---|---|
| Types.LanguageTablesConsistent | src/lib/supabase/types.ts:192-209 | Every two-way pair names two different supported languages, and every one-way target is a supported language. |
| Transcribe.TextsAppend | src/lib/hooks/useSessionTranscribe.ts:56-60 | Concatenating token texts distributes over appending token lists. |
| Transcribe.PartitionCovers | src/lib/hooks/useSessionTranscribe.ts:56-60 | Splitting tokens into original and translation groups loses and invents nothing: the two multisets add up to the batch. |
| Transcribe.PartitionTextLength | src/lib/hooks/useSessionTranscribe.ts:109-113 | The original text and the translated text together are as long as all token texts. |
| Transcribe.PartitionAppend | src/lib/hooks/useSessionTranscribe.ts:201-206 | The original and translated texts of two batches appended are the texts of each, appended. |
| Transcribe.TargetLanguagePaths | src/lib/hooks/useSessionTranscribe.ts:71-81 | The preview, final and display target languages agree whenever a source language is known. They differ only when it is missing: the display has no target; the two-way preview has none; the two-way final target falls back to language A. One-way always targets its fixed language. |
| Transcribe.TwoWayFlip | src/lib/hooks/useSessionTranscribe.ts:120-130 | In two-way mode, speech in one configured language is targeted at the other. |
| Transcribe.Streaming | src/lib/hooks/useSessionTranscribe.ts:200-236 | The local streaming view shows a target language only when a source language was detected and translation is configured. Its two texts together cover the preview tokens. |
| Transcribe.NonFinalBroadcastRule | src/lib/hooks/useSessionTranscribe.ts:52-94 | A preview is broadcast exactly when the batch is non-empty, has original text, a broadcast callback exists and its key differs from the last one. The key is remembered even when nothing is sent. The broadcast carries the batch's texts, source and preview target. The final-token state is untouched. |
| Transcribe.StreamingMatchesBroadcast | src/lib/hooks/useSessionTranscribe.ts:52-94 | The local view is the batch's original text, translation and source. Once the source is known, its target is the preview target. Whenever a preview is sent, the view shows exactly what was sent: the same text, the same translation (empty when none is sent), the same source and, once the source is known, the same target. |
| Transcribe.RepeatedPreviewSuppressed | src/lib/hooks/useSessionTranscribe.ts:63-65 | A second non-final batch with the same original and translated texts sends nothing and changes nothing. |
| Transcribe.BroadcastKeyCollision | src/lib/hooks/useSessionTranscribe.ts:63-65 | Because the key joins the two texts with a bar character, a preview whose original text differs from the last can still be suppressed: original `a` plus bar, then original `a` with a bar as translation. |
| Transcribe.FinalCursor | src/lib/hooks/useSessionTranscribe.ts:99-106 | A final-token list no longer than the cursor does nothing. A longer one moves the cursor to its end and leaves the preview key alone. |
| Transcribe.FinalStepReadsOnlyNewTokens | src/lib/hooks/useSessionTranscribe.ts:103-106 | Two final-token lists that agree past the cursor give the same emission and the same pending original. |
| Transcribe.CursorPassesPartition | src/lib/hooks/useSessionTranscribe.ts:103-106 | Over two consecutive passes, the tokens read are exactly the tokens past the first cursor, each read once. |
| Transcribe.OriginalOnlyBatch | src/lib/hooks/useSessionTranscribe.ts:133-160 | An original-only batch is held back as the pending original (replacing any earlier one) when translation is expected. Otherwise it is emitted at once without translation. With no translation configured it is never held. |
| Transcribe.TranslationOnlyBatch | src/lib/hooks/useSessionTranscribe.ts:163-175 | A translation-only batch clears the pending original and is emitted exactly when a final callback exists. It pairs with the pending original's text and source when there is one, and otherwise stands in as its own original. The target comes from this batch's own (empty) source, so two-way mode targets language A. |
| Transcribe.MixedAndEmptyBatches | src/lib/hooks/useSessionTranscribe.ts:177-186 | A batch with both texts is emitted paired at once and keeps the pending original. A batch whose texts are both empty emits nothing and only moves the cursor. |
| Transcribe.NoTokensGuardUnreachable | src/lib/hooks/useSessionTranscribe.ts:117 | Past a moved cursor the batch always has an original or a translated token, so the "no tokens" guard never fires. |
| Transcribe.TwoWayPairingAsWritten | src/lib/hooks/useSessionTranscribe.ts:120-175 | Under en/vi two-way mode, `hello` then `xin chào` is held and then emitted paired, with source `en` and target `en`. |
| Transcribe.PairedTargetOppositeIntended | src/lib/hooks/useSessionTranscribe.ts:163-175 | With the correction, a two-way pairing is emitted with the original's source and a target that is the other configured language. |
| Transcribe.StartThenFirstBatch | src/lib/hooks/useSessionTranscribe.ts:189-194 | After a start, the first final batch is read from index 0 and moves the cursor to its end. |
| Transcribe.SessionTranscriber.constructor | src/lib/hooks/useSessionTranscribe.ts:42-44 | The hook starts with an empty preview key, an empty cursor, no pending original and no recording. |
| Transcribe.SessionTranscriber.OnNonFinalTokens | src/lib/hooks/useSessionTranscribe.ts:52-94 | The non-final effect updates the state and returns the broadcast as the non-final step prescribes. |
| Transcribe.SessionTranscriber.OnFinalTokens | src/lib/hooks/useSessionTranscribe.ts:99-187 | The final effect updates the cursor and the pending original, and returns the emission, as the final step prescribes. |
| Transcribe.SessionTranscriber.Start | src/lib/hooks/useSessionTranscribe.ts:189-194 | Start clears the preview key, the cursor and the pending original, then records. |
| Transcribe.SessionTranscriber.Stop | src/lib/hooks/useSessionTranscribe.ts:196-198 | Stop only stops recording; the buffers are kept until the next start. |
| Transcripts.AddStepSpec | src/lib/hooks/useTranscripts.ts:59-69 | Adding a transcript appends it and drops the preview of its participant, when there is one. Every other preview is kept. |
| Transcripts.InsertStepSpec | src/lib/hooks/useTranscripts.ts:89-103 | An insert notification for a final row acts like adding it; a non-final row is ignored. |
| Transcripts.StreamStepSpec | src/lib/hooks/useTranscripts.ts:106-113 | A preview broadcast replaces its participant's preview, keeps the others and leaves the list alone. |
| Transcripts.RunAppend | src/lib/hooks/useTranscripts.ts:76-122 | Processing two event sequences in turn is processing their concatenation. |
| Transcripts.ListOnlyGrows | src/lib/hooks/useTranscripts.ts:76-122 | Whatever events arrive, the list is the old list plus the transcripts they deliver, in order. |
| Transcripts.DeliveredTwice | src/lib/hooks/useTranscripts.ts:59-103 | A transcript added locally and then delivered by the insert feed is listed twice; nothing deduplicates. |
| Transcripts.FinalRowClearsPreview | src/lib/hooks/useTranscripts.ts:89-113 | A participant's final row clears their preview, and a later preview of theirs shows again. |
| Transcripts.TranscriptStore.constructor | src/lib/hooks/useTranscripts.ts:26-30 | The hook starts with no transcripts, no previews, loading, no error and no channel. |
| Transcripts.TranscriptStore.OnFetched | src/lib/hooks/useTranscripts.ts:32-44 | A fetch replaces the list, or records its error, and ends loading. |
| Transcripts.TranscriptStore.BroadcastStreaming | src/lib/hooks/useTranscripts.ts:46-57 | A preview is sent, unchanged, exactly when a channel is attached. |
| Transcripts.TranscriptStore.AddTranscript | src/lib/hooks/useTranscripts.ts:59-69 | Updates the list and previews as the add step prescribes. |
| Transcripts.TranscriptStore.OnInsert | src/lib/hooks/useTranscripts.ts:89-103 | Updates the list and previews as the insert step prescribes. |
| Transcripts.TranscriptStore.OnBroadcast | src/lib/hooks/useTranscripts.ts:106-113 | Updates the previews as the stream step prescribes. |
| Transcripts.TranscriptStore.OnSessionId | src/lib/hooks/useTranscripts.ts:76-122 | A channel is attached exactly when the session id is set; the data is kept. |
| Transcripts.TranscriptStore.Unmount | src/lib/hooks/useTranscripts.ts:118-121 | Cleanup detaches the channel and keeps the data. |
| ContextMerge.SortedInPlaceSpec | src/lib/context/merge.ts:31-63 | Merging leaves each input set's terms and translation pairs sorted by sort order. They stay a permutation of what was there, ties keep their order, and every other field is unchanged. |
| ContextMerge.CollectedStep | src/lib/context/merge.ts:31-63 | The collected entries of one more set are the earlier sets' entries followed by this set's, its terms and translations in sort order. |
| ContextMerge.LastIndex | src/lib/context/merge.ts:53-63 | Finds the last entry with a key, and no later entry has that key. |
| ContextMerge.LastWins | src/lib/context/merge.ts:40-63 | The map built from a list of pairs has one entry per distinct key. |
| ContextMerge.PutLastWins | src/lib/context/merge.ts:40-45 | Setting one more key on the map gives the map of the list extended by that pair. |
| ContextMerge.CollectTerms | src/lib/context/merge.ts:31-38 | The term loop yields the distinct terms of all sets in first-seen order and sorts each set's terms in place. |
| ContextMerge.CollectGeneral | src/lib/context/merge.ts:40-45 | The metadata loop yields the last-wins map of all sets' pairs. |
| ContextMerge.CollectTranslations | src/lib/context/merge.ts:53-63 | The translation loop yields the last-wins map of all sets' sorted pairs and sorts each set's pairs in place. |
| ContextMerge.MergeContextSets | src/lib/context/merge.ts:26-72 | The merge returns the merged context. The input sets are left sorted, or untouched when there are none. |
| ContextMerge.TranslationsIgnoreTerms | src/lib/context/merge.ts:35-57 | Sorting the terms first does not change which translation pairs are collected. |
| ContextMerge.MergedFieldsOmittedWhenEmpty | src/lib/context/merge.ts:27-71 | No sets give the empty context. A field is omitted exactly when nothing was collected for it, and a present field is never empty. |
| ContextMerge.MergedTermsDistinct | src/lib/context/merge.ts:31-38 | Merged terms are present exactly when some set has a term. They are distinct, every merged term comes from a set, and every set's term is merged. |
| ContextMerge.MergedTermsFirstSeen | src/lib/context/merge.ts:31-38 | Merged terms are ordered by their first appearance across the sets. |
| ContextMerge.LastWinsKeys | src/lib/context/merge.ts:40-45 | The map's keys are the distinct keys in first-seen order, and every key of the input is present. |
| ContextMerge.LastWinsFirstPosition | src/lib/context/merge.ts:40-45 | Map entries are ordered by the first appearance of their keys. |
| ContextMerge.LastWinsLastValue | src/lib/context/merge.ts:40-45 | Each map entry is the last pair given for its key. |
| ContextMerge.MergedTextConcat | src/lib/context/merge.ts:47-51 | The merged text of two runs of sets joins their texts with a blank line, or is the one that exists. |
| ContextMerge.MergedTextSingle | src/lib/context/merge.ts:47-51 | A single set contributes its text exactly when it is not blank. |
| ContextMerge.CheckCounts | src/lib/context/merge.ts:89-107 | Reports, in order, the text, metadata, term and translation counts that exceed their limits. |
| ContextMerge.CheckTermLengths | src/lib/context/merge.ts:110-114 | Reports each over-long term with its 1-based position and length, in order. |
| ContextMerge.CheckGeneralLengths | src/lib/context/merge.ts:117-124 | Reports each over-long metadata key and value with its 1-based position, in order. |
| ContextMerge.ValidateContextSet | src/lib/context/merge.ts:85-127 | Returns the messages of all violations in the source's order. |
| ContextMerge.ValidIffWithinLimits | src/lib/context/merge.ts:85-127 | A set has no violation exactly when its text, counts, term lengths and metadata lengths are within their limits. |
| ContextMerge.TermViolationsCount | src/lib/context/merge.ts:110-114 | There is one term violation per over-long term. |
| ContextMerge.TranslationContentsUnchecked | src/lib/context/merge.ts:105-107 | Only the number of translation pairs is checked, not their contents. |
| ContextMerge.EstimateTokenCount | src/lib/context/merge.ts:136-163 | The estimate is the merged context's character count divided by four, rounded up; it is zero exactly when that count is. |
| ContextMerge.EstimateEmpty | src/lib/context/merge.ts:136-163 | No sets estimate to zero tokens. |
| JsonValidator.CheckTerms | src/lib/context/json-validator.ts:82-88 | The term loop reports each item's issues in item order. |
| JsonValidator.CheckGeneralItem | src/lib/context/json-validator.ts:101-114 | Reports one metadata item's shape and length issues. |
| JsonValidator.CheckTranslationItem | src/lib/context/json-validator.ts:128-137 | Reports one translation item's shape issues. |
| JsonValidator.CheckGeneral | src/lib/context/json-validator.ts:93-117 | The metadata loop reports each item's issues in item order. |
| JsonValidator.CheckTranslations | src/lib/context/json-validator.ts:120-140 | The translation loop reports each item's issues in item order. |
| JsonValidator.CollectWarnings | src/lib/context/json-validator.ts:142-148 | One warning per unknown key, in key order. |
| JsonValidator.CheckName | src/lib/context/json-validator.ts:43-49 | Reports the name's issues: missing, not a string, blank, or too long. |
| JsonValidator.CheckOptionalStrings | src/lib/context/json-validator.ts:57-72 | Reports the description's and text's issues. |
| JsonValidator.CheckTermsField | src/lib/context/json-validator.ts:75-90 | Reports the terms field's issues: not an array, too many, then per item. |
| JsonValidator.CheckGeneralField | src/lib/context/json-validator.ts:93-117 | Reports the general field's issues. |
| JsonValidator.CheckTranslationsField | src/lib/context/json-validator.ts:120-140 | Reports the translation_terms field's issues. |
| JsonValidator.CheckFields | src/lib/context/json-validator.ts:43-140 | Reports all field issues in the source's order. |
| JsonValidator.ValidateImportedJson | src/lib/context/json-validator.ts:20-171 | The result is valid exactly when there is no error, and exactly when data is returned. A syntax error gives one error and no warnings. A non-object gives the one "must be an object" error. An object gets one warning per unknown key. |
| JsonValidator.ValidIffConforms | src/lib/context/json-validator.ts:20-171 | Input is accepted exactly when it parsed to an object whose fields all conform to the schema. |
| JsonValidator.KnownFieldsNoWarnings | src/lib/context/json-validator.ts:142-148 | An object with only known keys draws no warning. |
| JsonValidator.LongTermsAllReported | src/lib/context/json-validator.ts:75-90 | Too many over-long terms draw one count error plus one error per term, next to every other field's errors: validation does not stop at the first error. |
| JsonValidator.OnlyLongTermsReported | src/lib/context/json-validator.ts:20-171 | A valid name and flag with N > 500 over-long terms gives exactly N + 1 errors. |
| JsonValidator.UnknownKeysWarnedOnce | src/lib/context/json-validator.ts:142-148 | Each unknown key is warned about exactly once; a known key never is. |
| JsonValidator.SameFieldsSameOutcome | src/lib/context/json-validator.ts:43-170 | Objects whose known fields read the same give the same errors and the same data. |
| JsonValidator.UnknownMemberIgnored | src/lib/context/json-validator.ts:142-148 | An extra unknown member changes neither the errors nor the data. |
| JsonValidator.AcceptedScalarsTrimmed | src/lib/context/json-validator.ts:155-170 | Accepted data carries the trimmed name, the given flag, and the trimmed description and text, or none when they are absent. |
| JsonValidator.AcceptedTermsPassedThrough | src/lib/context/json-validator.ts:155-170 | Accepted terms are the imported strings, one for one; a missing array becomes empty. |
| JsonValidator.AcceptedGeneralPassedThrough | src/lib/context/json-validator.ts:155-170 | Accepted metadata are the imported key/value pairs, one for one; a missing array becomes empty. |
| JsonValidator.AcceptedTranslationsPassedThrough | src/lib/context/json-validator.ts:155-170 | Accepted translation pairs are the imported source/target pairs, one for one; a missing array becomes empty. |
| JsonValidator.HoldsFormAccepted | src/lib/context/json-validator.ts:20-171 | An object holding exactly a form's data within the limits is accepted, and that data is returned. |
| JsonValidator.FormRoundTrip | src/lib/context/json-validator.ts:155-170 | Writing form data within the limits as JSON and validating it returns the same data. |
| JsonValidator.AcceptedWithinLimits | src/lib/context/json-validator.ts:155-170 | Accepted data is within every limit. |
| JsonTemplate.TemplateFields | src/lib/context/json-template.ts:7-25 | The template object holds the example name, description, flag, terms, metadata, translations and text. |
| JsonTemplate.TemplateHoldsData | src/lib/context/json-template.ts:7-25 | The template holds a form's data, within the limits. |
| JsonTemplate.TemplateAccepted | src/lib/context/json-template.ts:7-25 | The validator accepts the template with no error or warning and returns its data. |
| JsonTemplate.QuotedLimitsAgree | src/lib/context/json-template.ts:34-66 | The limits quoted in the annotated template are the validator's limits. |
| JsonTemplate.PromptExampleImports | src/lib/context/json-template.ts:74-114 | The prompt embeds the generated template unchanged, and that embedded example is accepted when parsed back. |
| ContextForm.TrimKeepsText | src/components/context/ContextSetFormModal.tsx:79-86 | Trimming a non-blank string leaves a non-blank, trimmed string, and trimming is idempotent. |
| ContextForm.SubmittedTerms | src/components/context/ContextSetFormModal.tsx:79-86 | Submitted terms are non-blank and trimmed. A string is submitted exactly when some typed row trims to it. |
| ContextForm.SubmittedPairs | src/components/context/ContextSetFormModal.tsx:79-86 | Submitted metadata and translation pairs have both sides non-blank and trimmed. |
| ContextForm.SubmittedScalars | src/components/context/ContextSetFormModal.tsx:64-86 | A blank name submits nothing. Otherwise the name is trimmed, a blank description or text becomes undefined and a present one is trimmed, and the flag passes through. |
| ContextForm.SubmitIdempotent | src/components/context/ContextSetFormModal.tsx:64-96 | Submitting submitted data again gives the same data. |
| ContextForm.RemoveRowSpec | src/components/context/ContextSetFormModal.tsx:204-207 | Removing a row keeps every other row in order, and a list of several rows keeps at least one. |
| ContextForm.LoadedRows | src/components/context/ContextSetFormModal.tsx:35-62 | Loading shows one row per stored term. Metadata and translations load one row per stored pair, or a single blank row when there are none. |
| ContextForm.ContextSetForm.constructor | src/components/context/ContextSetFormModal.tsx:20-31 | A new form has empty fields, one blank row per list, the first tab and no error. |
| ContextForm.ContextSetForm.Load | src/components/context/ContextSetFormModal.tsx:35-62 | Loading fills the fields from the set being edited, or resets them, and returns to the first tab with no error. |
| ContextForm.ContextSetForm.Submit | src/components/context/ContextSetFormModal.tsx:64-96 | Submit returns the normalised data and leaves the fields alone. A blank name instead shows "Name is required" on the first tab. |
| ContextForm.ContextSetForm.AddTerm | src/components/context/ContextSetFormModal.tsx:183 | Adds one blank term row. The other lists, the name, description, flag, text, tab and error are unchanged. |
| ContextForm.ContextSetForm.AddGeneral | src/components/context/ContextSetFormModal.tsx:225 | Adds one blank metadata row. The other lists, the name, description, flag, text, tab and error are unchanged. |
| ContextForm.ContextSetForm.AddTranslation | src/components/context/ContextSetFormModal.tsx:278 | Adds one blank translation row. The other lists, the name, description, flag, text, tab and error are unchanged. |
| ContextForm.ContextSetForm.RemoveTerm | src/components/context/ContextSetFormModal.tsx:204-207 | Removes a term row when more than one is shown. The other lists, the name, description, flag, text, tab and error are unchanged. |
| ContextForm.ContextSetForm.RemoveGeneral | src/components/context/ContextSetFormModal.tsx:257-260 | Removes a metadata row when more than one is shown. The other lists, the name, description, flag, text, tab and error are unchanged. |
| ContextForm.ContextSetForm.RemoveTranslation | src/components/context/ContextSetFormModal.tsx:308-311 | Removes a translation row when more than one is shown. The other lists, the name, description, flag, text, tab and error are unchanged. |
| ContextForm.ContextSetForm.EditTerm | src/components/context/ContextSetFormModal.tsx:195-198 | Changes one term row only. The other lists, the name, description, flag, text, tab and error are unchanged. |
| ContextForm.ContextSetForm.EditGeneralKey | src/components/context/ContextSetFormModal.tsx:239-243 | Changes one metadata row's key only. The other lists, the name, description, flag, text, tab and error are unchanged. |
| ContextForm.ContextSetForm.EditGeneralValue | src/components/context/ContextSetFormModal.tsx:249-253 | Changes one metadata row's value only. The other lists, the name, description, flag, text, tab and error are unchanged. |
| ContextForm.ContextSetForm.EditTranslationSource | src/components/context/ContextSetFormModal.tsx:290-294 | Changes one translation row's source only. The other lists, the name, description, flag, text, tab and error are unchanged. |
| ContextForm.ContextSetForm.EditTranslationTarget | src/components/context/ContextSetFormModal.tsx:300-304 | Changes one translation row's target only. The other lists, the name, description, flag, text, tab and error are unchanged. |
| ContextSelector.AvailableSpec | src/components/context/ContextSelectorModal.tsx:26 | The offered sets are exactly the loaded sets whose id is not already attached, with multiplicity and in order. |
| ContextSelector.ToggleSpec | src/components/context/ContextSelectorModal.tsx:28-30 | Toggling an id selects it exactly when it was not selected, and leaves every other id alone. |
| ContextSelector.ToggleKeepsDistinct | src/components/context/ContextSelectorModal.tsx:28-30 | Toggling keeps a selection free of duplicates. |
| ContextSelector.ToggleTwice | src/components/context/ContextSelectorModal.tsx:28-30 | Toggling an unselected id twice restores the selection. |
| ContextSelector.SubmitSpec | src/components/context/ContextSelectorModal.tsx:32-54 | An empty selection closes the modal and keeps the search. Otherwise `onSelect` receives the selection. On success the selection and the search are cleared and the modal stays open (the caller closes it); on failure both are kept. Closing always clears both. |
| ContextSetsRoute.CheckCreateIsFirstFailing | src/app/api/context-sets/route.ts:80-108 | Creation is rejected with the first failing check in the source's order, and accepted exactly when no check fails. |
| ContextSetsRoute.FirstFailingSpec | src/app/api/context-sets/route.ts:80-108 | The first failing check fails, every earlier one passes, and none is reported exactly when all pass. |
| ContextSetsRoute.ItemsNotChecked | src/app/api/context-sets/route.ts:80-108 | Only the list lengths matter to validation, never the items. |
| ContextSetsRoute.SetRow | src/app/api/context-sets/route.ts:115-121 | The stored set has the request's name and user. A non-empty description or text is stored unchanged, and an empty or missing one as null. The set is public exactly when the flag is set. Because the checks passed, the name is non-empty and at most 100 characters, a stored text is at most 10,000 characters, and a private set always has an owner. |
| ContextSetsRoute.TermRowsReadBack | src/app/api/context-sets/route.ts:133-138 | Term rows carry the set's id and their list positions, so reading them back in sort order gives the terms as sent. |
| ContextSetsRoute.TranslationRowsReadBack | src/app/api/context-sets/route.ts:168-174 | Translation rows carry the set's id and positions, so reading them back in sort order gives the pairs as sent. |
| ContextSetsRoute.GeneralRowsArePairs | src/app/api/context-sets/route.ts:151-156 | Metadata rows are the sent pairs under the set's id, one for one. |
| ContextSetsRoute.Page | src/app/api/context-sets/route.ts:45 | A page holds consecutive rows from its first index and never more than its range. When its first index lies in the list, it holds every row of the range that exists. |
| ContextSetsRoute.ListingBounded | src/app/api/context-sets/route.ts:10-45 | A listing page never holds more than 100 sets, and without a limit at most 20. From an offset inside the list it is full, or holds the rest of the list. |
| ContextSetsRoute.PagesTile | src/app/api/context-sets/route.ts:45 | Paging by offset and limit leaves no gap and no overlap: the rows before an offset followed by its page are the rows up to the page's end. |
| ContextSetsRoute.CountsAreLengths | src/app/api/context-sets/route.ts:55-60 | Each listed set gains its term, metadata and translation counts and is otherwise unchanged. |
| SessionsRoute.CheckSessionIsFirstFailing | src/app/api/sessions/route.ts:30-69 | Creation is rejected with the first failing check in the source's order (authentication, required fields, mode languages, start time), and accepted exactly when none fails. |
| SessionsRoute.ScheduledStartChecked | src/app/api/sessions/route.ts:63-69 | With the other fields valid, a scheduled start is rejected exactly when it parses to a time not after now. |
| SessionsRoute.SessionRowByMode | src/app/api/sessions/route.ts:77-90 | The session row has a target language exactly in one-way mode and a language pair exactly in two-way mode. It accepts join requests exactly when private, and is private by default. |
| SessionsRoute.HostLanguage | src/app/api/sessions/route.ts:104-110 | The host participant row has a preferred language exactly in two-way mode: the given one, or else language A. |
| SessionsRoute.HostLanguageNotChecked | src/app/api/sessions/route.ts:104-110 | A two-way host may prefer a language outside the session's pair (en/es with `fr`). |
| SessionsRoute.InvitationsNormalised | src/app/api/sessions/route.ts:122-131 | Invitations are pending, trimmed, lower-case and distinct. Every invited address gets one, in first-seen order. |
| SessionsRoute.SameAddressInvitedOnce | src/app/api/sessions/route.ts:122-131 | Two addresses that normalise alike give one invitation. |
| SessionsRoute.CaseAndPaddingIgnored | src/app/api/sessions/route.ts:122-131 | `Ann@X.io ` and `ann@x.io` give the single invitation `ann@x.io`. |
| SessionsRoute.LinksKeepOrder | src/app/api/sessions/route.ts:143-148 | Context links record each set's position, so reading them in sort order gives the ids as sent. |
| SessionsRoute.LaterInsertsDoNotFail | src/app/api/sessions/route.ts:133-158 | The session is created exactly when the session and host inserts succeed. Failed invitation or link inserts do not change the response. |
| Dashboard.UpcomingSpec | src/app/dashboard/page.tsx:67-73 | Upcoming sessions are exactly the own and invited sessions that are scheduled after now and not ended, counted with multiplicity. They are ordered by start time, ties in list order. |
| Dashboard.ActiveSpec | src/app/dashboard/page.tsx:75-79 | Active sessions are exactly the own and invited active sessions not scheduled after now, newest first, ties in list order. |
| Dashboard.UpcomingActiveDisjoint | src/app/dashboard/page.tsx:67-79 | No session is both upcoming and active. |
| Dashboard.ListedTwice | src/app/dashboard/page.tsx:67-79 | A session that is both one's own and an invitation is listed twice. |
| Dashboard.RoleOfSpec | src/app/dashboard/page.tsx:84-88 | A session is past exactly when ended. Otherwise it is the creator's exactly when the user created it, and invited exactly when not. |
| Dashboard.ListedNeverPast | src/app/dashboard/page.tsx:67-88 | Sessions listed as upcoming or active never show the past role. |
| Countdown.BreakdownSpec | src/components/countdown-timer.tsx:30-33 | Days, hours, minutes and seconds are in range and add up to the remaining time, to the second below. |
| Countdown.LayoutByDistance | src/components/countdown-timer.tsx:36-42 | Days are shown from one day on, hours from one hour on, and otherwise minutes and seconds. |
| Countdown.LastSecondShowsZero | src/components/countdown-timer.tsx:30-42 | Within the last second the timer shows `0m 0s`. |
| Countdown.CountdownTimer.constructor | src/components/countdown-timer.tsx:12-13 | The timer starts with no text, not complete. |
| Countdown.CountdownTimer.Calculate | src/components/countdown-timer.tsx:16-45 | The timer is done exactly when the target is reached, and shows the remaining time's display. It becomes complete and fires the callback only the first time. |
| Countdown.CompletesOnce | src/components/countdown-timer.tsx:48-59 | Over any series of ticks the completion callback fires at most once, and once exactly when some tick reaches the target. |
| EmailChips.PatternGivesShape | src/components/email-chip-input.tsx:71 | A string matching the e-mail pattern has the shape: a local part, `@`, a domain with a dot, no white space or second `@`. |
| EmailChips.ShapeGivesPattern | src/components/email-chip-input.tsx:71 | A string with that shape matches the pattern. |
| EmailChips.EmailPatternCharacterised | src/components/email-chip-input.tsx:71 | The pattern matches exactly the strings of that shape. |
| EmailChips.AddEmailSpec | src/components/email-chip-input.tsx:68-80 | A new, well-formed address is added once, normalised, and the input and suggestions are cleared. Anything else changes nothing. |
| EmailChips.NoDuplicateChips | src/components/email-chip-input.tsx:73 | An address already present is not added again. |
| EmailChips.AddKeepsDistinct | src/components/email-chip-input.tsx:68-80 | Adding keeps the chips distinct. |
| EmailChips.RemoveEmailSpec | src/components/email-chip-input.tsx:82-84 | Removing drops every copy of that address and only it. |
| EmailChips.BackspaceDropsLast | src/components/email-chip-input.tsx:94-96 | Backspace on an empty input drops the last chip only. |
| EmailChips.EnterChoosesAddress | src/components/email-chip-input.tsx:87-93 | Enter adds the highlighted suggestion, else the typed text, else nothing. |
| EmailChips.KeysKeepIndexInRange | src/components/email-chip-input.tsx:86-107 | Keys, new suggestions and additions keep the highlight on a suggestion or on none. |
| EmailChips.ArrowsSaturate | src/components/email-chip-input.tsx:97-103 | Down moves the highlight forward but not past the last suggestion. Up moves it back, to none from the first. |
| EmailChips.ClearedSuggestionsKeepHighlight | src/components/email-chip-input.tsx:41-45 | A failed or too-short search clears the suggestions but not the highlight. Enter then adds the typed text. |
| EmailChips.EmailChipInput.constructor | src/components/email-chip-input.tsx:21-25 | Starts with the given chips, an empty input, no suggestions and no highlight. |
| EmailChips.EmailChipInput.HandleAddEmail | src/components/email-chip-input.tsx:68-80 | Changes the state as adding prescribes. |
| EmailChips.EmailChipInput.HandleRemoveEmail | src/components/email-chip-input.tsx:82-84 | Changes the state as removal prescribes. |
| EmailChips.EmailChipInput.HandleKeyDown | src/components/email-chip-input.tsx:86-107 | Changes the state as the key step prescribes. |
| EmailChips.EmailChipInput.OnInput | src/components/email-chip-input.tsx:138 | Typing changes the input only. |
| EmailChips.EmailChipInput.OnSuggestions | src/components/email-chip-input.tsx:36-38 | Search results replace the suggestions unfiltered, show them and reset the highlight. |
| EmailChips.EmailChipInput.OnSearchFailed | src/components/email-chip-input.tsx:41 | A failed search clears the suggestions. |
| EmailChips.EmailChipInput.OnShortQuery | src/components/email-chip-input.tsx:44-45 | A query under two characters clears and hides the suggestions. |
| EmailChips.FocusSpec | src/components/email-chip-input.tsx:141-145 | Focus shows the suggestions exactly when they were shown or some exist, changes nothing else, and a second focus does nothing more. |
| EmailChips.EmailChipInput.OnFocus | src/components/email-chip-input.tsx:141-145 | Changes the state as the focus step prescribes. |
| Middleware.AuthorizeSpec | src/middleware.ts:4-27 | A request proceeds exactly when a user is configured and the header presents the user and the password. Otherwise it is challenged, or fails where decoding fails. |
| Middleware.NoHeaderChallenged | src/middleware.ts:22-27 | A request without a header is answered 401 with the `Basic realm="Secure Area"` challenge. |
| Middleware.UnsetUserLocksOut | src/middleware.ts:13-19 | With no user configured, nobody gets in. |
| Middleware.ColonPasswordLocksOut | src/middleware.ts:10-19 | A configured password containing `:` can never be presented. |
| Middleware.UnsetPasswordAcceptsBareUser | src/middleware.ts:10-19 | With no password configured, the user alone, without a colon, gets in. |
| Middleware.MalformedHeaderChallenged | src/middleware.ts:7-9 | A header not of the form `Basic <token>` is challenged. |
| Middleware.SchemeCaseSensitive | src/middleware.ts:7-9 | A lower-case `basic` scheme is challenged. |
| Middleware.DoubleSpaceChallenged | src/middleware.ts:7-9 | Two spaces after the scheme leave an empty token, so the request is challenged. |
| Middleware.ExcludedPaths | src/middleware.ts:30-32 | API routes, Next.js static and image assets and the favicon are not gated. |
| Middleware.PagesGated | src/middleware.ts:30-32 | The root and the pages outside those prefixes are gated. |

## Left out

- The streaming engine itself is not modelled, nor the audio, its start and stop calls, or engine errors. Token batches are inputs to the step functions.
- The two callbacks are a flag for whether one exists plus the returned event. The broadcast channel, the Supabase client, `fetch` and `JSON.parse`/`JSON.stringify` are parameters or left out, and so are React state scheduling, effects and intervals. Each callback or effect is one call on the class.
- The broadcast loop: the channel is assumed not to echo a client's own preview. The code does not filter the local participant's id.
- The merge sorts each input set's `terms` and `translation_terms` in place (`src/lib/context/merge.ts:35`, `:57`). The model returns the sets as the merge leaves them, sorted.
- Stop keeps the cursor and the pending original; only start clears them (`src/lib/hooks/useSessionTranscribe.ts:189-198`). Stop itself only stops the transcription service.
- String lengths count characters, not UTF-16 code units. Trimming, `\s` and lower-casing use ASCII white space and ASCII letters. The e-mail regular expression is replaced by a structural predicate proved equal to its matches.
- Object keys keep their first-occurrence order. The engine's reordering of integer-like keys is not modelled. Duplicate keys read the last value. JSON numbers are kept but never inspected.
- Accepted data keeps only the schema's properties of each term, metadata and translation item. The source passes the imported arrays through unchanged (`src/lib/context/json-validator.ts:160-162`), so properties outside the schema survive there but not in the model.
- Dates are integer milliseconds, and parsing is a parameter returning none for an invalid date. An invalid date on the dashboard or in the countdown (NaN comparisons) is not modelled.
- The database assigns transcript ids, creation times and sequence numbers; that assignment is not part of this model, and transcript rows arrive complete.
- Session join codes come from a random generator, which is a parameter. Supabase errors are modelled only as the success or failure flags of each insert.
- ContextForm.ContextSetForm.Submit: the `isSubmitting` flag, the awaited `onSubmit` and its error message are not modelled.
- The form's edit handlers copy the row list shallowly and update the row in place (`src/components/context/ContextSetFormModal.tsx:241`). The model writes a new row value, which is what the rendered state shows.
- `terms?.map(...) || ['']` when loading: an absent term list loads as no rows, the same as an empty one.
- JsonTemplate.PromptExampleImports is stated over any text before and after the embedded template, not the literal prompt prose.
- The annotated template (comments with limits) is modelled only through the quoted limits it shows.
- Fetching the context sets in the selector, the public filter and the alert on failure are left out. Submit receives the attach outcome as a flag.
- Search debounce, the user search request, click-outside handling and the hover highlight (`onMouseEnter` setting the highlighted index, `src/components/email-chip-input.tsx:166`) in the e-mail input are left out. The search results arrive as calls (`OnSuggestions`, `OnSearchFailed`).
- The listing's search and visibility filters are query-builder calls to the database and are left out; only paging and counts are modelled.
- The middleware decodes with `atob`, a parameter that returns none where `atob` throws. A header with a lower-case scheme is refused, as in the source.

## Findings

| source | as written | input that shows it | evidently intended | confidence | as-written member | corrected member |
|---|---|---|---|---|---|---|
| src/lib/hooks/useSessionTranscribe.ts:120-175 | When a translation-only batch completes a pending original, the target language is computed from that batch's own source language. A translation-only batch has no original token, so its source is undefined, and in two-way mode the target is always language A. | Two-way en/vi: final `hello` (en) and then final `xin chào` (vi) emits source `en`, target `en`. | The target is the other language of the pending original's source: `vi`. | not executed | Transcribe.TwoWayPairingAsWritten | Transcribe.PairedTargetOppositeIntended |
