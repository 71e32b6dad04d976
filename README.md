# Drag2Anki_JP, modelled in Dafny

Drag2Anki_JP is a browser extension. It looks up Japanese (or English) text
the user selects, enriches it from several providers (Jisho, an LLM, DeepL,
kanjiapi.dev, a hanja dictionary, a Firestore cache of earlier answers), and
saves it as an Anki note through AnkiConnect without creating duplicates.

This project models the deterministic core of the extension and proves what
it promises:

- `utils.dfy`: the script classifiers `isKanaOnly` and `isJapaneseTextOnly`,
  bracket removal, and `safeValue` over `Promise.allSettled` results.
- `dom.dfy`: the selection handler's decision (truncate to 1000 characters, counted as code points,
  normalise, show or hide), the Escape key, and style injection.
- `hanja.dfy`: the memoised dictionary loaders and the two-step hanja lookup.
- `build_jp_kr_json.dfy`: the Python line parser that builds the
  simplified→traditional table.
- `settings.dfy`: the defaults and the stored-settings merge that strips a
  truthy `fieldMapping` or `noteType`.
- `word_cache.dfy`: the 24-hour word cache of `loadWordInfo`.
- `api.dfy`: the lookup pipeline. It covers the furigana failure value, the
  `뜻:` label parse, the word/sentence fallback chain of `fetchLLMMeaning`,
  the per-kanji chain of `fetchKanjiData`, and the cached, settle-all
  `loadWordInfo`.
- `anki_notes.dfy`: field-role resolution (`pickByAliases`,
  `resolveFieldMapping`) and the notes `createAnkiNote` and
  `createKanjiAnkiNote` build.
- `anki_flow.dfy`: the content script's Anki client. It covers the reply
  wrappers, `addNoteToAnki`'s classification, the memoised field mapping, and
  the check → preview → keep or (delete → add) flows of `saveToAnki` and
  `saveKanjiToAnki`.
- `background.dfy`: the background page. It covers the `CHECK_DUPLICATE_EXACT`,
  `GET_EXISTING_BY_FRONT`, `ADD_TO_ANKI` and `GET_MODEL_FIELDS` handlers
  against a scripted AnkiConnect, the `onInstalled` migration, and the
  DeepL proxy endpoint choice.
- `replies.dfy`: the reply objects of those handlers, read back through the
  content script's wrappers.
- `legacy_content.dfy`: the older stand-alone content script `content.js`.
- `strings.dfy`, `js.dfy`, `wrappers.dfy`: the string primitives, JavaScript
  values with truthiness, and `Option`/`Result`.

External services are parameters. Every AnkiConnect or background answer
comes from a function of the request and its position in the call history,
and a class records the calls in order. Providers are function-typed
fields, the Firestore store is a value threaded through the pipeline, and
the clock is a `now` argument.

Where the code and its documentation differ, the model follows the code:

- `loadWordInfo` caches empty results as well, and there is no shared cache
  tier.
- `generateFurigana` yields `''` on failure, not the input text.
- `GET_EXISTING_BY_FRONT` falls back to the first note the search found even
  when none matches exactly (`ExactNotePreferred`, `FirstHitWhenNoneExact`).
- When a duplicate is found after an add, the save does not restart the
  check.
- The kanji flow checks `${kanji.kanji} [한자]` untrimmed, while the note's
  front is trimmed.

## Model

Functions that only compute what an operation means (`SelectionEffect`, `Merge`,
`Trim`, the `*Run` functions of the background page, the `*Json` reply objects,
`Events` and the like) have no row of their own: the row of the lemma or
method that states their properties names them.

| member | source | states |
|---|---|---|
| Utils.AllInClass | src/content/utils.js:4 | a predicate holds of a string exactly when it holds of every character |
| Utils.IsKanaOnly | src/content/utils.js:3-5 | true iff the text is non-empty and every character is hiragana or katakana |
| Utils.IsJapaneseTextOnly | src/content/utils.js:7-11 | true iff the text is non-empty and every character is kana, a kanji in U+4E00–U+9FAF, `(` or `)` |
| Utils.KanaOnlyIsJapaneseOnly | src/content/utils.js:3-11 | kana-only text is Japanese-only text |
| Utils.JapaneseOnlyPrefix | src/content/dom.js:17-18 | every non-empty prefix of Japanese-only text is Japanese-only, so truncation keeps the class |
| Utils.RemoveJapaneseParens | src/content/utils.js:13-17 | the output is no longer than the input and holds no bracket |
| Utils.RemoveParensAppend | src/content/utils.js:15 | the removal distributes over concatenation, so order is kept |
| Utils.RemoveParensNoParens | src/content/utils.js:15 | text without brackets is returned unchanged |
| Utils.RemoveParensIdempotent | src/content/utils.js:15 | removing twice is removing once |
| Utils.RemoveParensCounts | src/content/utils.js:15 | each non-bracket character survives as often as it occurred; brackets do not survive |
| Utils.RemoveParensOfJapanese | src/content/utils.js:9-15 | on Japanese-only text, only kana and kanji remain |
| Utils.SafeValue | src/content/utils.js:19-24 | the value is passed on iff the result is fulfilled, the value is truthy and its `error` is falsy; otherwise null |
| Utils.SafeValueOfPlainObject | src/content/utils.js:19-24 | a fulfilled object without `error` is passed through |
| Utils.SafeValueOfRejected | src/content/utils.js:19-24 | a rejected or missing result gives null |
| Dom.ShowIff | src/content/dom.js:15-23 | `SelectionEffect`, the intended decision with the English-only classifier as a parameter, shows the popup exactly for non-empty text that is Japanese-only or English-only |
| Dom.ShownIsPrefix | src/content/dom.js:17 | the shown text is the first min(length, 1000) characters |
| Dom.JapaneseSelectionNormalized | src/content/dom.js:18 | a Japanese-only shown text is passed on without brackets |
| Dom.OtherSelectionUnchanged | src/content/dom.js:18 | other text is passed on unchanged |
| Dom.SelectionEffectAsWritten | src/content/dom.js:15 | the decision as written throws exactly for non-empty text that is not Japanese-only, because `isEnglishTextOnly` is not defined; otherwise it shows exactly non-empty text |
| Dom.AsWrittenAgreesWhenNoThrow | src/content/dom.js:15-23 | where the handler as written does not throw, it decides as `SelectionEffect` does for any English classifier |
| Dom.EnglishSelectionThrows | src/content/dom.js:15 | `cat` makes the handler as written throw, while the intended handler shows it |
| Dom.Page.constructor | src/content/dom.js:1-5 | no effects yet, the given head and the English-only classifier the intended handler uses |
| Dom.Page.HandleTextSelection | src/content/dom.js:7-44 | a click inside the popup does nothing; the search-box text (trimmed) and a selection each add the effect `SelectionEffect` decides, the intended behaviour (see Findings) |
| Dom.Page.HandleKeyDown | src/content/dom.js:47-51 | Escape adds a hide effect; any other key changes nothing |
| Dom.Page.HandleDocumentClick | src/content/dom.js:53-57 | a click outside an open popup adds a hide effect; any other click changes nothing |
| Dom.Page.InjectStyles | src/content/dom.js:59-69 | the head becomes `WithStyles` of the old head |
| Dom.WithStyles | src/content/dom.js:59-69 | the style id is present afterwards; a head that has it is unchanged; otherwise the old head is kept in order and the style element is appended |
| Dom.InjectStylesIdempotent | src/content/dom.js:60-62 | injecting twice is injecting once |
| Dom.InjectStylesAddsAtMostOne | src/content/dom.js:59-69 | exactly one style element is added when none is present, none otherwise |
| Hanja.Lookup | src/content/hanja.js:28-32 | a direct entry wins; otherwise the entry of the mapped traditional form; null exactly when neither exists; a result is a dictionary entry |
| Hanja.HanjaStore.constructor | src/content/hanja.js:4-13 | both dictionaries unloaded, nothing fetched |
| Hanja.HanjaStore.LoadJpSimpToKrTradDict | src/content/hanja.js:5-10 | a loaded table is returned without fetching; otherwise exactly one fetch of the mapping file |
| Hanja.HanjaStore.LoadHanjaDict | src/content/hanja.js:14-21 | a loaded dictionary is returned without fetching; otherwise one fetch, after which the mapping is loaded too |
| Hanja.HanjaStore.GetHanjaInfo | src/content/hanja.js:24-33 | succeeds iff both files load, and then answers `Lookup`; nothing is fetched when both are loaded |
| Hanja.RepeatedLookupFetchesOnce | src/content/hanja.js:5-21 | two lookups in a row fetch each file once |
| BuildJpKrJson.LStrip | data/build_jp_kr_json.py:16-17 | the result is a suffix of the input that does not start with whitespace |
| BuildJpKrJson.RStrip | data/build_jp_kr_json.py:16-17 | the result is a prefix of the input that does not end with whitespace |
| BuildJpKrJson.StripIsSlice | data/build_jp_kr_json.py:16-17 | `Strip` (`strip()`) gives a slice with whitespace at neither end |
| BuildJpKrJson.AfterPrefix | data/build_jp_kr_json.py:12 | the rest after a fixed prefix, exactly when the line starts with it |
| BuildJpKrJson.AfterGroup | data/build_jp_kr_json.py:12 | the group `([^\]]+)` is non-empty, holds no `]` and is followed by `)]` |
| BuildJpKrJson.MatchCells | data/build_jp_kr_json.py:11-14 | the two groups, each non-empty and free of `]`, when the line has the two-cell form |
| BuildJpKrJson.ParseLine | data/build_jp_kr_json.py:11-14 | `re.match` with the wiki-table pattern gives the two captured groups |
| BuildJpKrJson.ParseLineOfCells | data/build_jp_kr_json.py:11-14 | every line built from the pattern parses back to its two groups, whatever follows |
| BuildJpKrJson.ParseLineSound | data/build_jp_kr_json.py:11-14 | a line parses only if it is built from the pattern |
| BuildJpKrJson.Entry | data/build_jp_kr_json.py:15-18 | a matching line contributes (stripped second group, stripped first group) |
| BuildJpKrJson.Entries | data/build_jp_kr_json.py:10-18 | one contribution per line, in order |
| BuildJpKrJson.BuildMapping | data/build_jp_kr_json.py:7-23 | the loop builds `MappingOf(lines)` and reports its number of keys |
| BuildJpKrJson.FoldKeys | data/build_jp_kr_json.py:18 | `Fold`: a key is present iff some contribution has it |
| BuildJpKrJson.FoldLastWins | data/build_jp_kr_json.py:18 | a key's value comes from the last contribution with that key |
| BuildJpKrJson.MappingLastWins | data/build_jp_kr_json.py:10-18 | a later line with the same simplified form overwrites the earlier value |
| BuildJpKrJson.NonMatchingLinesIgnored | data/build_jp_kr_json.py:15 | a line that does not match leaves the dictionary as it was |
| BuildJpKrJson.CountIsDistinctKeys | data/build_jp_kr_json.py:23 | the count equals the number of distinct simplified keys among the matching lines |
| Settings.StripLocked | src/content/settings.js:21-38 | drops exactly the truthy `fieldMapping`/`noteType`; every other key is kept with its value |
| Settings.MergeKeepsLockedKey | src/content/settings.js:36-39 | `Merge`: a truthy stored `fieldMapping` or `noteType` is discarded and the current value survives |
| Settings.MergeFalsyLockedOverrides | src/content/settings.js:36-39 | a falsy stored `noteType` such as `''` overrides |
| Settings.MergeKeepsAbsentKey | src/content/settings.js:39 | a key the stored object lacks keeps its value |
| Settings.MergeOverridesOtherKey | src/content/settings.js:39 | every other stored key overrides |
| Settings.MergeIdempotent | src/content/settings.js:39 | merging the same stored object twice is merging it once |
| Settings.DefaultsKeepLockedKeys | src/content/settings.js:3-16 | the defaults hold note type `Basic` and the Front/Back/Reading/Kanji mapping |
| Settings.MergePreservesLockedKeys | src/content/settings.js:21-39 | a merge keeps the note type `Basic` and the field mapping the default, unless a falsy stored value replaced them |
| Settings.SettingsStore.constructor | src/content/settings.js:3-16 | the settings start as the defaults |
| Settings.SettingsStore.LoadSettings | src/content/settings.js:30-44 | stored settings are merged with stripping, none leaves them alone; it always resolves with the current settings |
| Settings.SettingsStore.OnChanged | src/content/settings.js:19-28 | a sync change to `drag2anki_settings` is merged with the same stripping; any other change is ignored |
| WordCache.Fresh | src/content/api.js:264-269 | an entry is served iff caching is on, the key is present and it is younger than 24 hours |
| WordCache.Store | src/content/api.js:294-299 | with caching on, the key is stamped with `now`; other keys keep their entries; with caching off nothing changes |
| WordCache.StoreThenFresh | src/content/api.js:264-299 | what was stored is served for the next 24 hours |
| WordCache.ExpiredNeverServed | src/content/api.js:266 | an entry 24 hours old or older is never served |
| WordCache.StoreOtherKey | src/content/api.js:295 | storing under one key does not change what another key serves |
| Api.GetWord | src/content/api.js:210 | a record exactly when the word functions reach the store and it knows the word (the intended import) |
| Api.SetWord | src/content/api.js:231 | the word reads back as written when the word functions reach the store; nothing changes otherwise; other words and the kanji collection are unchanged |
| Api.GetKanji | src/content/api.js:36 | a record exactly when the kanji functions reach the store and it knows the kanji |
| Api.SetKanji | src/content/api.js:83 | the kanji reads back as written when the kanji functions reach the store; other kanji and the word collection are unchanged |
| Api.GenerateFurigana | src/content/api.js:97-117 | the converter's hiragana, or `''` on any failure |
| Api.ParseLLMMeaningAfterLabel | src/content/api.js:174-175 | `ParseLLMMeaning` gives the text after the first `뜻:` label, trimmed, whatever precedes the label |
| Api.ParseLLMMeaningWithoutLabel | src/content/api.js:175 | content without the label is returned whole |
| Api.ParseLLMMeaningRoundTrip | src/content/api.js:131-175 | an answer in the prompt's format `뜻:\n<meaning>` gives back the meaning |
| Api.CallLLMForWordMeaning | src/content/api.js:119-177 | resolves iff the request does, with the parsed answer |
| Api.FetchLLMMeaning | src/content/api.js:199-256 | fails iff tokenizing fails; otherwise tokenize and furigana come first, and the reading is the generated one or a stored one |
| Api.WordReadings | src/content/api.js:214 | holds every non-empty reading stored for a word |
| Api.LLMCalledOnlyAsFallback | src/content/api.js:207-253 | the LLM is asked only on a word miss, or for a sentence DeepL left empty |
| Api.DbWrittenOnlyOnWordMiss | src/content/api.js:220-237 | only a word missing from the store is written; on that miss the run returns the generated reading with the LLM's parsed answer (`WordMeaning`), or `''` when the LLM threw, and writes exactly that record |
| Api.WordDbHit | src/content/api.js:209-215 | a store hit returns the stored meaning, with the stored reading unless it is empty, and asks no LLM |
| Api.SecondWordLookupHitsDb | src/content/api.js:209-237 | after a miss is written, the next lookup of the word is served from the store |
| Api.WordStoreUnreachable | src/content/api.js:209-237 | as written (the word functions cannot be reached), every single word asks the LLM, returns the generated reading with the LLM's answer or `''`, and stores nothing |
| Api.SecondWordLookupAsksLLMAgain | src/content/api.js:209-237 | as written, a word looked up twice asks the LLM both times |
| Api.LookupWithoutTokenizerRejects | src/content/api.js:199-201 | when `tokenize` always throws, as it does when not defined, every lookup rejects after that one call, asking neither the store nor the LLM |
| Api.SentenceFallback | src/content/api.js:238-255 | `SentenceMeaning`: a sentence gets DeepL's translation when non-empty, else the LLM's answer or `''` |
| Api.KanjiOf | src/content/api.js:27 | `text.match(/[一-龯]/g) || []`: only kanji, and no more of them than the text has characters |
| Api.KanjiOfAppend | src/content/api.js:27 | the kanji list of joined text is the joined lists |
| Api.KanjiOfExact | src/content/api.js:27 | kanji-only text is its own list; text without kanji has none |
| Api.KoreanFromLLM | src/content/api.js:59-76 | the reading is `<br>[일본 한자]` and the meaning is non-empty; a failed LLM gives the placeholder |
| Api.KanjiRun | src/content/api.js:30-88 | one entry per kanji |
| Api.KanjiDbHitShortCircuits | src/content/api.js:35-41 | a stored kanji is returned from the store; nothing else is consulted or written |
| Api.KanjiKoreanChain | src/content/api.js:46-87 | `KanjiStep` on a miss: `korean` comes from the hanja dictionary, else the LLM, else the placeholder; the entry is written back |
| Api.RepeatedKanjiSameEntry | src/content/api.js:30-87 | the same kanji twice gets the same entry twice |
| Api.FetchKanjiData | src/content/api.js:26-91 | with both dictionaries present, the entries are `KanjiRun` of the kanji, one per kanji |
| Api.LLMMeaningToJs | src/content/api.js:214-254 | the resolved object is truthy and has no `error` |
| Api.KanjiDataToJs | src/content/api.js:57-72 | `korean` is set on the object, overriding kanjiapi's |
| Api.KanjiListToJs | src/content/api.js:90 | an array with one object per entry |
| Api.LLMSlot | src/content/api.js:273-289 | settled through `Settle`, a resolved `fetchLLMMeaning` fills its slot; a rejected one empties only its own |
| Api.KanjiSlot | src/content/api.js:288 | a resolved `fetchKanjiData` fills its slot, even with no kanji |
| Api.WordInfoLoader.constructor | src/content/api.js:14-18 | empty cache, no word info, nothing displayed |
| Api.WordInfoLoader.LoadWordInfo | src/content/api.js:258-309 | a fresh cache entry is displayed as is; otherwise each slot is `safeValue` of its provider and the result is stored, stamped with the clock read after the providers, when caching is on |
| AnkiNotes.FirstEqual | src/content/anki.js:73 | the first field equal to the alias ignoring case, or none exactly when no field is |
| AnkiNotes.FirstContaining | src/content/anki.js:78 | the first field containing the alias ignoring case, or none exactly when no field does |
| AnkiNotes.ExactPass | src/content/anki.js:71-75 | the hit of some alias's exact search; none iff no alias has an exact hit |
| AnkiNotes.ContainsPass | src/content/anki.js:76-80 | the hit of the earliest alias whose substring search hits; none iff no alias has one |
| AnkiNotes.PickByAliases | src/content/anki.js:68-82 | a result is one of the fields, in its own casing |
| AnkiNotes.PickPrefersExact | src/content/anki.js:71-80 | an exact hit beats every substring hit, and the earliest alias with an exact hit decides |
| AnkiNotes.PickNoneIff | src/content/anki.js:68-82 | null iff no field equals or contains any alias, ignoring case |
| AnkiNotes.OrElse | src/content/anki.js:94 | `x || y` on a field name |
| AnkiNotes.SecondOrFirst | src/content/anki.js:95 | `fields[1] || fields[0]` is one of the fields |
| AnkiNotes.ResolveFromFields | src/content/anki.js:86-102 | with fields, word and meaning are fields and reading/kanji are their alias picks; without fields, the settings mapping |
| AnkiNotes.ResolveWord | src/content/anki.js:89-94 | a non-empty alias hit names the word field, else the first field |
| AnkiNotes.ResolveMeaningFallback | src/content/anki.js:90-95 | without an alias hit the meaning is the second field when non-empty, else the first |
| AnkiNotes.ResolveBasic | src/content/anki.js:89-95 | for fields `Front`, `Back` the word is `Front` and the meaning `Back` |
| AnkiNotes.WordReading | src/content/anki.js:331-336 | the LLM reading when truthy, else Jisho's first reading (`JishoReading`), else `''` |
| AnkiNotes.JishoReading | src/content/anki.js:333-335 | `japanese[0].reading`: the first entry's reading for a non-empty list, `undefined` where the read would throw |
| AnkiNotes.BuildWordNote | src/content/anki.js:315-336 | `createAnkiNote` with `currentWordInfo` possibly `null`: no note exactly when `wordInfo` is `null` or the Jisho fallback reads `[0]` or `.reading` of `null`/`undefined` (`JishoThrows`); otherwise the note `CreateAnkiNote` builds |
| AnkiNotes.WordBack | src/content/anki.js:323-341 | `reading\n\nmeaning` for non-English, non-kana text with a reading; the meaning alone otherwise |
| AnkiNotes.CreateAnkiNote | src/content/anki.js:315-357 | deck-scoped, no duplicates allowed, tag `drag2anki`; exactly the word and meaning fields; the word field holds the text and the meaning field `WordBack` with line breaks as `<br>` |
| AnkiNotes.WordMeaningFieldHasNoNewline | src/content/anki.js:344 | the meaning field holds no raw line break |
| AnkiNotes.WordMeaningFieldWithReading | src/content/anki.js:338-344 | with a reading, the meaning field is `reading<br><br>meaning` |
| AnkiNotes.WordReadingPrefersLLM | src/content/anki.js:331-336 | the LLM reading is used even when Jisho has another |
| AnkiNotes.WordMeaningFieldPlain | src/content/anki.js:328-341 | kana-only text or an English answer gets the meaning alone |
| AnkiNotes.Readings | src/content/anki.js:537-541 | one part per element of a reading array, a string element as itself; no array reads as no readings |
| AnkiNotes.KanjiBackEmptyIff | src/content/anki.js:532-542 | `KanjiBack` is empty iff the Korean meaning and reading are falsy and there are no on or kun readings |
| AnkiNotes.KanjiBackEndsWithBreak | src/content/anki.js:532-543 | a non-empty back field ends with `<br>` |
| AnkiNotes.CreateKanjiAnkiNote | src/content/anki.js:525-562 | deck-scoped with tags `drag2anki`, `kanji`; the front is the trimmed kanji plus ` [한자]`; reading and kanji fields appear only when mapped |
| AnkiNotes.KanjiFrontShape | src/content/anki.js:529 | the front ends with ` [한자]`; it does not start with whitespace unless the kanji is blank |
| AnkiNotes.KanjiNoteOfFetchedEntry | src/content/anki.js:533-534 | for an entry of `fetchKanjiData`, the first line of the back is its Korean meaning, then its reading after a space when non-empty |
| AnkiFlow.Answer | src/content/anki.js:119-126 | resolves, with the property, exactly when the answer succeeded; a missing answer rejects with the fallback text |
| AnkiFlow.ClassifyAdd | src/content/anki.js:366-381 | success, then invalid fields (`InvalidFieldsMessage`), then duplicate, then rejection with the error or `Anki 저장 오류` |
| AnkiFlow.InvalidFieldsNullName | src/content/anki.js:259 | the field list is `join(', ')`, so a `null` field name shows as nothing: `[null, "Front"]` lists as `, Front` |
| AnkiFlow.ModelFieldsOf | src/content/anki.js:55-66 | one name per element of a successful array answer; `[]` for any other answer |
| AnkiFlow.RejectMessage | src/content/anki.js:306 | a string reason is itself; else a truthy `message` as a string (a non-empty string as itself, a positive number in decimal); else `네트워크 오류` |
| AnkiFlow.DefaultRejectIsNotNetwork | src/content/anki.js:306-307 | the Korean default message does not match `/fetch\|network\|failed/i` |
| AnkiFlow.NoteErrorIsNotNetwork | src/content/anki.js:304-311 | the `TypeError` a `null` word info raises in `createAnkiNote` does not match `/fetch\|network\|failed/i`, so the outer catch shows the generic error |
| AnkiFlow.DeleteReply | src/content/anki.js:149-159 | `deleteNotes` resolves with `true` exactly when the answer succeeded, otherwise rejects with its error or `노트 삭제 오류` |
| AnkiFlow.Diagnosis | src/content/anki.js:23-29 | a truthy answer is the diagnosis; a missing one is replaced by a failure object, so the diagnosis is always truthy |
| AnkiFlow.ConnectivityMessage | src/content/anki.js:31-43 | a working connection shows the base message, or the generic one without it; otherwise the help text naming the configured URL |
| AnkiFlow.DeckFilter | src/content/anki.js:118 | the empty deck name stands for no filter |
| AnkiFlow.CancelNeverDeletes | src/content/anki.js:213-217 | when the user keeps the note, nothing is deleted and nothing is sent after the preview |
| AnkiFlow.DeleteThenAdd | src/content/anki.js:197-212 | a deletion happens only on confirm, and only the add or the final feedback follows it |
| AnkiFlow.RetryOutcome | src/content/anki.js:204-207 | a confirm handler shows success iff its add resolved with `ok` (likewise lines 231, 277-282, 452-458, 490-494); the kanji handlers give kanji feedback |
| AnkiFlow.RetryFailed | src/content/anki.js:208-212 | a rejected delete or add shows a failure, on the kanji button for the kanji flow (lines 459-460, 495-496) |
| AnkiFlow.Kept | src/content/anki.js:213-217 | keeping the existing note shows a failure (`이미 저장됨`), on the kanji button for the kanji flow |
| AnkiFlow.KanjiCatchOutcome | src/content/anki.js:515-521 | a network-like rejection (`IsNetworkMessage`) shows `Anki 연결 실패`, any other `Anki 오류` |
| AnkiFlow.KanjiDiagnosisOutcome | src/content/anki.js:509-514 | a failed diagnosis shows `Anki 연결 실패`, a working one `저장 실패` |
| AnkiFlow.AnkiClient.constructor | src/content/anki.js:53 | an empty field cache and log |
| AnkiFlow.AnkiClient.FieldFor | src/content/anki.js:115 | the override when set, else the settings' word field |
| AnkiFlow.AnkiClient.ReplaceOutcome | src/content/anki.js:274-282 | the feedback is a success iff the add was accepted |
| AnkiFlow.AnkiClient.ModalSafe | src/content/anki.js:197-217 | the preview keeps the protocol, adds only its note (none when the note cannot be built after the deletion), shows success only after an accepted add, follows an accepted deletion with the add when the note is built, and starts with the preview |
| AnkiFlow.AnkiClient.LookupSafe | src/content/anki.js:220-242 | the same for the lookup of the note to preview |
| AnkiFlow.AnkiClient.WordCatchSafe | src/content/anki.js:304-312 | the catch of `saveToAnki` is safe |
| AnkiFlow.AnkiClient.AddedSafe | src/content/anki.js:255-256 | an accepted add followed by any feedback is safe |
| AnkiFlow.AnkiClient.FallbackSafe | src/content/anki.js:220-247 | the add after a failed lookup is safe |
| AnkiFlow.AnkiClient.WordDuplicateSafe | src/content/anki.js:191-248 | the duplicate branch of `saveToAnki` is safe, with or without a buildable note |
| AnkiFlow.AnkiClient.WordAdditionSafe | src/content/anki.js:250-302 | the clean-check branch of `saveToAnki` is safe |
| AnkiFlow.AnkiClient.WordCheckRejectedSafe | src/content/anki.js:304-312 | a rejected duplicate check is safe |
| AnkiFlow.AnkiClient.WordCheckResolvedSafe | src/content/anki.js:189-302 | an answered duplicate check is safe |
| AnkiFlow.AnkiClient.WordCheckSafe | src/content/anki.js:186-312 | every run of `saveToAnki`, including one whose note cannot be built (`null` `currentWordInfo`), keeps the protocol (where a confirmed deletion is followed by the add or by the feedback alone), adds only the word's note and none when it cannot be built, shows success only after an accepted add, and starts with the duplicate check; when the note is built, every accepted deletion is followed by its add |
| AnkiFlow.AnkiClient.UnbuiltNoteDeletesWithoutAdd | src/content/anki.js:197-212 | as written: with no buildable note, a duplicate found by the check and the lookup and confirmed by the user is deleted, the deletion is accepted, and only `삭제 후 저장 실패` follows, with no add |
| AnkiFlow.AnkiClient.BuildFirstReAdds | src/content/anki.js:250 | with the note built before the check, as the branch at line 250 does, every run keeps the protocol and no accepted deletion goes without the add |
| AnkiFlow.AnkiClient.KanjiAdditionSafe | src/content/anki.js:475-514 | the add branch of `saveKanjiToAnki` is safe |
| AnkiFlow.AnkiClient.KanjiCheckSafe | src/content/anki.js:442-522 | every run of `saveKanjiToAnki` keeps the protocol, adds only the kanji's note, and shows success only after an accepted add |
| AnkiFlow.AnkiClient.KanjiCheckDuplicateSafe | src/content/anki.js:443-474 | the duplicate branch of `saveKanjiToAnki` is safe |
| AnkiFlow.AnkiClient.KanjiCheckCleanSafe | src/content/anki.js:475-514 | the clean-check branch of `saveKanjiToAnki` is safe |
| AnkiFlow.AnkiClient.Send | src/content/anki.js:109-176 | the message is logged and answered by the background at its position |
| AnkiFlow.AnkiClient.Show | src/content/anki.js:385-434 | the feedback is logged |
| AnkiFlow.AnkiClient.MappingEvents | src/content/anki.js:85-86 | at most one message, and never an add |
| AnkiFlow.AnkiClient.Memoised | src/content/anki.js:103-104 | the model maps to the resolved mapping; a memoised cache is unchanged |
| AnkiFlow.AnkiClient.ResolveFieldMapping | src/content/anki.js:84-106 | the memoised mapping without a message, or one `GET_MODEL_FIELDS` and the mapping from its answer, memoised |
| AnkiFlow.AnkiClient.ShowConnectivityHelp | src/content/anki.js:31-43 | a diagnosis request, then the matching message |
| AnkiFlow.AnkiClient.CatchWordError | src/content/anki.js:304-312 | a network-like reason leads to the connectivity help, any other to the generic error |
| AnkiFlow.AnkiClient.ShowPreview | src/content/anki.js:197-217 | the log grows by the preview's `Events` |
| AnkiFlow.AnkiClient.LookupAndPreview | src/content/anki.js:224-242 | the log grows by the lookup's events |
| AnkiFlow.AnkiClient.AddAfterFailedLookup | src/content/anki.js:220-247 | the log grows by the fallback's events |
| AnkiFlow.AnkiClient.WordOnDuplicate | src/content/anki.js:191-248 | the log grows by the duplicate branch's events |
| AnkiFlow.AnkiClient.AddWord | src/content/anki.js:250-302 | the log grows by the add branch's events |
| AnkiFlow.AnkiClient.SaveWord | src/content/anki.js:186-312 | the log grows by the events of the check and what follows |
| AnkiFlow.AnkiClient.SaveSafe | src/content/anki.js:178-313 | every save, of a word or a kanji, whatever the answers and the user's decision, and whether or not the word's note can be built, keeps the protocol, adds only its note and shows success only after an accepted add; a save whose note is built follows every accepted deletion with the add |
| AnkiFlow.AnkiClient.SaveToAnki | src/content/anki.js:178-313 | with `currentWordInfo` as `info` (`None` while it is `null`), the log grows by `WordSaveEvents`, whose note is `BuildWordNote`'s, and the field cache is memoised for the note type |
| AnkiFlow.AnkiClient.SaveWordWith | src/content/anki.js:186-312 | the save once the mapping is known, for a `null` word info as well |
| AnkiFlow.AnkiClient.AddKanji | src/content/anki.js:475-514 | the log grows by the kanji add branch's events |
| AnkiFlow.AnkiClient.SaveKanji | src/content/anki.js:441-522 | the log grows by the kanji check's events; the check is made on `KanjiCheckText` |
| AnkiFlow.AnkiClient.SaveKanjiToAnki | src/content/anki.js:437-523 | the log grows by `KanjiSaveEvents` and the field cache is memoised |
| AnkiFlow.AnkiClient.SaveKanjiWith | src/content/anki.js:441-522 | the kanji save once the mapping is known |
| AnkiFlow.AnkiClient.SaveComposes | src/content/anki.js:183-184 | the mapping's events followed by the save's events are the whole save |
| Background.IdList | src/background.js:186-188 | the ids of an array answer, element by element |
| Background.Length | src/background.js:188 | `.length` of an array or a string |
| Background.Restriction | src/background.js:171-172 | the deck or note-type restriction is empty exactly when no deck or note type is given |
| Background.ExactQueryShape | src/background.js:171-173 | `ExactQuery` ends with `field:F:"text"`, starts with the deck part exactly when a deck is given, and is the bare field clause without deck and model |
| Background.FindIgnoreCase | src/background.js:158 | the first string equal to the name ignoring case; a miss iff no element before the end matches; a non-string throws |
| Background.FirstNamed | src/background.js:205-206 | the first field whose name equals the name ignoring case, none iff no field does |
| Background.ValueOf | src/background.js:207 | `''` for a missing key; the first field's value for its name |
| Background.ResolvedKey | src/background.js:205-206 | the primary name itself, or a field name equal to it ignoring case |
| Background.ExactMatchOfPlainField | src/background.js:204-210 | `IsExactMatch`: for a field without markup the match is equality of the trimmed texts; a prefix or substring does not match |
| Background.AnyNote | src/background.js:204 | `some` holds iff a note satisfies the test |
| Background.AnyMatch | src/background.js:204-224 | a duplicate iff some note matches the text exactly |
| Background.Filter | src/background.js:449-455 | the kept notes satisfy the test, come from the input, and the first is the first matching note |
| Background.Choose | src/background.js:456 | `candidates[0] || res[0] || null`: no note iff there are neither candidates nor notes |
| Background.TruthyIds | src/background.js:460 | `.map(n => n.noteId || n.id).filter(Boolean)`: every id kept is truthy |
| Background.CardInDeck | src/background.js:475 | a card of the wanted deck; none iff no card is in it |
| Background.NoteWithId | src/background.js:479 | a note with the wanted id; none iff no note has it |
| Background.PickInDeck | src/background.js:475-480 | the note of the first card in the deck, when the notes hold it |
| Background.Names | src/background.js:493 | the field names in order |
| Background.OtherThan | src/background.js:497 | the first key that differs from the given one |
| Background.BackKey | src/background.js:496-497 | the model's second field when truthy (a non-string one throws), else a field named `back` ignoring case, else the first field other than the front, else `Back` |
| Background.BackResolved | src/background.js:498 | a field name equal to the back key ignoring case, else the key |
| Background.ClassifyError | src/background.js:250-270 | field-error text (`LooksLikeFieldError`) first, then `duplicate` or a `null` result, else a plain failure |
| Background.FieldErrorWinsOverDuplicate | src/background.js:251-254 | a message naming both a field and a duplicate is a field error |
| Background.NullResultIsDuplicate | src/background.js:251 | a `null` result is a duplicate even without the word, unless it looks like a field error |
| Background.DeepLEndpoint | src/background.js:100-101 | the English path exactly for `sourceLanguage === 'EN'` |
| Background.ListOr | src/background.js:608-613 | `Array.isArray(v) ? v : []` |
| Background.FrontName | src/background.js:274 | the first field name, else `Front` |
| Background.ExactMatches | src/background.js:449-455 | the notes matching exactly, in order |
| Background.FrontMatches | src/background.js:299-303 | the notes whose field, tags removed and trimmed, equals the front |
| Background.AddBackKey | src/background.js:333-338 | a field named `back`, else the first field other than the front |
| Background.PrimaryFrom | src/background.js:147-164 | the field name is kept or replaced by the model's name for it; no such field iff the list is non-empty and lacks it |
| Background.Migration | src/background.js:15-40 | the install defaults when nothing is stored; an object without `deeplApiKey` gets `deeplApiKey: ''` and keeps the rest; an object with it is not rewritten |
| Background.MigrationSettles | src/background.js:15-40 | a migrated object is left alone the next time |
| Background.MigrationKeepsOtherKeys | src/background.js:35-38 | every other stored key keeps its value |
| Background.SyncStorage.constructor | src/background.js:15 | the stored value, no writes |
| Background.SyncStorage.OnInstalled | src/background.js:11-42 | writes exactly `Migration` of the stored value when it is something, nothing otherwise |
| Background.BackgroundPage.constructor | src/background.js:97 | no calls yet |
| Background.BackgroundPage.Call | src/background.js:174-183 | the action is sent and answered at its position |
| Background.BackgroundPage.ResolvePrimaryField | src/background.js:147-169 | the result and the calls of `PrimaryRun` |
| Background.BackgroundPage.RefineRun | src/background.js:458-487 | at most two calls; a changed choice is one of the notes, found through the cards |
| Background.BackgroundPage.RefineByDeck | src/background.js:458-487 | the result and the calls of `RefineRun` |
| Background.BackgroundPage.DeckRun | src/background.js:503-526 | `findCards` first; a deck only after both calls |
| Background.BackgroundPage.DeckOfNote | src/background.js:502-526 | the result and the calls of `DeckRun` |
| Background.BackgroundPage.PickRun | src/background.js:456-487 | no choice iff no candidate and no note; without a deck, `Choose` with no call |
| Background.BackgroundPage.PickNote | src/background.js:456-487 | the result and the calls of `PickRun` |
| Background.BackgroundPage.SearchExact | src/background.js:170-226 | the result and the calls of `SearchRun` |
| Background.BackgroundPage.CheckDuplicateExact | src/background.js:140-233 | the reply and the calls of `CheckRun` |
| Background.BackgroundPage.Describe | src/background.js:493-538 | the reply and the calls of `DescribeRun` |
| Background.BackgroundPage.ChooseExisting | src/background.js:447-492 | the reply and the calls of `ChooseRun` |
| Background.BackgroundPage.LookUp | src/background.js:416-439 | the reply and the calls of `LookupRun` |
| Background.BackgroundPage.ReadNotes | src/background.js:441-446 | the reply and the calls of `NotesRun` |
| Background.BackgroundPage.GetExistingByFront | src/background.js:383-545 | the reply and the calls of `ExistingRun` |
| Background.BackgroundPage.Summarise | src/background.js:333-366 | the lookup and the calls of `SummaryRun` |
| Background.BackgroundPage.ChooseDuplicate | src/background.js:297-331 | the lookup and the calls of `DuplicateChoiceRun` |
| Background.BackgroundPage.InspectDuplicates | src/background.js:290-296 | the lookup and the calls of `DuplicateInfoRun` |
| Background.BackgroundPage.FindDuplicate | src/background.js:271-289 | the lookup and the calls of `DuplicateLookupRun`, which searches `DuplicateQuery` |
| Background.BackgroundPage.ReportError | src/background.js:248-371 | the reply and the calls of `ErrorRun` |
| Background.BackgroundPage.AddToAnki | src/background.js:234-382 | the reply and the calls of `AddRun` |
| Background.BackgroundPage.GetModelFields | src/background.js:597-617 | the reply and the calls of `ModelFieldsRun` |
| Background.BackgroundPage.NoSuchFieldNoSearch | src/background.js:156-162 | a model lacking the field ends both handlers after the field lookup: not a duplicate, no existing note, no search |
| Background.BackgroundPage.NoHitsNotDuplicate | src/background.js:186-191 | an empty or missing search result is "not a duplicate" and no note is read |
| Background.BackgroundPage.NoHitsNoExisting | src/background.js:428-434 | an empty or missing search result gives `result: null` and no note is read |
| Background.BackgroundPage.DuplicateIffExactMatch | src/background.js:192-226 | with notes found, the reply is a duplicate iff one matches the text exactly |
| Background.BackgroundPage.SameSearchInBothHandlers | src/background.js:171-173 | for a trimmed text both handlers send the same search |
| Background.BackgroundPage.DescribedFront | src/background.js:493-499 | the front described is the value of the field the search was made on |
| Background.BackgroundPage.ExactNotePreferred | src/background.js:449-456 | without a deck, an exact match is described and its front matches the text |
| Background.BackgroundPage.FirstHitWhenNoneExact | src/background.js:456 | without a deck and without an exact match, the first note found is described |
| Background.BackgroundPage.FieldErrorNotDuplicate | src/background.js:251-269 | a field-error message gives invalid fields even with a `null` result |
| Background.BackgroundPage.AddWithoutError | src/background.js:373 | an answer without error is a success carrying the result, with nothing else sent |
| Background.BackgroundPage.DuplicateFrontMatches | src/background.js:299-304 | without a deck, when a note's front matches, the existing note's front is that field and matches |
| Background.BackgroundPage.ModelFieldsNormalised | src/background.js:597-617 | no model name: an error and nothing sent; a list result is passed on and any other becomes `[]` |
| Replies.SummaryRead | src/background.js:529-537 | the content script reads back from `SummaryJson` the id, front, back and deck it was sent |
| Replies.CheckReplyRead | src/background.js:226-229 | `checkDuplicateExact` resolves with the verdict of `CheckJson` and rejects with its error |
| Replies.FrontReplyRead | src/background.js:529-541 | `getExistingByFront` resolves with the summary in `FrontJson` or `null` and rejects with the error |
| Replies.AddReplyRead | src/background.js:371-377 | read from `AddJson`, a success resolves with the id, invalid fields carry the model data, a failure rejects with its message or the wrapper's text |
| Replies.DuplicateReplyRead | src/background.js:285-369 | a duplicate reaches `addNoteToAnki` with its existing note, `null` or nothing |
| Replies.FieldsReplyRead | src/background.js:609-612 | `fetchModelFields` yields the names in `FieldsJson`, or `[]` for a failure |
| Replies.FieldErrorReachesContent | src/background.js:251-269 | a field error with a `null` result reaches the content script as invalid fields |
| LegacyContent.IsJapaneseText | content.js:93-96 | true iff some character is kana or a kanji |
| LegacyContent.JapaneseTextAppend | content.js:93-96 | Japanese text joined with anything is still Japanese text |
| LegacyContent.ContainsIsNotOnly | content.js:93-96 | weaker than `isJapaneseTextOnly`: a Latin letter next to a kanji passes only this test |
| LegacyContent.CreateAnkiNote | content.js:406-419 | deck and model from the settings, tag `drag2anki`, the four mapped fields in order |
| LegacyContent.KoreanMeaningAppended | content.js:409 | the meaning field is the plain meaning iff there is no Korean meaning; otherwise `<br>` and it are appended |
| LegacyContent.Collected | content.js:258-273 | no more answers than kanji |
| LegacyContent.CollectedFromFetches | content.js:262-269 | every answer kept is the answer for one of the kanji |
| LegacyContent.CollectedAllAnswered | content.js:262-269 | when no fetch throws, one answer per kanji |
| LegacyContent.Translation | content.js:227-230 | without an OpenAI key the translation resolves with `null`, so its slot is empty |
| LegacyContent.ContentScript.constructor | content.js:8-27 | default settings, empty cache |
| LegacyContent.ContentScript.FetchKanjiData | content.js:258-273 | the answers kept for the kanji of the text, in order |
| LegacyContent.ContentScript.LoadWordInfo | content.js:176-219 | a fresh entry is shown; otherwise the settled providers, stored with the clock read after them when caching is on |
| LegacyContent.ContentScript.KanjiSlotAlwaysFilled | content.js:194-200 | the kanji slot always holds the list of answers collected, even an empty one; without an OpenAI key the translation slot is empty |
| LegacyContent.ContentScript.SaveToAnki | content.js:350-374 | the outcome and the messages of `SaveRun`: the check on `DuplicateQuery`, `LengthAboveZero` of its answer, then the add |
| LegacyContent.ContentScript.AddOnlyAfterCleanCheck | content.js:355-362 | a note is added only after a check that found nothing, and it is the settings' note |
| LegacyContent.ContentScript.SuccessIffAdded | content.js:362-368 | success iff a note was added and the answer is truthy |
| Strings.TrimStartShape | src/background.js:208 | `TrimStart` (`trimStart`) leaves a suffix that does not start with whitespace |
| Strings.TrimStartDropsWhitespace | src/background.js:208 | what `trimStart` drops is whitespace |
| Strings.TrimEndShape | src/background.js:208 | `TrimEnd` (`trimEnd`) leaves a prefix that does not end with whitespace |
| Strings.TrimEndDropsWhitespace | src/background.js:208 | what `trimEnd` drops is whitespace |
| Strings.TrimIsSlice | src/background.js:208-209 | `Trim` (`trim`) gives a slice of the input with whitespace at neither end |
| Strings.TrimIdempotent | src/background.js:390 | trimming twice is trimming once |
| Strings.TrimOfTrimmed | src/background.js:209 | a string with whitespace at neither end is its own trim |
| Strings.Lower | src/content/anki.js:70 | same length; no ASCII capital remains |
| Strings.LowerIdempotent | src/background.js:158 | lower-casing twice is lower-casing once |
| Strings.IndexOf | src/content/anki.js:78 | the first occurrence; none iff `sub` does not occur |
| Strings.ContainsIffIndexOf | src/content/anki.js:78 | `includes` and `indexOf` agree |
| Strings.ContainsSelf | src/content/anki.js:73-78 | a field equal to an alias also contains it |
| Strings.NewlinesToBr | src/content/anki.js:344 | no line break remains; text without one is unchanged |
| Strings.NewlinesToBrAppend | src/content/anki.js:543 | the replacement distributes over concatenation |
| Strings.IndexOfChar | src/background.js:208 | the first position holding the character |
| Strings.StripTags | src/background.js:208 | the output is never longer than the input; what it removes is stated by the lemmas below |
| Strings.StripTagsPlain | src/background.js:208 | text without `<` is unchanged |
| Strings.StripTagsTagFree | src/background.js:208 | the output holds no complete tag |
| Strings.StripTagsRemovesTag | src/background.js:208 | a complete tag `<t>` is removed with its contents, and the text before it is kept |
| Strings.StripTagsUnclosed | src/background.js:208 | a `<` with no `>` after it is kept, with the rest of the text |
| Strings.Join | src/content/anki.js:538 | no parts give `''`; one part is itself |
| Strings.JoinAppend | src/content/anki.js:538 | one more part is appended after the separator, so the parts appear in order separated by it |
| Js.Prop | src/background.js:207 | a missing property reads as `undefined` |
| Js.Spread | src/content/settings.js:39 | every key of the second object overrides; other keys survive |
| Js.Or | src/content/anki.js:95 | the first operand when truthy, else the second |
| Js.ToStr | src/background.js:250 | `String(v)`: a string is itself; a number is its decimal digits, with `-` when negative, and reads back as the number; an empty array is `''` |
| Js.DigitsRoundTrip | src/background.js:250 | the decimal digits of a number read back as that number |
| Js.ToStrArrayAppend | src/background.js:250 | an array's string is its earlier elements' string, a comma, and the last element's string (`''` for `null` and `undefined`) |
| Js.ToStrSingleton | src/background.js:250 | a one-element array reads as its element's string |

## Left out

- Network, storage and browser I/O are left out: `fetch`, `chrome.runtime.sendMessage` and `chrome.storage` become answer functions of the request and its position. The Firebase and proxy clients reduce to get/put on a value, with separate reachability for the word and kanji functions. `testAnkiConnection`, `fetchWithCORS`, tab, command and notification listeners are not modelled.
- The pass-through handlers `DELETE_NOTES`, `GET_DECK_NAMES`, `CHECK_DUPLICATE` and `PROXY_OPENAI` are not modelled; only their replies, as the content script reads them, are.
- Background.BackgroundPage.RefineByDeck: the `findCards` query `nid:a or nid:b` is modelled by the list of ids it names, not as text.
- `notesInfo` and `cardsInfo` answers are typed records (`NoteInfo`, `CardInfo`), not arbitrary JSON. A malformed answer is one failure, and the text of a `TypeError` is not modelled.
- Request fields of the background handlers are strings. A non-string `text` or `deckName` is not modelled, and `ADD_TO_ANKI` takes the `params.note` form only.
- Note fields are a map, so the key order of a JavaScript object is not modelled. Neither is the order in which `createAnkiNote` writes fields beyond "a later write of the same name wins".
- Strings.Lower: only ASCII letters are folded; `toLowerCase` on other scripts is not modelled.
- Strings.Trim uses a fixed whitespace set (the ECMAScript white space and line terminators); Unicode category lookup is not modelled.
- Kuroshiro, kuromoji, `tokenize` and `isSingleWord` are uninterpreted functions. `src/content/utils.js` defines neither `tokenize` nor `isSingleWord`, which `api.js` imports from it. As written, `fetchLLMMeaning` therefore rejects at `api.js:200`: that is the Err case of `Api.FetchLLMMeaning` (see Findings and `Api.LookupWithoutTokenizerRejects`).
- Api.WordDbHit: models the intended import of `getWordFromDB`. `./firebase` does not export it, so as written every read throws and is caught, and no hit occurs (see Findings).
- Api.SecondWordLookupHitsDb: models the intended import of the word functions. As written the second lookup asks the LLM again (`Api.SecondWordLookupAsksLLMAgain`).
- Api.DbWrittenOnlyOnWordMiss: models the intended import of `setWordToDB`. As written the write throws, is caught, and nothing is stored (`Api.WordStoreUnreachable`).
- Api.GetWord: a reachable word store is the intended import. As written the word functions are never reachable (`wordsUp` false).
- Api.SetWord: as for `Api.GetWord`, a write lands only under the intended import.
- The build script's file reading, its `print`, and the key order `json.dump` writes (dictionary insertion order) are not modelled. `BuildJpKrJson.MappingOf` is a `map`, which has no order.
- Dom.Page.HandleTextSelection: models the evidently intended handler, with the English-only classifier as a parameter. `src/content/utils.js` defines no `isEnglishTextOnly`, so the handler as written throws for non-empty text that is not Japanese-only; `Dom.SelectionEffectAsWritten` models that (see Findings). What the intended classifier accepts is not known.
- Dom.ShownIsPrefix: `text.length` and `substring(0, 1000)` count UTF-16 code units, while `SelectionEffect` counts characters (code points). The two agree on Japanese-only text, whose classes are all in the Basic Multilingual Plane, and differ for text with characters outside it, such as emoji.
- Dom.ShowIff: states the intended decision for an arbitrary English-only classifier, not the throw of the code as written.
- AnkiNotes.WordReading: a truthy non-string reading reads as `''`. Where `wordInfo.jisho.japanese[0].reading` throws, `WordReading` reads no reading; that throw is modelled by `AnkiNotes.BuildWordNote` instead, which yields no note there.
- AnkiFlow.NoteError: the `TypeError` of a note that cannot be built carries Chrome's message for a `null` word info. The Jisho throw's message differs, and its own lack of `fetch`, `network` and `failed` is not proved.
- AnkiNotes.Readings: a truthy `on_readings` or `kun_readings` that is not an array reads as no readings. The source calls `join` on it, which throws for a value without `join` or uses that value's own `join`.
- Concurrency is not modelled: the `Promise.allSettled` fan-out is three independent results, and races between lookups, or between the check and the add, are not modelled.
- `getSelectedTextWithoutRuby`, popup rendering, the duplicate modal's DOM, pixel geometry, timers and the settings forms are DOM work and are not modelled. The user's answer to a preview is a parameter.
- `src/content/googleSearch.js`, `src/content/index.js`, `webpack.config.js` and `translation/` are not part of this model.
- In `content.js`, these are not modelled: `loadSettings` and the settings-change listener (a plain spread, without the stripping of `src/content/settings.js`), the selection, key and click handlers and `toggleExtension`, the popup, `getCurrentWordInfo`'s DOM read (its four texts are a parameter), `darkMode`, `fontSize` and `shortcut`. The model's settings stay at their defaults.
- LegacyContent.ContentScript.SaveToAnki: `duplicateCheck.length > 0` is modelled for arrays and strings; the coercion of another value's `length` is not.

## Findings

| source | as written | input that shows it | evidently intended | confidence | as-written member | corrected member |
|---|---|---|---|---|---|---|
| src/content/dom.js:3 | `isEnglishTextOnly` is imported from `./utils`, which does not export it, and called at lines 15 and 31 for every non-empty text that is not Japanese-only | the selection `cat`: the call through the missing import throws a `TypeError`, so neither `showPopup` nor `hidePopup` runs | an English-only classifier decides: English text is shown, any other text hides the popup | high; not executed | Dom.EnglishSelectionThrows | Dom.ShowIff |
| src/content/api.js:11 | `getWordFromDB` and `setWordToDB` are imported from `./firebase`, which exports only the kanji functions, so the calls at lines 210 and 231 throw and are caught | the single word 猫 looked up twice: the LLM is asked both times and nothing is stored | a word answer is stored once and served from the store afterwards | high; not executed | Api.SecondWordLookupAsksLLMAgain | Api.SecondWordLookupHitsDb |
| src/content/anki.js:200-202 | the pre-check confirm handler deletes the existing note first and builds the new one afterwards with `createAnkiNote(text, wordInfo, …)`; `wordInfo` is `currentWordInfo`, `null` until `loadWordInfo` succeeds (api.js:14, 302), and the save button works as soon as the popup exists | the user saves 猫 before its lookup finishes, with 猫 already in the deck, and confirms the preview: the existing card is deleted, building the note throws, and `삭제 후 저장 실패` shows with nothing added | build the note before anything is deleted, as the branch without a duplicate does at line 250, so no accepted deletion goes without the add | high; not executed | AnkiFlow.AnkiClient.UnbuiltNoteDeletesWithoutAdd | AnkiFlow.AnkiClient.BuildFirstReAdds |
| src/content/api.js:9 | `tokenize` and `isSingleWord` are imported from `./utils`, which defines neither, so `await tokenize(text)` at line 200 throws | any text, for example 猫: `fetchLLMMeaning` rejects and the LLM slot of the popup stays empty | the text is tokenized and the word or sentence branch runs | high; not executed | Api.LookupWithoutTokenizerRejects | Api.LLMCalledOnlyAsFallback |
