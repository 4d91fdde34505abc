# tts-job-service: a Dafny model of its record-keeping core

The service takes text to be read aloud and records the work in four places:
- a RequestItem row,
- a text file in object storage,
- a ledger of RequestItemLog entries,
- a queue of background jobs.

Processing a request fans its text out:
- one TextItemPart per chunk,
- one AudioItemPart per (chunk, voice),
- one AudioItem per voice.

The older single-voice TTSItem path sits alongside. This project models:
- that record-keeping,
- the pure helpers it relies on: the voice catalog, request-option validation, output-format canonicalisation, `cleanString` and `textToSSML`.

It proves the properties the code promises about them.

The state is one immutable `World` value (`records.dfy`) with these parts:
- storage as a `map<string, string>`,
- a map per table,
- an append-only ledger,
- an append-only queue of `Dispatch` entries, each a job kind plus a delay.

Operations are pure functions from a world to a world. Where the PHP code loops, the model uses methods with loop invariants: `process`, `createItem` and `createItems`.

Inputs the code takes from outside become parameters:
- **Randomness** is a `Seed`: either the 16 bytes given to `bin2hex`, or the 16 pool indices of the fallback path.
- **The text splitter** (`TextToSpeech::getTextRequestParts`) is `split: string -> seq<string>`, with no property assumed.
- **`strip_tags`** is a predicate `tagged` that picks which characters to drop.
- **Voice-key lookup** is a function parameter in `VoiceKeys` and `RequestItems.CreateItemWith`. `RequestItems.CreateItem` and `TtsItems.CreateItems` fix it to the catalog lookup.

PHP's semantics are written out where they matter:
- **Truthiness:** null, `""` and `"0"` are falsy (`PhpStrings.Truthy`).
- **`switch`:** it compares with loose `==`, so an empty-string status matches `case null:` and leaves the status unchanged.
- **`intval`:** it reads leading whitespace, a sign and a digit run.
- **`str_replace`:** it scans left to right and never rescans a replacement.
- **Eloquent mutators:** they run in the order of the mass-assignment array.

`app/Models/TTSItem.php:137` overwrites the name with the unique id. Because of this, `TtsItems.SetName` ignores its argument, as the code does.

`app/Models/RequestItem.php:152-156` passes the status and log-type arguments of `updateLogAndStatus` in swapped order on the "could not be split" path. `RequestItems.Process` models the call as written:
- the status stays `Pending`,
- a `warning` entry "Can't set status to 'error'" is logged,
- the message is then logged as type `log`.

## Model

| member | source | states |
|---|---|---|
| VoiceCatalog.VoiceDataByKey | app/Helpers/TextToSpeech.php:171-179 | a record is returned exactly for keys present in the catalog, and it is that key's record |
| VoiceCatalog.VoiceNameByKey | app/Helpers/TextToSpeech.php:157-163 | a name is returned exactly for catalog keys; it is that voice's non-empty name; otherwise null |
| VoiceCatalog.CatalogKeys16 | app/Helpers/TextToSpeech.php:210-309 | the catalog's keys are exactly 1..16 |
| VoiceCatalog.CatalogNamesInvert | app/Helpers/TextToSpeech.php:210-309 | every voice's name leads back to its own key, so the sixteen names are distinct |
| VoiceCatalog.PreferredVoices | app/Helpers/TextToSpeech.php:210-309 | the preferred voices are exactly keys 3, 4, 10 and 12 |
| VoiceCatalog.NameDeterminesKey | app/Helpers/TextToSpeech.php:157-163 | two keys that resolve to the same name are the same key |
| OutputFormat.Normalize | app/Models/RequestItem.php:300-320 | the stored format is always one of mp3, ogg, pcm |
| OutputFormat.NormalizeCases | app/Models/RequestItem.php:303-317 | after lowercasing: mp3 gives mp3; ogg_vorbis or ogg gives ogg; pcm gives pcm; anything else, null included, gives mp3 |
| OutputFormat.CanonicalIsFixed | app/Models/RequestItem.php:305-316 | a canonical format is stored unchanged |
| OutputFormat.NormalizeIdempotent | app/Models/RequestItem.php:300-320 | normalising twice equals normalising once |
| OutputFormat.NormalizeIgnoresCase | app/Models/RequestItem.php:303 | the input's letter case does not affect the result |
| PhpStrings.IntValOfDecimal | app/Models/RequestItem.php:88 | `intval` reads back the decimal spelling of every natural number, so catalog keys written in decimal select their voice |
| UniqueId.GenerateId | app/Models/RequestItem.php:384-403 | the id is 32 lowercase hex digits from random bytes, or 16 pool characters on the fallback path; it is never falsy |
| UniqueId.HexRoundTrip | app/Models/RequestItem.php:390 | `bin2hex` loses nothing: decoding the hex gives back the bytes |
| UniqueId.DistinctBytesDistinctIds | app/Models/RequestItem.php:390 | different random bytes give different ids |
| UniqueId.EnsureId | app/Models/RequestItem.php:384-403 | a truthy id is kept; otherwise a generated one is used; the result is truthy |
| StoragePaths.KeepOrDerive | app/Models/RequestItem.php:367-376 | a truthy path is kept, and a falsy one is replaced by the derived key |
| StoragePaths.TextFileKeyRoundTrip | app/Models/RequestItem.php:372-374 | the unique id can be read back from its `text/<id>.txt` key |
| StoragePaths.TextFileKeyInjective | app/Models/RequestItem.php:372-374 | different ids give different text-file keys |
| TextToSpeech.ValidateRequestOptions | app/Helpers/TextToSpeech.php:69-88 | null iff Text or VoiceId is missing or falsy; otherwise exactly the keys Text, OutputFormat, TextType and VoiceId, with given values (a present null included) passed through and defaults mp3/ssml only for absent keys |
| TextToSpeech.PresentNullNotDefaulted | app/Helpers/TextToSpeech.php:77-78 | an OutputFormat that is present but null stays null, while an absent TextType takes the default ssml |
| TextToSpeech.ValidateIdempotent | app/Helpers/TextToSpeech.php:69-88 | validating validated options changes nothing |
| TextToSpeech.ValidateIgnoresOtherKeys | app/Helpers/TextToSpeech.php:73-87 | keys other than the four request keys do not affect the result |
| TextToSpeech.OutputFormatsTable | app/Helpers/TextToSpeech.php:111-119 | the table has the three keys mp3, ogg_vorbis and pcm (the duplicate mp3 collapses), each mapping to the extension format normalisation gives |
| TextCleaner.TrimLeft | app/Helpers/TextToSpeech.php:128 | `trim` removes exactly the leading run of trim characters |
| TextCleaner.TrimRight | app/Helpers/TextToSpeech.php:128 | `trim` removes exactly the trailing run of trim characters |
| TextCleaner.TrimIsSlice | app/Helpers/TextToSpeech.php:128 | the trimmed text is a slice of the input that neither starts nor ends with a trim character |
| TextCleaner.ReplaceClosers | app/Helpers/TextToSpeech.php:128 | after the first pattern no `:` remains, and the text is no longer |
| TextCleaner.ReplaceClosersSkipsPlain | app/Helpers/TextToSpeech.php:128 | text without `:` or `<` passes the first pattern unchanged |
| TextCleaner.ClosersBecomeCommas | app/Helpers/TextToSpeech.php:128 | `:`, `</li>` and `</p>` each become one `,` |
| TextCleaner.EntityLength | app/Helpers/TextToSpeech.php:128 | a match of the entity pattern is an `&`, an optional `#`, letters or digits, then `;` |
| TextCleaner.EntityLengthOfEntity | app/Helpers/TextToSpeech.php:128 | the entity pattern matches a whole entity token at the scan position |
| TextCleaner.RemoveEntities | app/Helpers/TextToSpeech.php:128 | removing entities only deletes characters |
| TextCleaner.RemoveEntitiesPlain | app/Helpers/TextToSpeech.php:128 | text without `&` is left as it is |
| TextCleaner.EntityDeleted | app/Helpers/TextToSpeech.php:128 | an `&name;` or `&#NN;` token at the scan position is removed entirely |
| TextCleaner.RemoveEntitiesSkipsPlain | app/Helpers/TextToSpeech.php:128 | text without `&` before the rest is kept as is |
| TextCleaner.EntityAfterPlainDeleted | app/Helpers/TextToSpeech.php:128 | an entity after plain text is removed and the plain text kept |
| TextCleaner.SpacesToBlankPointwise | app/Helpers/TextToSpeech.php:128 | each whitespace character becomes one space; all other characters are kept in place |
| TextCleaner.RunsAreNotCollapsed | app/Helpers/TextToSpeech.php:128 | every run of whitespace characters, of any length, becomes a run of blanks of the same length |
| TextCleaner.StripTags | app/Helpers/TextToSpeech.php:128 | tag stripping only deletes characters |
| TextCleaner.CleanString | app/Helpers/TextToSpeech.php:127-129 | the cleaned text has no `:`, is no longer than the trimmed input, and its only whitespace is the space |
| Ssml.TextToSsml | app/Helpers/TextToSpeech.php:137-145 | the output is the fixed speak prefix, then the replaced text, then the fixed suffix |
| Ssml.ApplyAllAbsent | app/Helpers/TextToSpeech.php:140-142 | if no search string of the table occurs, the loop changes nothing |
| Ssml.PlainTextIsOnlyWrapped | app/Helpers/TextToSpeech.php:137-145 | text containing no table key is only wrapped |
| Ssml.ApplyAllPrefix | app/Helpers/TextToSpeech.php:140-142 | the table applies entry by entry: the first n entries, then the rest |
| Ssml.ParenthesisedSentence | app/Helpers/TextToSpeech.php:186-202 | the entries apply in order, so `(x).` becomes `<s>(x)</s>` with the period dropped |
| Ssml.AcronymSpelledOut | app/Helpers/TextToSpeech.php:186-202 | `EPPP` becomes `E Triple P` |
| RequestItemLog.ParseType | app/Models/RequestItemLog.php:37-59 | a string is a valid type exactly when it names one of the nine types |
| RequestItemLog.TypeNameRoundTrip | app/Models/RequestItemLog.php:13-49 | each of the nine types is valid and parses back to itself |
| RequestItemLog.ValidTypesAreNames | app/Models/RequestItemLog.php:57-59 | `isValidType` holds exactly for the nine type names |
| RequestItemLog.ResolveType | app/Models/RequestItemLog.php:177 | a valid requested type is recorded as given; a null or unknown one is recorded as `log` |
| RequestItemLog.AddMessage | app/Models/RequestItemLog.php:173-198 | earlier entries are kept; the result is true exactly when the save succeeds, and then one entry {id, type, message} is appended; otherwise nothing changes |
| RequestItemLog.Named | app/Models/RequestItemLog.php:75-165 | each named logger records an entry whose type is its own name |
| RequestItemLog.LedgerOnlyGrows | app/Models/RequestItemLog.php:180-186 | two messages in a row appear in call order after the earlier entries |
| Records.ParseStatus | app/Models/RequestItem.php:417-423 | a string is accepted exactly when it names one of the four statuses |
| Records.StatusNameRoundTrip | app/Models/RequestItem.php:25-28 | each status name parses back to that status |
| VoiceKeys.NameOfKey | app/Models/RequestItem.php:88 | a key resolves exactly when its `intval` is a catalog key |
| VoiceKeys.ResolveVoiceKeys | app/Models/RequestItem.php:87-95 | the loop keeps the valid names in key order and emits one message per invalid key, in key order |
| VoiceKeys.ResolveSnoc | app/Models/RequestItem.php:87-95 | one more key adds that key's name or that key's message, at the end |
| VoiceKeys.KeysPartition | app/Models/RequestItem.php:87-95 | every key yields exactly one name or one message |
| VoiceKeys.NoNamesAllRejected | app/Models/RequestItem.php:87-97 | there are no valid names exactly when every key was rejected |
| VoiceKeys.NamesComeFromLookup | app/Models/RequestItem.php:88-93 | every kept name is what some key resolved to |
| VoiceKeys.NamesAreCatalogNames | app/Models/RequestItem.php:88-93 | every kept name is a catalog voice's name |
| VoiceKeys.NamesAppend | app/Models/RequestItem.php:87-95 | keys are resolved independently, in order |
| VoiceKeys.MessagesAppend | app/Models/RequestItem.php:87-95 | messages are produced independently, in order |
| VoiceKeys.DecimalKeySelectsVoice | app/Models/RequestItem.php:88-93 | a catalog key written in decimal selects its voice and produces no message |
| VoiceKeys.UnknownKeyRejected | app/Models/RequestItem.php:88-91 | a key whose `intval` is not in the catalog produces exactly the message "Voice 'k' is invalid." |
| RequestItems.EnsureUniqueId | app/Models/RequestItem.php:384-403 | a truthy id is kept; otherwise a generated id is stored; nothing else changes |
| RequestItems.SetUniqueId | app/Models/RequestItem.php:251-254 | the setter ignores the value given and only ensures an id |
| RequestItems.GetUniqueId | app/Models/RequestItem.php:261-264 | the getter returns a truthy id and leaves it stored |
| RequestItems.SetUniqueIdIgnoresValue | app/Models/RequestItem.php:251-254 | any two values given to the setter have the same effect |
| RequestItems.UniqueIdSetOnce | app/Models/RequestItem.php:384-403 | once set, the id never changes, whatever the randomness |
| RequestItems.GeneratedIdShape | app/Models/RequestItem.php:390-402 | a fresh id is 32 hex digits, or 16 pool characters on the fallback path |
| RequestItems.SetOutputName | app/Models/RequestItem.php:271-277 | a truthy name is stored; a falsy one falls back to the unique id |
| RequestItems.GetOutputName | app/Models/RequestItem.php:284-293 | the getter never returns a falsy name; without one it returns and stores the unique id |
| RequestItems.OutputNameRoundTrip | app/Models/RequestItem.php:271-293 | reading after setting a truthy name gives that name, and gives the unique id otherwise |
| RequestItems.SetOutputFormat | app/Models/RequestItem.php:300-320 | the stored format is canonical and no other field changes |
| RequestItems.SetOutputFormatIdempotent | app/Models/RequestItem.php:300-320 | setting the stored format again changes nothing |
| RequestItems.GenerateTextFilePath | app/Models/RequestItem.php:367-376 | a truthy path is kept; otherwise it becomes `text/<unique id>.txt` |
| RequestItems.TextFilePathSetOnce | app/Models/RequestItem.php:42-45 | saving again never changes an existing text-file key |
| RequestItems.DerivedTextFileNamesId | app/Models/RequestItem.php:372-374 | a derived text-file key names the item's own unique id |
| RequestItems.SetTextFile | app/Models/RequestItem.php:337-340 | the setter stores the path and changes nothing else |
| RequestItems.SavingKeepsSetPath | app/Models/RequestItem.php:367-376 | a truthy path set before saving survives the save |
| RequestItems.Delete | app/Models/RequestItem.php:47-64 | the row is removed, the text file's key is dropped from storage when present, and nothing else changes |
| RequestItems.DeleteKeepsOtherKeys | app/Models/RequestItem.php:47-64 | every other storage key keeps its value |
| RequestItems.UpdateLogAndStatus | app/Models/RequestItem.php:412-436 | only that row's status and the ledger change; a valid status is assigned; a null or unknown one is kept; an unknown one logs one warning first; exactly one message entry is appended, with a null or unknown type recorded as `log` |
| RequestItems.UpdateLogAndStatusEntries | app/Models/RequestItem.php:412-436 | one or two entries are appended, the second only for an unknown status |
| RequestItems.ValidStatusAssigned | app/Models/RequestItem.php:417-423 | each of the four status names is assigned |
| RequestItems.AudioPartsLayout | app/Models/RequestItem.php:160-194 | n chunks and V voices give n·|V| parts; part k belongs to chunk k div |V| and voice k mod |V|, with null status |
| RequestItems.ProcessQueueLayout | app/Models/RequestItem.php:160-210 | the queue a successful `process` leaves: the old jobs, then one undelayed job per part in chunk-major, voice-minor order, then one finalize job per voice delayed 5·n |
| RequestItems.CreateParts | app/Models/RequestItem.php:160-194 | chunk i gets a text part with content parts[i]; audio parts and their jobs follow index-major, voice-minor |
| RequestItems.CreateAudioItems | app/Models/RequestItem.php:196-210 | one audio item per voice in order, each with a finalize job of the given delay |
| RequestItems.InitiateStep | app/Models/RequestItem.php:129-132 | starting sets Pending and logs the initiation message |
| RequestItems.EmptyTextStep | app/Models/RequestItem.php:138-145 | empty text sets Failed and logs one `error` entry |
| RequestItems.SplitFailedStep | app/Models/RequestItem.php:151-158 | with the swapped arguments, status is unchanged and a warning precedes a `log` entry |
| RequestItems.Process | app/Models/RequestItem.php:124-213 | the four outcomes: an exception on a missing text file; empty text gives Failed and no children; an empty split gives Pending and no children; otherwise the text parts, the audio parts, the audio items and the jobs are appended in order, the finalize jobs delayed 5·n, the status stays Pending and the result is true |
| RequestItems.NewRequestItem | app/Models/RequestItem.php:100-108 | the mutators run in array order: the id is generated, a falsy name falls back to it, the format is normalised and the text-file key derived |
| RequestItems.CreateItemWith | app/Models/RequestItem.php:77-117 | one message per invalid key; no valid key means no row, no file and no job, and false; otherwise the cleaned text is stored, the row saved and one process job queued |
| RequestItems.CreateItem | app/Models/RequestItem.php:77-117 | the same, with keys resolved through the catalog |
| RequestItems.CreatedItemIsSaved | app/Models/RequestItem.php:97-113 | the new row has a truthy unique id and text-file key, and its text-file key holds the cleaned text |
| PartQueries.Where | app/Models/AudioItem.php:32 | a query returns only matching parts and is no longer than the table |
| PartQueries.WhereMembers | app/Models/AudioItem.php:32 | a part is returned exactly when it is in the table and matches |
| PartQueries.WhereAppend | app/Models/AudioItem.php:32 | querying a concatenated table concatenates the results, in insertion order |
| PartQueries.WhereAll | app/Models/TextItemPart.php:33 | a table whose every part matches is returned whole |
| PartQueries.WhereNone | app/Models/TextItemPart.php:33 | a table with no matching part gives nothing |
| PartQueries.CountUnprocessed | app/Models/AudioItem.php:45-51 | the count is positive exactly when some part's status is not Processed |
| AudioItems.GetAudioItemParts | app/Models/AudioItem.php:30-36 | exactly the parent's parts for the item's voice; empty without a parent |
| AudioItems.HaveAudioItemPartsBeenProcessed | app/Models/AudioItem.php:43-56 | true iff the parent exists and some part for that voice has a status other than Processed |
| AudioItems.NoPartsNotProcessed | app/Models/AudioItem.php:44-55 | false without a parent, or with no parts for the voice |
| AudioItems.ReportedPartIsUnprocessed | app/Models/AudioItem.php:45-51 | when true, some part for the voice has a status other than Processed |
| AudioItems.CreatedPartsHaveNullStatus | app/Models/RequestItem.php:178-182 | the parts `process` creates have no status |
| AudioItems.FalseRightAfterProcess | app/Models/AudioItem.php:45-51 | while the voice's parts still have a null status, the check is false |
| AudioItems.Process | app/Models/AudioItem.php:59-67 | processing an audio item changes nothing |
| TextItemParts.Fill | app/Models/TextItemPart.php:12 | mass assignment keeps exactly the fillable attributes |
| TextItemParts.ProcessColumnsFillable | app/Models/TextItemPart.php:12 | the three columns `process` writes are all kept |
| TextItemParts.GetAudioItemParts | app/Models/TextItemPart.php:31-37 | exactly the parent's parts with the same chunk index, for every voice; empty without a parent |
| TextItemParts.LaterIndexAbsent | app/Models/TextItemPart.php:33 | chunks past those created have no parts |
| TextItemParts.IndexPartsOfProcess | app/Models/TextItemPart.php:33 | among the created parts, chunk i has exactly one part per voice, listed in insertion order, which is voice order |
| TextItemParts.PartsAfterProcess | app/Models/TextItemPart.php:31-37 | after `process`, a text part's query gives one part per requested voice |
| TtsItems.EnsureUniqueId | app/Models/TTSItem.php:275-294 | a truthy id is kept; otherwise a generated one is stored; nothing else changes |
| TtsItems.SetName | app/Models/TTSItem.php:131-138 | the stored name is always the unique id |
| TtsItems.SetNameIgnoresArgument | app/Models/TTSItem.php:131-138 | the name argument has no effect |
| TtsItems.SetOutputFormat | app/Models/TTSItem.php:145-165 | the stored format is canonical and nothing else changes |
| TtsItems.SameFormatAsRequestItem | app/Models/TTSItem.php:145-165 | the result matches RequestItem's normalisation and setting it twice changes nothing |
| TtsItems.GenerateTextFilePath | app/Models/TTSItem.php:242-251 | a truthy path is kept; otherwise it becomes `text/<unique id>.txt` |
| TtsItems.GenerateAudioFilePath | app/Models/TTSItem.php:258-267 | a truthy path is kept; otherwise it becomes `audio/<unique id>.<format>` |
| TtsItems.Saving | app/Models/TTSItem.php:32-35 | after saving both paths are truthy, and existing ones are kept |
| TtsItems.SavingSetsPathsOnce | app/Models/TTSItem.php:32-35 | saving again changes nothing |
| TtsItems.GenerateAudio | app/Models/TTSItem.php:222-235 | the status always ends Failed and the result is true; the save's hook derives any missing text or audio path, so an already saved item changes only its status |
| TtsItems.GenerateAudioNeverProcesses | app/Models/TTSItem.php:222-235 | the status is never Processed, and generating again, whatever the randomness, changes nothing |
| TtsItems.Delete | app/Models/TTSItem.php:37-53 | the row is removed and the text and audio keys dropped when present; no other key changes |
| TtsItems.NewTtsItemFromMutators | app/Models/TTSItem.php:88-94 | the mutators in array order produce the item the model saves: its name is the unique id |
| TtsItems.SaveAll | app/Models/TTSItem.php:87-102 | saving the items advances the id counter by their number and touches only storage, the item table and the queue |
| TtsItems.SaveAllSnoc | app/Models/TTSItem.php:87-102 | the items are saved one at a time, in order |
| TtsItems.SaveAllStorage | app/Models/TTSItem.php:96 | each item's text key holds the cleaned text; other keys are unchanged |
| TtsItems.SaveAllRows | app/Models/TTSItem.php:97 | each item is stored under its id, and older rows are kept |
| TtsItems.SaveAllQueue | app/Models/TTSItem.php:100 | one TTS job per item is queued, in order |
| TtsItems.CreateItems | app/Models/TTSItem.php:66-106 | one message per invalid key; no valid key means the world is unchanged and no items; otherwise one saved item per valid voice, in order |
| TtsItems.CreateEach | app/Models/TTSItem.php:87-102 | the loop builds and saves one item per name, in order |
| TtsItems.NewItemsShape | app/Models/TTSItem.php:88-94 | item k has the next id plus k, voice names[k], status Created, name equal to its unique id and a text-file key |
| TtsItems.CreatedItemsStored | app/Models/TTSItem.php:87-102 | after createItems every new row and its text are stored, older rows and other storage keys are kept, and the queue gains one job per item |

## Left out

- `app/Helpers/S3Storage.php` is not part of this model. Storage is a `map<string, string>`, and a read of a missing key is the exception `process` raises.
- Polly calls (`sendRequest`, `getPollyClient`) and their guards are network I/O.
- `isTextTooLong` applies `sizeof` to a string, which does not count characters. `MAX_REQUEST_CHARS` is not enforced anywhere.
- `getTextRequestParts` is not part of this model. It is the parameter `split`, so no chunk-size or round-trip property is claimed.
- TextCleaner.StripTags: `strip_tags`'s tag grammar is not modelled. The parameter `tagged` chooses which characters are dropped, so only "deletes characters" is stated.
- `AudioItemPart::process` and `RequestItemStringPart` are stubs or constants only.
- Job classes are queue entries with a delay. There are no retries, timeouts or concurrency.
- Controllers, routes and migrations are HTTP mapping and schema. Field names follow the model code, not the migrations.
- AudioItemPart declares no `$fillable` (`app/Models/AudioItemPart.php:15` is commented out), so under Eloquent's default `$guarded = ['*']` it is totally guarded, and `new AudioItemPart([...])` at `app/Models/RequestItem.php:178` throws unless models are unguarded somewhere outside these files. RequestItems.Process's fan-out outcome assumes they are. AudioItem's fillable list omits `request_item_id` and `voice` (`app/Models/AudioItem.php:13`). Its rows are likewise recorded with the fields `process` passes.
- RequestItems.CreateItemWith / RequestItems.CreateItem / RequestItems.Process: RequestItem declares no `$casts` (`app/Models/RequestItem.php:19-23`). So the `voices` array given at `app/Models/RequestItem.php:104` cannot be stored as given: the insert fails on an array-to-string conversion or stores the string "Array". The `foreach($this->voices ...)` loops at lines 177 and 197 then never see a list. The model assumes the list is stored and read back as the names given.
- RequestItems.Process: every `save()` and `create()` inside it is taken to succeed; a failed insert is not modelled.
- PartQueries.CountUnprocessed / AudioItems.FalseRightAfterProcess: `process` never writes an AudioItemPart's `status` (`app/Models/RequestItem.php:178-182`), and the unset column is modelled as SQL NULL, which `status != 'Processed'` does not match. The audio_item_parts migration declares no `status` column. The sibling tables default theirs to `''`. With a `''` default, `'' != 'Processed'` holds, the query at `app/Models/AudioItem.php:45-51` would be true right after `process`, and `AudioItems.FalseRightAfterProcess` would not hold.
- RequestItems.UpdateLogAndStatus: both ledger writes (the warning and the message) are taken to be stored. `addMessage` returns false and appends nothing when its save fails (`app/Models/RequestItemLog.php:183-197`). `RequestItemLog.AddMessage` models that failure, but this helper does not pass it through.
- TtsItems.GenerateAudio: the final `save()` is taken to succeed, so the result is always true.
- PartQueries.Where: `->get()` at `app/Models/AudioItem.php:32` and `app/Models/TextItemPart.php:33` has no `orderBy`, so SQL promises no row order. Query results are modelled in insertion order. The order claims of `PartQueries.WhereAppend`, `TextItemParts.IndexPartsOfProcess` and `TextItemParts.PartsAfterProcess` hold for that order only. Their membership claims (`PartQueries.WhereMembers`, the `GetAudioItemParts` contracts) do not depend on it.
- RequestItems.CreateItemWith / RequestItems.CreateItem: the row save is taken to succeed, so `success` is true whenever a valid key exists.
- TtsItems.CreateItems: each `save()` is taken to succeed, and `toArray()` is the saved item itself.
- `Log::$type` mirrors every ledger entry into the application log. That log is output only and is not modelled.
- VoiceKeys.NameOfKey: `intval` is modelled for decimal strings with leading whitespace and a sign. Numeric strings in exponent form such as "1e1", which PHP 7.1 and later read as 10, are not modelled.
- `getVoiceNameByKey` and `getVoiceDataByKey` take an integer key, since the only caller passes `intval`'s result.
- Uniqueness of generated ids is not claimed: randomness is the `Seed` parameter, and only the id's shape and its dependence on the bytes are proved.
- The docblock of `cleanString` (`app/Helpers/TextToSpeech.php:122`) reads "Strips input string of HTML, extra whitespace, etc." The code does not remove extra whitespace: it maps each `\s` character to one space, so runs keep their length (`TextCleaner.RunsAreNotCollapsed`), and it deletes entity tokens without decoding them (`TextCleaner.EntityDeleted`). The model follows the code.
