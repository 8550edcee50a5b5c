# Audio worker decision logic, in Dafny

The repository holds one worker in several versions: `main.py`, `cloud.py`,
`local.py` and `run.py` take storage notifications from an SQS queue, and
`process.py` takes them from a webhook. For each uploaded audio object a
version downloads the file, checks it, transcribes it to WebVTT, transcodes
it to HLS, writes an HLS master playlist, uploads the result to the
production bucket, and acknowledges the queue message.

Almost every step calls out to S3, SQS, ffmpeg, a speech recognizer or a
database. This project models the pure decisions around those calls:

- decoding object keys (`unquote_plus`);
- the audio allow-lists;
- `slugify`, the UUID identity of `run.py` and the fallback names;
- the admission thresholds;
- the master-playlist and transcript texts, with readers that parse them back;
- the upload key and content-type rule;
- the job pipelines, modelled as a fold over stage results;
- the queue actions each version takes for a message.

Each external call is a parameter of the model: whether a stage completes,
the recognizer's segments, the API reply, the `mimetypes` guess and the
timestamp formatter.

Modules, one per file:

- `Wrappers`: `Option` and `Result`.
- `Text`: Python string helpers as the code uses them.
- `Paths`: `os.path.basename` and `pathlib` name, suffix and stem.
- `UrlDecode`: `unquote_plus`, with `quote_plus` as its partner.
- `Slug`: `slugify`.
- `Audio`: `is_audio_file`.
- `Identity`: download names, job ids, output prefixes, `extract_song_id_from_key` and `get_base_url`.
- `Admission`: the size, disk and duration checks.
- `Attributes`: HLS attribute lists (section 4.2 of RFC 8216), written and read back.
- `Manifest`: the master-playlist layouts and a reader following section 4.3.4 of RFC 8216.
- `Playlists`: each version's playlists.
- `Transcript`: the WebVTT writers and a reader.
- `Publish`: the upload walk.
- `Lifecycle`: the job pipelines.
- `Poll`: the queue decisions.

Two behaviours of the code are worth stating up front:

- `slugify("Héllo_World!! ")` is `"hllo_world"`. The non-ASCII `é` is dropped outright, and `_` counts as a word character, so it is kept.
- `transcribe_with_huggingface` (cloud.py) and `transcribe_audio` (local.py) re-raise their errors, so a failed transcription is a failed stage.

## Model

| member | source | states |
|---|---|---|
| UrlDecode.UnquotePlus | main.py:369 | decoding never lengthens a key; a key without `%` only has `+` turned into spaces |
| UrlDecode.UnquotePlusQuotePlus | main.py:369 | decoding what `quote_plus` encoded gives back the ASCII key |
| UrlDecode.DecodeSpaces | cloud.py:409 | `%20` and `+` both decode to a space, and the text around them is decoded on its own |
| UrlDecode.UnquoteEscape | local.py:296 | a `%XX` escape decodes to the one character of that hex value |
| Slug.Slugify | main.py:129-136 | the result holds only lower-case ASCII letters, digits, `_` and `-`, has no whitespace and no `--`, and does not start or end with a space |
| Slug.SlugifyEmpty | main.py:129-136 | the slug is empty exactly when no character of the input survives the filters (in particular for `""`) |
| Slug.SlugifyIdempotent | main.py:129-136 | slugging a slug changes nothing |
| Slug.SlugifyFixpoint | main.py:129-136 | a string is its own slug exactly when it has the slug shape |
| Slug.SlugifyDropsNonAscii | main.py:133 | a non-ASCII character anywhere makes no difference to the slug |
| Slug.CollapseShape | main.py:135 | after collapsing, no two `-` are adjacent and no whitespace is left |
| Audio.CheckAudioFile | main.py:139-141 | the loop over the extensions answers exactly the allow-list predicate |
| Audio.AudioFileExtensions | main.py:65 | a name is audio exactly when its lower-cased form ends with one of `.mp3 .wav .aac .m4a .flac .ogg .opus` |
| Audio.AudioFileIgnoresCase | cloud.py:60-62 | upper-casing a name does not change whether it is audio |
| Audio.WebhookAcceptsLess | process.py:43-44 | for every key whose last component is a file name (not empty, not `.`), what the webhook accepts the queue workers accept too |
| Audio.SlashEndNotAudio | main.py:139-141 | no key ending in `/` is audio to the queue workers |
| Audio.TrailingSlashOnlyWebhook | process.py:43-44 | the exception: `a.mp3/` is audio to the webhook, whose `pathlib` name drops the trailing `/`, but not to the queue workers |
| Audio.OggAndOpusOnlyOnQueue | process.py:26 | `.ogg` and `.opus` files are audio to the queue workers but not to the webhook |
| Audio.BareExtension | process.py:43-44 | a file named only `.mp3` is audio to the queue workers, but has no `pathlib` suffix, so the webhook rejects it |
| Paths.PathName | process.py:146 | `Path(...).name` has no slash, is never `.`, and is the basename when that is a real name |
| Paths.Stem | main.py:376 | stem and suffix put back together give the name, and the stem is empty only for an empty name |
| Identity.DownloadName | main.py:376-378 | the download name is slug plus suffix, or `audio_<t>` plus suffix when the slug is empty |
| Identity.DownloadNameIsOneComponent | main.py:376-379 | the download name never contains a slash, so it stays inside the download directory |
| Identity.JobId | main.py:381 | the job id is the slug, `_`, then the decimal time |
| Identity.JobIdOnePerSecond | main.py:381 | two jobs for the same key share an id exactly when they start in the same second |
| Identity.OutputPrefix | main.py:422-424 | the output prefix is a non-empty slug: the key's slug, or `audio_<t>` when that is empty |
| Identity.FallbackTogether | main.py:376-381 | the download name and the prefix fall back together, on the same condition |
| Identity.PrefixIgnoresTime | main.py:454 | when the slug is non-empty, the upload prefix does not depend on the clock |
| Identity.SongId | run.py:83-103 | id and folder are equal: the 36-character `[a-f0-9-]` prefix of the basename, else the stem with spaces and `_` made `-` |
| Identity.SameNameSameIdentity | run.py:83-103 | keys with the same basename get the same identity |
| Identity.SameIdSameIdentity | run.py:90-95 | keys whose basenames share the 36-character id prefix get the same identity |
| Identity.EmptyIdentity | run.py:263-267 | the id is empty exactly when the basename is empty or `.` |
| Identity.FolderIsOneComponent | run.py:297 | the folder used as upload prefix is one path component |
| Identity.WorkDirIsNotPrefix | run.py:273-274 | the work directory differs from the bare folder name, and from the work directory of any other time |
| Identity.BaseUrl | run.py:249-254 | the URL is `https://<CloudFront domain>/<folder>` when the domain is set, else `https://<bucket>.s3.<region>.amazonaws.com/<folder>` |
| Identity.BaseUrlNamesFolder | run.py:249-254 | the last path component of the base URL is the song's folder |
| Identity.QueueJobId | local.py:198-199 | the job id starts with the decimal time and `_`, and ends with `_` and the key's file name |
| Identity.QueuePrefix | cloud.py:339-340 | the upload prefix plus the suffix is the key's file name, and it has no slash |
| Identity.QueuePrefixIgnoresSuffix | local.py:226-227 | two keys that differ only in an ordinary extension, with or without a directory before the name, share one upload prefix: the stem |
| Admission.Admit | main.py:403-419 | over 500 MiB is refused first; then free space below twice the size; then a probed duration over 3600 s; otherwise admitted |
| Admission.AdmitMatchesSource | main.py:144-152 | the byte-count checks decide exactly as the source's floating megabyte checks |
| Admission.FailedProbeNeverTooLong | main.py:155-169 | a failed probe, read as 0.0, never refuses a file |
| Admission.NonPositiveDurationIgnored | cloud.py:318-322 | a probed duration at or below zero is ignored |
| Admission.SizeCheckedFirst | cloud.py:310-313 | a file over 500 MB is refused as too large whatever the disk and the duration |
| Admission.MoreFreeSpaceStillAdmitted | cloud.py:65-73 | more free space never turns an admitted file away |
| Admission.SmallerFileStillAdmitted | main.py:407-412 | a smaller file is admitted whenever a larger one is |
| Admission.SizeBoundary | main.py:66 | exactly 500 MiB passes, and one byte more is refused |
| Manifest.SubtitledMasterRoundTrip | main.py:296-308 | reading the text of a subtitled master gives back every variant in order, each referring to group `subs` |
| Manifest.PlainMasterRoundTrip | run.py:200-210 | reading the text of a plain master gives back every variant in order, none with a subtitle group |
| Manifest.SubtitledGroupCount | main.py:299 | a subtitled master declares the subtitle group exactly once |
| Manifest.PlainGroupCount | run.py:200-210 | a plain master declares no subtitle group |
| Attributes.ParseRender | main.py:298 | reading a rendered attribute list gives back every attribute, name and value as written, in order |
| Manifest.ReadMediaLine | main.py:298 | reading the rendition line gives back its type, group, name, language, both flags and its URI |
| Manifest.SubtitledRenditionRoundTrip | main.py:296-298 | reading the text of a subtitled master gives back exactly the one rendition written |
| Manifest.PlainRenditionsRead | run.py:200-210 | a reader finds no rendition in a plain master |
| Manifest.ParseStreamInfOf | main.py:300 | the reader takes back the bandwidth and the `SUBTITLES` reference of each stream tag |
| Playlists.MainSubtitles | main.py:294 | the rendition is named from `LANGUAGE_NAMES`, or from the upper-cased code when the code is unknown |
| Playlists.MainMasterRead | main.py:296-308 | the master of `main.py` reads as 64000, 128000 and 256000, in that order, all with subtitles |
| Playlists.MainMasterGroup | main.py:299 | the master of `main.py` declares group `subs` once |
| Playlists.MainReferencesResolve | main.py:282-308 | the master reads back, and every variant URI and rendition URI read from its text names a file the job wrote; the captions playlist names `captions.vtt` |
| Playlists.MainRenditionRead | main.py:294-298 | a reader finds one rendition: `SUBTITLES`, group `subs`, named from `LANGUAGE_NAMES` or the upper-cased code, tagged with the code, default and autoselected, at `captions/playlist.m3u8` |
| Playlists.EntriesAscending | main.py:301-308 | each version's variants are listed in ascending bandwidth |
| Playlists.CloudIsMainInEnglish | cloud.py:237-250 | the fixed master of `cloud.py` is the master of `main.py` for `en` |
| Playlists.CloudMasterRead | cloud.py:237-250 | the master of `cloud.py` reads as 64000, 128000, 256000, each with `SUBTITLES="subs"` |
| Playlists.CloudMoveNeeded | cloud.py:220-233 | the segment `captions.vtt` of the rewritten captions playlist names no file before the caption file is moved, and the moved file after it |
| Playlists.CloudReferencesResolve | cloud.py:220-250 | the master reads back, and once `captions.vtt` is moved into `captions/`, every variant URI and rendition URI read from its text names a file |
| Playlists.CloudRenditionRead | cloud.py:240 | a reader finds one rendition: `SUBTITLES`, group `subs`, named `English`, language `en`, default and autoselected, at `captions/playlist.m3u8` |
| Playlists.CloudPlaylistsStay | cloud.py:220-223 | the move leaves every playlist where it was |
| Playlists.LocalMasterRead | local.py:148-156 | the master of `local.py` reads as the single variant 320000 `playlist.m3u8`, with subtitles |
| Playlists.LocalMasterGroup | local.py:151 | the master declares group `subs` once, and a reader finds one rendition: `SUBTITLES`, group `subs`, named `Lyrics`, tagged with the language, default and autoselected, at `captions.vtt` |
| Playlists.LocalReferencesResolve | local.py:148-156 | the master reads back, and every variant URI and rendition URI read from its text names a file in the work directory |
| Playlists.RunMasterRead | run.py:197-212 | one stream tag and URI per profile, in list order, no subtitle group, and the text ends with a newline |
| Playlists.RunProfilesRead | run.py:56-60 | for the profiles of `run.py`, the master reads as 32000, 64000 and 128000 |
| Playlists.RunReferencesResolve | run.py:197-210 | the master reads back with no rendition, and every variant names the media playlist transcoded for its profile |
| Playlists.WebhookMasterAsWrittenUnreadable | process.py:111-124 | with the rendition split over three lines, the RFC 8216 reader of `Manifest` rejects the master |
| Playlists.WebhookMasterRead | process.py:111-124 | with the rendition on one line, the master reads as 64000 then 128000, each with subtitles |
| Playlists.WebhookMasterGroup | process.py:115 | the corrected master declares group `subs` once |
| Playlists.WebhookReferencesResolve | process.py:111-124 | the corrected master reads back, and every variant URI and rendition URI read from its text names a file under `hls/` |
| Playlists.WebhookRenditionRead | process.py:115-117 | with the rendition on one line, a reader finds it: `SUBTITLES`, group `subs`, named after the upper-cased code, tagged with the code, default and autoselected, at `captions/captions.vtt` |
| Playlists.CaptionsSegment | main.py:283-291 | the captions playlist has exactly one segment, the caption file |
| Transcript.ReadWritten | main.py:216-221 | reading a written transcript gives back one timing line and one text per cue, in order |
| Transcript.SegmentTranscriptRead | local.py:105-114 | the transcript has exactly one cue per segment, in order, with its times and stripped text, whatever the words are |
| Transcript.SegmentCueTrimmed | run.py:162 | no cue text starts or ends with whitespace |
| Transcript.HfTranscript | cloud.py:133-161 | a transcript comes back exactly when the status is 200, the body is JSON, `chunks` is not null and every chunk has both times and its text; otherwise the failure names the status, or the first chunk that raised |
| Transcript.HfChunksRead | cloud.py:143-150 | a reply whose chunks are all complete gives one cue per chunk, in order, with the chunk's times and stripped text |
| Transcript.HfFallbackRead | cloud.py:151-155 | a JSON reply without a `chunks` key gives the single cue `00:00:00.000 --> 00:10:00.000` with the reply's text |
| Transcript.KaraokeCueOrigin | main.py:216-219 | every karaoke cue comes from a segment that has words |
| Transcript.KaraokeText | main.py:189-198 | a karaoke cue is the `<start>word` items joined by single spaces, with no space at either end |
| Transcript.KaraokeLineIsJoin | main.py:192-197 | the line built word by word is the tagged words joined by spaces, plus one trailing space |
| Transcript.KaraokeAllSpoken | main.py:216-219 | when every segment has words, there is one cue per segment, in order |
| Transcript.KaraokeSkipsSilent | main.py:217 | a segment without words adds no cue |
| Transcript.KaraokeCuesConcat | main.py:216-219 | cues keep the order of their segments |
| Publish.KeyRoundTrip | main.py:321-323 | the relative path can be read back from its upload key |
| Publish.KeyInjective | cloud.py:273-274 | two files get the same key exactly when they have the same relative path |
| Publish.KeyUnderPrefix | process.py:133 | every key lies under `prefix/` |
| Publish.UploadedIff | run.py:226-245 | an object is uploaded under `prefix/rel` exactly when the walk found a file at `rel` that is not skipped |
| Publish.UploadsInOrder | local.py:174-189 | without skipped files there is one upload per file, in walk order |
| Publish.OnlyRunSkips | run.py:230-232 | only `run.py` skips a file, and only files named `audio.mp3` |
| Publish.PublishFolder | main.py:321-349 | the upload loop issues exactly the uploads of the walk |
| Publish.TypedOnlyForHls | cloud.py:263-279 | `cloud.py`, `local.py` and `run.py` set a content type exactly for `.m3u8`, `.ts` and `.vtt` |
| Publish.MainMapFirst | main.py:336-340 | `main.py` uses the extension map first, and the guess only for other files |
| Publish.WebhookAlwaysTyped | process.py:139 | `process.py` always sets a content type: the guess, or `application/octet-stream` |
| Publish.MainAgreesWithTyped | main.py:328-338 | on mapped extensions `main.py` and the typed versions agree |
| Lifecycle.Fold | main.py:389-465 | no more stages begin than are listed; if none raised, all were run |
| Lifecycle.FoldRaisesIff | cloud.py:305-353 | the job raises exactly when some stage fails |
| Lifecycle.FoldTrace | local.py:206-240 | the stages begun are a prefix of the list; all but the last passed, and the last failed if the job raised |
| Lifecycle.FoldConcat | main.py:389-454 | running two stage lists one after the other is running their concatenation |
| Lifecycle.FoldDependsOnPasses | run.py:259-357 | the outcome depends only on which stages pass |
| Lifecycle.AdmissionFold | main.py:403-419 | the admission stages refuse exactly what `Admit` refuses, and the stage that raises names the refusal |
| Lifecycle.MainDownload | main.py:370-374 | a key is skipped exactly when it is not audio; a skipped key runs no stage and is not cleaned up, and every other key is cleaned up |
| Lifecycle.MainAckIffDownloaded | main.py:389-401 | the job deletes the message itself exactly when the key is audio and the work directory and download succeeded |
| Lifecycle.MainAckBeforeAdmission | main.py:393-419 | a file refused by any admission check has already been deleted from the queue |
| Lifecycle.MainAdmission | main.py:403-419 | after the download the job fails at the admission stage `Admit` names |
| Lifecycle.MainCleanup | main.py:459-464 | `cleanup_job` runs on every path past the audio check; the job raises exactly when some stage fails |
| Lifecycle.MainCompletes | main.py:389-457 | a job whose stages all complete was acknowledged and raised nothing |
| Lifecycle.Process | cloud.py:289-357 | cleanup always runs; True exactly when every stage passes, and then every stage was run |
| Lifecycle.CloudTrueAfterDelete | cloud.py:339-349 | `cloud.py` returns True only after the upload and the temp-bucket delete both completed and the file was admitted |
| Lifecycle.CloudAdmission | cloud.py:306-322 | after a completed download, `cloud.py` returns False, failing at the stage `Admit` names |
| Lifecycle.LocalIgnoresAdmission | local.py:194-240 | size, free space and duration never change what `local.py` does |
| Lifecycle.LocalTrueIff | local.py:206-236 | `local.py` returns True exactly when download, work directory, transcription, transcoding, master, upload and temp delete all complete |
| Lifecycle.RunProcess | run.py:263-267 | an empty id returns False before any work and without cleanup |
| Lifecycle.RunAdvisoryIrrelevant | run.py:304-325 | a failed Supabase update or Upstash upsert never changes the result |
| Lifecycle.RunCleanup | run.py:276-357 | with an id the work directory is always removed; True exactly when every raising stage completes; a failure marks the song failed |
| Lifecycle.WebhookProcess | process.py:144-188 | the files are removed only on a path that returned normally |
| Lifecycle.WebhookCleanupOnlyOnSuccess | process.py:166-186 | the files are removed exactly when the file is audio and every stage completed |
| Lifecycle.WebhookCheckAfterDownload | process.py:156-164 | the audio check comes after the directories and the download, and a non-audio file returns without cleanup |
| Poll.MainHandle | main.py:496-516 | malformed JSON, a test event or no records gets exactly one delete; every retry is the body with a 30 s delay, then a delete |
| Poll.MainAllKeyless | main.py:526-528 | a message whose records all lack a key gets no queue call |
| Poll.MainNonAudioUntouched | main.py:372-374 | a non-audio key produces no queue action |
| Poll.MainSuccessAckedOnce | main.py:393-398 | a completed job is acknowledged once, right after its download, and never sent back |
| Poll.MainRefusedRequeued | main.py:543-558 | a refused file is deleted, then sent back with a 30 s delay and deleted again |
| Poll.MainKeyErrorUntouched | main.py:540-541 | a `KeyError` before the download finished gets no queue action |
| Poll.MainStopsAtRaise | main.py:518-558 | once a job raises, the message's later records are never looked at |
| Poll.StreamHandle | cloud.py:386-440 | malformed JSON, a test event or no records gets one delete; every retry is the body with a 60 s delay, then a delete |
| Poll.StreamOneDeletePerKey | local.py:288-323 | every record with a key is deleted exactly once, whatever its job returned |
| Poll.StreamOneRecord | cloud.py:404-435 | a success or a non-audio decoded key gets one delete; a failure is sent back with a 60 s delay, then deleted |
| Poll.StreamBadRecordUntouched | cloud.py:442-444 | an exception while handling records leaves the message alone |
| Poll.CloudOutcome | cloud.py:420-435 | `cloud.py` deletes a message whose job completed, and sends back one whose file was refused |
| Poll.LocalOutcome | local.py:307-323 | `local.py` deletes exactly the messages whose jobs completed every stage, and sends the others back |
| Poll.RunHandleAsWritten | run.py:384-421 | a test event or no records gets a delete; otherwise at most one delete and never a send |
| Poll.RunHandle | run.py:384-421 | the corrected handler also issues at most one delete and never a send |
| Poll.RunAckIff | run.py:388-414 | with the missing-key case corrected, deleted exactly for a test event, no records, a first key that is missing, empty or not audio, or a job returning True; malformed JSON never |
| Poll.RunFirstRecordOnly | run.py:401 | only the first record of a message is read |
| Poll.RunNeverRequeues | run.py:413-421 | `run.py` never sends a message back; failures wait for redelivery |
| Poll.RunAdvisoryAck | run.py:304-325 | a failed database update or vector upsert does not stop the delete |
| Poll.RunKeylessNeverAcked | run.py:401-407 | as written, a record without a key is never deleted |
| Poll.RunKeylessAcked | run.py:404-407 | corrected, a record without a key is deleted like one with an empty key |
| Poll.RunCorrectionOnlyKeyless | run.py:401-414 | the correction changes nothing for a message whose first record has a key |

## Left out

- External services: S3, SQS, ffmpeg, ffprobe, faster-whisper, the Hugging Face HTTP call, Supabase and Upstash. Each is a parameter:
  - whether a stage completes;
  - the recognizer's segments;
  - the API reply;
  - the duration probe.
- Timestamp rendering: `format_ts` and `format_timestamp` use floating point (`%06.3f`), so they are the parameter `ts`. The fallback cue of `cloud.py` is stated through that formatter at 0 and 600 seconds.
- Megabyte arithmetic: the source compares floating megabytes. The model compares whole bytes, and `Admission.AdmitMatchesSource` shows the two agree. A NaN probe result is not modelled.
- UrlDecode.UnquotePlus: decodes each escaped octet as one Latin-1 character, where Python decodes the octets as UTF-8 with replacement. Keys that are ASCII after decoding agree.
- UrlDecode.UnquotePlusQuotePlus: the round trip is stated for ASCII keys only.
- Text.Upper: upper-cases only ASCII letters. It backs `language.upper()` (main.py:294, process.py:115), and `str.upper` also maps other scripts; recognizer language codes are ASCII.
- Text.Lower: lower-cases only ASCII letters. `str.lower` also maps other scripts, which matters only for names with non-ASCII capitals.
- The polling loop: `receive_message`, batches of messages, long polls and `sleep(5)` are left out. One call models one message.
- Failing SQS calls: a `delete_message` or `send_message` that itself raises is not modelled. This covers `main.py`'s ignored delete failure, and a failed send that skips the delete. Queue calls are taken to complete.
- Bodies that parse to something other than a JSON object, such as a list or a string. `body.get` raises there, and the exception ends the batch in `main.py` or leaves the message in the other versions. Records that are not objects are modelled, as `NotAnObject`.
- The JSON of a record is not modelled; it is mapped to `Poll.Record` this way. An absent `s3`, `object` or `key`, or a key that Python treats as false, is `Record(None)` or `Record(Some(""))`. `main.py`, `cloud.py` and `local.py` skip those records; for `run.py` see Findings. A record on which the lookup raises is `NotAnObject`. That covers a record, `s3` value or `object` value that is `null` or not an object (in `main.py`, also the `bucket` value), and, in `cloud.py`, `local.py` and `run.py`, a non-string key that Python treats as true, on which `unquote_plus` raises; `main.py` passes such a key on to `download_object`, and that path is not modelled. The handlers answer `NotAnObject` as the source answers the exception: `main.py` re-sends the body with a 30 s delay and deletes it (main.py:543), `cloud.py` and `local.py` leave the message, and `run.py` makes no queue call.
- `receipt_handle` in `main.py` is always present when a message arrives, so the early delete is taken as unconditional.
- The recognizer reporting no language, and the language text itself, are not modelled. Rendition names and language codes are required to be one line. Where a rendition is read back they must also hold no `"`: the source does not escape them, and a `"` would end the quoted value early (section 4.2 of RFC 8216).
- The rendition reader takes TYPE, GROUP-ID, NAME, LANGUAGE, DEFAULT, AUTOSELECT and URI. The other attributes of section 4.3.4.1 of RFC 8216 are ignored, since no version writes them.
- `mimetypes.guess_type` is a parameter from file name to type. `main.py` passes the full path, but the guess depends only on the extension.
- `os.walk` order: the walk is given as a sequence of directory and name pairs. The file system is not modelled.
- Lifecycle.Passes: main.py's duration probe is taken never to raise. `get_audio_duration` (main.py:155-169) catches only `CalledProcessError` and `ValueError`, so an `OSError` from `subprocess.run`, such as a `PermissionError` or an `ffprobe` removed after the start-up check, would escape it and fail the job after its early delete. cloud.py:87 catches every exception, as the model does for both.
- Transcript.HfTranscript: JSON values of the wrong type are not modelled. A `text` that is null is written as `None` by the fallback, a chunk `text` that is not a string or a time that is not a number raise; the model has only present, missing or null fields.
- A transcript left half-written when the recognizer fails part way is not modelled. The stage simply fails.
- The FastAPI route and `BackgroundTasks` of `process.py`, start-up checks, model loading, and the scripts `cleanup_sqs.py`, `upload.py` and `test_sqs.py`.
- Logging, and the bucket name in the notification, which is only logged.

## Findings

| source | as written | input that shows it | evidently intended | confidence | as-written member | corrected member |
|---|---|---|---|---|---|---|
| process.py:115-117 | the attributes of the `#EXT-X-MEDIA` tag are written over three lines | any language, e.g. `en`: the line `DEFAULT=YES,...` is neither a tag nor blank, so it reads as a URI line with no stream tag before it | one `#EXT-X-MEDIA` line, as in the other versions | high; not executed | Playlists.WebhookMasterAsWrittenUnreadable | Playlists.WebhookMasterRead |
| run.py:401-407 | `unquote_plus` runs on the key before the `if not s3_key` test | a first record with no `s3.object.key`: `unquote_plus(None)` raises, and the handler leaves the message, so it comes back on every redelivery | a missing key skipped and deleted like an empty one | medium; not executed | Poll.RunKeylessNeverAcked | Poll.RunKeylessAcked |
