# SmartDoula core, modelled and verified in Dafny

SmartDoula is a web application for doulas and the mothers they accompany, with two
small Python tools beside it. This project models the application's decision logic and
the tools' file handling, and proves properties of both.

**The project-context tools.**
- `Collector` models `data_context.py`. It walks an abstract directory tree top-down. Excluded directories are pruned before descent. Each file passes four filters in order: not an output file of the tool, not an excluded name, not an excluded extension, and not blank. A surviving file is framed into the aggregate text, and its relative path goes to the names list.
- `Replayer` models `data_context_step2.py`. It reads the names list back and frames the listed files again. The round trip from collecting to replaying is proved for clean paths: non-blank, without surrounding whitespace, and without a line-boundary character. The replay strips every line, so a name with a leading space or a U+2028 inside is not listed under its own name; two lemmas show this. Opening the replay's output `filtered_project_context.txt` for writing empties it before any listed file is read. The collector does not exclude that name, so a collector run after a replay lists it, and the next replay reads it as empty. The round trip therefore also needs the replay's output to be absent from the names list; see "## Findings".

**The pages of both web generations.** The `src/` tree and the newer `smartdoula_site/` tree are two generations of the same pages. Where they differ, each is modelled as written.
- Contraction timing: `Clock`, `ContractionTimer`, `ContractionDisplay`, and the timer and live-monitor pages of both generations.
- Pregnancy-week arithmetic: `Pregnancy`, `WeeklyProgress`, the client pages and the dashboards.
- The medical-documents file-name codec: `Utf8`, `Base64` and `DocumentsManager`. A display name is encoded as UTF-8 (section 3 of RFC 3629), then as base64 (section 4 of RFC 4648), then made URL-safe (section 5 of RFC 4648).
- List operations: client and doula search, sort and partition; payment totals; tags; notifications; birth-plan edits.
- String and decision helpers: initials, WhatsApp links, sidebar highlighting, and the root redirect.

**How the model is built.**
- Pure code becomes functions, each with a contract and lemmas beside it.
- Component state that handlers replace becomes a class. Each handler is a method whose `ensures` gives the whole new state.
- The explorer's sort in place keeps an `array`. The collector's walk is a loop over an explicit stack, proved equal to a recursive specification.
- Database rows, the results of writes, the user's confirmation and the clock are all parameters.
- Instants are integer milliseconds. A stored `yyyy-mm-dd` date is a UTC day number.

Shared helper modules:
- `Wrappers`: Option and Result.
- `JsText`: the JavaScript and Python string operations.
- `JsMath`: floor, round and ceiling of integer quotients, and the truncating `%`.
- `JsParseInt`: `parseInt`.
- `Records`: loosely typed form objects.
- `Seqs`: filter, count, sum and subsequence.
- `Ui`: display helpers shared by several pages.

## Model

| member | source | states |
|---|---|---|
| Collector.PyLower | data_context.py:26 | `str.lower()` on an extension: every character is lowered one for one, the KELVIN SIGN included |
| Collector.Extension | data_context.py:25 | the extension `os.path.splitext` finds is empty or a suffix of the name that starts with its last dot and has no other dot |
| Collector.IsLikelyText | data_context.py:21-26 | a file counts as text iff its lower-cased extension is not excluded, so a name without an extension always does |
| Collector.NoExtensionIsText | data_context.py:21-26 | a name without a dot, or whose only dots lead it, has no extension and counts as text |
| Collector.TextDependsOnlyOnExtension | data_context.py:21-26 | two names with the same lower-cased extension are classified alike |
| Collector.Classify | data_context.py:51-79 | a file is added iff it is not an output file, not an excluded name, has a text extension, reads, and is not blank after stripping; an added file keeps its text; a read failure is reported only after the name checks pass |
| Collector.WalkIsPruned | data_context.py:43-44 | every outcome of a walk comes from a directory reached without entering an excluded directory, and every added file passed every filter |
| Collector.PrunedSubdirs | data_context.py:44 | the subdirectories descended into are the listed ones whose names are not excluded, in listing order |
| Collector.WorkOutcomesPruned | data_context.py:43-47 | walking the pruned subdirectories in order gives the second half of a directory's walk |
| Collector.DirectCountsFiles | data_context.py:47-48 | each file of a listing has exactly one outcome among the listing's own |
| Collector.OutputsOfOne | data_context.py:65-72 | an added file contributes `--- Filename: p ---\n` + content + `\n\n---\n\n` to the aggregate and `p\n` to the names file; any other outcome contributes nothing |
| Collector.AggregateAppend | data_context.py:68-72 | both outputs of two runs of outcomes are the outputs of each, concatenated |
| Collector.NamesTextJoin | data_context.py:72 | the names file is the added paths joined by line breaks, with a final line break |
| Collector.NamesLines | data_context.py:72 | split at line breaks, the names file gives back the added paths in walk order, then one empty piece |
| Collector.Sink.Open | data_context.py:41-42 | an output file is empty once opened for writing |
| Collector.Sink.Write | data_context.py:68-72 | a write appends its text to the file |
| Collector.HandleFile | data_context.py:47-79 | one file is classified, and the two outputs grow by exactly what its outcome contributes |
| Collector.HandleListing | data_context.py:47-79 | the files of one directory are handled in listing order; the outputs are those of the outcomes so far |
| Collector.Collect | data_context.py:28-79 | a run completes iff the root is a directory; its log reports nothing from inside an excluded directory and only added files that passed every filter, and the aggregate and the names are built from that log |
| Collector.RunCollector | data_context.py:28-79 | a root that is not a directory stops the run before any output is opened; otherwise the outputs equal those of the recursive top-down walk |
| Replayer.BoundaryIsSpace | data_context_step2.py:32 | every character that ends a line is whitespace to `str.strip`, so stripping a line removes its ending |
| Replayer.StrippedNonBlank | data_context_step2.py:32 | the kept lines are non-blank, already stripped, and no more than the lines read |
| Replayer.Entries | data_context_step2.py:29-32 | the listed paths are the stripped non-blank lines of the names file, in file order |
| Replayer.ReplayOne | data_context_step2.py:35-58 | a path that is not a regular file is skipped; a regular file is copied with its text iff it reads and is not blank; a read failure is reported and nothing copied |
| Replayer.ReplayAll | data_context_step2.py:34-58 | one outcome per listed path, in list order; no directory, name or extension exclusion is applied |
| Replayer.OutputTextAppend | data_context_step2.py:51-53 | the output of two runs of outcomes is the output of each, concatenated |
| Replayer.CopyEntry | data_context_step2.py:35-58 | one listed path is handled and the output grows by exactly its frame, if it was copied |
| Replayer.CopyAll | data_context_step2.py:34-58 | the loop over the listed paths writes the frames of the copied files in list order |
| Replayer.Replay | data_context_step2.py:11-32 | the run completes iff the root is a directory and the names file exists; a completed run has one outcome per listed path, in list order, each for that path |
| Replayer.OwnOutputReadsEmpty | data_context_step2.py:30 | after the output is opened for writing, looking up its own name finds an empty regular file, which is skipped as empty |
| Replayer.ReplaySkipsOwnOutput | data_context_step2.py:30-55 | whatever the output held before the run, a run whose names list includes it logs it as skipped empty |
| Replayer.TruncationUnseen | data_context_step2.py:30 | emptying the output changes no outcome of a list that does not name it |
| Replayer.RunReplayer | data_context_step2.py:9-58 | a root that is not a directory, or a missing names file, stops the run before the output is opened; otherwise the output is opened, which empties it, and the run is the replay of the listed paths over the files as they then are |
| Replayer.StrippedClean | data_context_step2.py:32 | paths that are non-blank, stripped and on one line survive the line parsing unchanged, and the final empty piece is dropped |
| Replayer.EntriesOfNames | data_context_step2.py:32 | the names file the collector writes is read back as exactly its added paths, for clean paths (also data_context.py:72) |
| Replayer.OutputOfAdded | data_context_step2.py:48-53 | replaying the added paths over files that, as the loop looks them up, still hold what the collector read writes the collector's aggregate (also data_context.py:68-72) |
| Replayer.ReplayCollected | data_context_step2.py:32-53 | when every added path is clean (non-blank, already stripped, no line-boundary character) and none is the replay's own output, replaying the names file of a walk over unchanged files rebuilds the walk's aggregate and copies every listed path (also data_context.py:68-72) |
| Replayer.CollectThenReplay | data_context_step2.py:32-53 | when every added path is clean and the collector did not add `filtered_project_context.txt`, collect then replay over the same files: the replay completes, writes the collector's aggregate exactly, and copies every path (also data_context.py:28-79) |
| Replayer.AddedPathCopied | data_context_step2.py:38-53 | every path the collector added, looked up as listed, is found again as a non-blank regular file and copied; the names file carries it unchanged only when it is clean |
| Replayer.SpacedNameSkipped | data_context_step2.py:32 | the limit of the round trip: for any clean name p, the line of a file named " p" lists p, so that file is skipped as missing when only " p" exists (as empty when p is the replay's own output) |
| Replayer.SpacedNameListed | data_context_step2.py:32 | stripping the line of a name with a leading space lists the name without the space |
| Replayer.SeparatorSplitsName | data_context_step2.py:29-32 | a U+2028 line separator inside a collected name splits it into two listed paths |
| Replayer.OutputIsCollected | data_context.py:9-12 | the collector's filters add a non-blank `filtered_project_context.txt` in the root: it is neither of the collector's own outputs (also data_context.py:51), nor an excluded name, and `.txt` is not an excluded extension |
| Replayer.OutputNameNotExcluded | data_context.py:9-12 | `filtered_project_context.txt` is neither `project_context.txt` nor `file_names.txt`, and is not in the excluded names |
| Replayer.OutputLooksLikeText | data_context.py:21-24 | `filtered_project_context.txt` has the extension `.txt`, which the extension test lets through |
| Replayer.CollectedOutputLost | data_context_step2.py:29-53 | the round trip as written fails: when a collector run added the replay's output, replaying its names file completes but writes strictly less than the collector's aggregate (also data_context.py:9-12) |
| Replayer.ShorterOutput | data_context_step2.py:44-53 | with the output emptied, the replay of the added paths writes no more than the aggregate, and strictly less when the output is among them |
| Utf8.EncodeChar | smartdoula_site/src/components/clients/tabs/DocumentsManager.tsx:60-64 | one to four octets per character, a single octet exactly for ASCII, as `encodeURIComponent` escapes them |
| Utf8.DecodeFirst | smartdoula_site/src/components/clients/tabs/DocumentsManager.tsx:72-79 | an accepted first sequence is as long as its lead octet announces and fits in the input |
| Utf8.DecodeEncode | smartdoula_site/src/components/clients/tabs/DocumentsManager.tsx:59-80 | every string survives UTF-8 encoding followed by decoding |
| Utf8.DecodeFirstEncodeChar | smartdoula_site/src/components/clients/tabs/DocumentsManager.tsx:59-80 | the octets of one character, followed by anything, decode to that character and its length |
| Utf8.EncodeDecodeFirst | smartdoula_site/src/components/clients/tabs/DocumentsManager.tsx:72-79 | the decoder accepts a prefix only when it is the exact encoding of the character it returns |
| Utf8.EncodeDecode | smartdoula_site/src/components/clients/tabs/DocumentsManager.tsx:72-79 | whatever `decodeURIComponent` accepts is the encoding of what it returns: it is strict |
| Utf8.EncodeInjective | smartdoula_site/src/components/clients/tabs/DocumentsManager.tsx:60-64 | different strings have different encodings |
| Base64.Digit | smartdoula_site/src/components/clients/tabs/DocumentsManager.tsx:60 | each six-bit value maps to a base64 digit |
| Base64.DigitValue | smartdoula_site/src/components/clients/tabs/DocumentsManager.tsx:75 | a digit's value is below 64 and maps back to that digit |
| Base64.DigitInjective | smartdoula_site/src/components/clients/tabs/DocumentsManager.tsx:60 | distinct six-bit values have distinct digits |
| Base64.Quad | smartdoula_site/src/components/clients/tabs/DocumentsManager.tsx:60 | three octets become four digits |
| Base64.Encode | smartdoula_site/src/components/clients/tabs/DocumentsManager.tsx:60 | `btoa` output is a multiple of four long and made of digits and `=` |
| Base64.EncodeDigitsShape | smartdoula_site/src/components/clients/tabs/DocumentsManager.tsx:60 | four digits per full group and two or three for the tail, never one |
| Base64.RemoveSpace | smartdoula_site/src/components/clients/tabs/DocumentsManager.tsx:75 | `atob` drops ASCII white space, and the rest is free of it |
| Base64.Decode | smartdoula_site/src/components/clients/tabs/DocumentsManager.tsx:75 | `atob` throws exactly when the cleaned digits leave remainder one by four or hold a non-digit |
| Base64.FirstOctet | smartdoula_site/src/components/clients/tabs/DocumentsManager.tsx:75 | the octet split over a group's first two digits is rebuilt from them |
| Base64.SecondOctet | smartdoula_site/src/components/clients/tabs/DocumentsManager.tsx:75 | the octet split over a group's second and third digits is rebuilt from them |
| Base64.ThirdOctet | smartdoula_site/src/components/clients/tabs/DocumentsManager.tsx:75 | the octet split over a group's last two digits is rebuilt from them |
| Base64.GroupRoundTrip | smartdoula_site/src/components/clients/tabs/DocumentsManager.tsx:60-75 | a full group decodes to its three octets ahead of what follows |
| Base64.PairRoundTrip | smartdoula_site/src/components/clients/tabs/DocumentsManager.tsx:60-75 | a two-octet tail decodes from its three digits |
| Base64.SingleRoundTrip | smartdoula_site/src/components/clients/tabs/DocumentsManager.tsx:60-75 | a one-octet tail decodes from its two digits |
| Base64.DecodeEncodeDigits | smartdoula_site/src/components/clients/tabs/DocumentsManager.tsx:60-75 | the unpadded digits of any octets decode back to those octets |
| Base64.StripEncode | smartdoula_site/src/components/clients/tabs/DocumentsManager.tsx:60-75 | `atob`'s cleaning removes the padding of `btoa`'s output and nothing else |
| Base64.NoSpace | smartdoula_site/src/components/clients/tabs/DocumentsManager.tsx:75 | a string without white space is left as it is |
| Base64.DecodeEncode | smartdoula_site/src/components/clients/tabs/DocumentsManager.tsx:60-75 | `atob(btoa(bs))` gives `bs` back |
| Base64.RemoveSpaceKeeps | smartdoula_site/src/components/clients/tabs/DocumentsManager.tsx:75 | a character that is not white space survives the cleaning |
| Base64.DecodeRejects | smartdoula_site/src/components/clients/tabs/DocumentsManager.tsx:75 | `atob` throws on any character that is neither white space, a digit nor `=` |
| DocumentsManager.ToUrlSafe | smartdoula_site/src/components/clients/tabs/DocumentsManager.tsx:65-66 | `/` becomes `_` and `+` becomes `-`, every other character stays, the length is kept |
| DocumentsManager.FromUrlSafe | smartdoula_site/src/components/clients/tabs/DocumentsManager.tsx:71 | `-` becomes `+` and `_` becomes `/`, every other character stays, the length is kept |
| DocumentsManager.DecodeEncodeName | smartdoula_site/src/components/clients/tabs/DocumentsManager.tsx:59-83 | `decodeName(encodeName(name)) == name` for every name |
| DocumentsManager.EncodeName | smartdoula_site/src/components/clients/tabs/DocumentsManager.tsx:59-67 | a stored name is made of URL-safe base64 digits and `=`, in whole groups of four |
| DocumentsManager.DecodeName | smartdoula_site/src/components/clients/tabs/DocumentsManager.tsx:69-83 | a shown name differs from the stored text only when the text decodes as base64 and the shown name's UTF-8 octets are exactly the decoded octets; otherwise the text is shown as it is |
| DocumentsManager.StoredNameShape | smartdoula_site/src/components/clients/tabs/DocumentsManager.tsx:59-67 | in a stored name the padding `=` appears only in the last two places |
| DocumentsManager.EncodeNameInjective | smartdoula_site/src/components/clients/tabs/DocumentsManager.tsx:59-67 | two display names never share a stored name |
| DocumentsManager.LegacyNameUnchanged | smartdoula_site/src/components/clients/tabs/DocumentsManager.tsx:80-82 | a stored name holding a character `atob` rejects is shown as it is |
| DocumentsManager.SuggestedName | smartdoula_site/src/components/clients/tabs/DocumentsManager.tsx:99-107 | the text before the last dot, or the whole name when there is no dot or only a leading one |
| DocumentsManager.Extension | smartdoula_site/src/components/clients/tabs/DocumentsManager.tsx:114 | the text after the last dot, holding no dot, or the whole name without a dot |
| DocumentsManager.UploadName | smartdoula_site/src/components/clients/tabs/DocumentsManager.tsx:109-118 | an upload happens iff a file is selected and the trimmed name is non-empty |
| DocumentsManager.UploadNameDecodes | smartdoula_site/src/components/clients/tabs/DocumentsManager.tsx:109-118 | the stored name of an upload decodes to the trimmed name plus the selected file's extension |
| DocumentsManager.RenameTarget | smartdoula_site/src/components/clients/tabs/DocumentsManager.tsx:180-186 | a rename happens iff the trimmed name is non-empty |
| DocumentsManager.ExtensionOfWith | smartdoula_site/src/components/clients/tabs/DocumentsManager.tsx:114-115 | a dot-free extension appended after a dot is read back as the extension |
| DocumentsManager.UploadKeepsExtension | smartdoula_site/src/components/clients/tabs/DocumentsManager.tsx:114-116 | the uploaded document keeps the selected file's extension |
| DocumentsManager.RenameKeepsExtension | smartdoula_site/src/components/clients/tabs/DocumentsManager.tsx:183-186 | a renamed document keeps its old extension |
| DocumentsManager.PreviewKind | smartdoula_site/src/components/clients/tabs/DocumentsManager.tsx:146-150 | image iff the lowercased extension is one of the five image extensions, PDF iff it is `pdf` |
| DocumentsManager.IconAgreesWithPreview | smartdoula_site/src/components/clients/tabs/DocumentsManager.tsx:146-150 | for a name with a dot, the list's image icon and the preview's image type agree (also smartdoula_site/src/components/clients/tabs/DocumentsManager.tsx:286-287) |
| DocumentsManager.NoDotPreviewWithoutIcon | smartdoula_site/src/components/clients/tabs/DocumentsManager.tsx:146-150 | a name `png` without a dot previews as an image but shows no image icon (also smartdoula_site/src/components/clients/tabs/DocumentsManager.tsx:286-287) |
| DocumentsManager.WithoutFile | smartdoula_site/src/components/clients/tabs/DocumentsManager.tsx:174 | exactly the files of another name stay, in order |
| DocumentsManager.EditPrefillBeforeDot | smartdoula_site/src/components/clients/tabs/DocumentsManager.tsx:312 | the edit box starts with the text before the first dot |
| DocumentsManager.DocumentsPanel.constructor | smartdoula_site/src/components/clients/tabs/DocumentsManager.tsx:33-52 | the panel's initial state |
| DocumentsManager.DocumentsPanel.ListFiles | smartdoula_site/src/components/clients/tabs/DocumentsManager.tsx:85-97 | a listing replaces the files, a failed one keeps them, nothing else changes |
| DocumentsManager.DocumentsPanel.HandleFileSelect | smartdoula_site/src/components/clients/tabs/DocumentsManager.tsx:99-107 | a chosen file is selected and its suggested name fills the input |
| DocumentsManager.DocumentsPanel.CloseUpload | smartdoula_site/src/components/clients/tabs/DocumentsManager.tsx:127-129 | the upload dialog closes and the selected file and the name input clear; the file list, the rename state and the preview stay |
| DocumentsManager.DocumentsPanel.HandleUpload | smartdoula_site/src/components/clients/tabs/DocumentsManager.tsx:109-136 | the upload is made under `UploadName`; on success the dialog closes and the inputs clear |
| DocumentsManager.DocumentsPanel.HandlePreview | smartdoula_site/src/components/clients/tabs/DocumentsManager.tsx:138-161 | with a signed URL the preview takes its type and decoded title, and only `other` opens a window |
| DocumentsManager.DocumentsPanel.HandleDelete | smartdoula_site/src/components/clients/tabs/DocumentsManager.tsx:163-178 | the removal is asked for iff confirmed; the file leaves the list only after a removal that succeeded |
| DocumentsManager.DocumentsPanel.StartEdit | smartdoula_site/src/components/clients/tabs/DocumentsManager.tsx:308-313 | editing starts on the file, the box prefilled with the decoded name before its first dot |
| DocumentsManager.DocumentsPanel.SaveRename | smartdoula_site/src/components/clients/tabs/DocumentsManager.tsx:180-200 | the move is made to `RenameTarget`; editing stops only after a move that succeeded |
| Clock.FormatTime | src/components/dashboard/ContractionTimer.tsx:29-35 | a non-negative count shows as at least five characters with `:` before the last two; below 100 minutes exactly `mm:ss` |
| Clock.PaddedValue | src/components/dashboard/ContractionTimer.tsx:32-34 | a zero-padded number is all digits and reads back as that number |
| Clock.ParseFormat | src/components/dashboard/ContractionTimer.tsx:29-35 | the clock shown for any non-negative count of seconds reads back as that count: no two counts share a display |
| ContractionTimer.Interval | src/components/dashboard/ContractionTimer.tsx:41-43 | 0 without a previous stop, otherwise the elapsed milliseconds floored to whole seconds |
| ContractionTimer.Push | src/components/dashboard/ContractionTimer.tsx:45-53 | the new record first, then the older records in order, ten at most |
| ContractionTimer.HistoryIsNewestTen | src/components/dashboard/ContractionTimer.tsx:45-53 | after any run of stops the history is exactly the last ten stops, newest first |
| ContractionTimer.Durations | src/components/dashboard/ContractionTimer.tsx:70 | the durations of the records, position by position |
| ContractionTimer.Intervals | src/components/dashboard/ContractionTimer.tsx:78 | the intervals of the records, position by position |
| ContractionTimer.AvgDuration | src/components/dashboard/ContractionTimer.tsx:68-72 | 0 for no records, otherwise the mean duration rounded to the nearest second |
| ContractionTimer.AvgInterval | src/components/dashboard/ContractionTimer.tsx:74-81 | 0 without a positive interval, otherwise the mean of the positive intervals rounded, and at least 1 |
| ContractionTimer.AvgDurationBounds | src/components/dashboard/ContractionTimer.tsx:68-72 | the average duration lies between the smallest and largest bound of the durations |
| ContractionTimer.AvgIntervalIgnoresFirstStops | src/components/dashboard/ContractionTimer.tsx:74-81 | a record without a positive interval, added at either end, leaves the interval average as it was |
| ContractionTimer.Timer.constructor | src/components/dashboard/ContractionTimer.tsx:14-17 | stopped, zero seconds, no history, no previous stop |
| ContractionTimer.Timer.Tick | src/components/dashboard/ContractionTimer.tsx:19-27 | the stopwatch counts one second only while running, and nothing else changes |
| ContractionTimer.Timer.Toggle | src/components/dashboard/ContractionTimer.tsx:37-59 | stopping pushes the elapsed seconds with their interval, remembers the instant and zeroes the stopwatch; the first stop has interval 0; starting records nothing |
| ContractionTimer.Timer.Reset | src/components/dashboard/ContractionTimer.tsx:61-66 | stopped, zero seconds, no history, no previous stop |
| ContractionDisplay.IntensityColour | smartdoula_site/src/pages/mother/ContractionTimerPage.tsx:446-453 | red iff the level is at least 8, orange iff 5 to 7, green otherwise or when it is missing |
| ContractionDisplay.IntensityColourMonotone | smartdoula_site/src/pages/doula/LiveMonitor.tsx:330-336 | a stronger contraction never gets a calmer colour |
| ContractionDisplay.Stopped | src/pages/mother/ContractionTimerPage.tsx:107-113 | applying a stop's update keeps the row's id and start and sets its end time and intensity (also smartdoula_site/src/pages/mother/ContractionTimerPage.tsx:132-138) |
| ContractionDisplay.StoppedShows | smartdoula_site/src/pages/mother/ContractionTimerPage.tsx:132-138 | a contraction stopped no earlier than it started shows a non-negative duration, the elapsed seconds rounded, and the colour of the level chosen on the slider (also smartdoula_site/src/pages/mother/ContractionTimerPage.tsx:396-400) |
| ContractionDisplay.HistoryDuration | smartdoula_site/src/pages/mother/ContractionTimerPage.tsx:396-400 | 0 without an end time, otherwise the rounded whole seconds from start to end |
| ContractionDisplay.MonitorDuration | src/pages/doula/LiveMonitor.tsx:248-252 | the rounded whole seconds from start to end, a missing end read as instant 0 |
| ContractionDisplay.DurationsAgree | src/pages/doula/LiveMonitor.tsx:248-252 | on a finished contraction the monitor and the history show the same non-negative duration (also smartdoula_site/src/pages/mother/ContractionTimerPage.tsx:396-400) |
| ContractionDisplay.FreqMinutes | src/pages/doula/LiveMonitor.tsx:256-268 | nothing for the oldest entry, otherwise the rounded minutes between the starts of an entry and the next older one |
| ContractionDisplay.FreqMinutesNonNegative | src/pages/doula/LiveMonitor.tsx:254-268 | in a newest-first list no frequency figure is negative |
| ContractionDisplay.FreqBadge | smartdoula_site/src/pages/doula/LiveMonitor.tsx:303 | the frequency line of a history row: nothing for the oldest row, a bare `0` exactly when the gap to the next start rounds to zero minutes (under half a minute either way), and the badge with the rounded minutes otherwise (also src/pages/doula/LiveMonitor.tsx:282) |
| SiteContractionTimerPage.NextMark | smartdoula_site/src/pages/mother/ContractionTimerPage.tsx:154-223 | a recorded time is cleared only when confirmed and the update succeeds; an empty one becomes `now` iff the update succeeds; a failed update changes nothing |
| SiteContractionTimerPage.ReportThenCancel | smartdoula_site/src/pages/mother/ContractionTimerPage.tsx:154-223 | reporting and then cancelling, both successfully, leaves the time empty again |
| SiteContractionTimerPage.GapMinutes | smartdoula_site/src/pages/mother/ContractionTimerPage.tsx:402-411 | a gap exists iff there is an older entry with an end time; it is the floored minutes from that end to this start |
| SiteContractionTimerPage.GapIsUrgent | smartdoula_site/src/pages/mother/ContractionTimerPage.tsx:426-431 | the gap label is red iff there is an older entry with an end time and it ended less than five minutes before this one started |
| SiteContractionTimerPage.GapNonNegative | smartdoula_site/src/pages/mother/ContractionTimerPage.tsx:402-411 | when the older contraction ended before this one started the gap is shown and never negative |
| SiteContractionTimerPage.TimerPage.constructor | smartdoula_site/src/pages/mother/ContractionTimerPage.tsx:20-29 | no open contraction, no ids, zero seconds, intensity 5, no history, no report times |
| SiteContractionTimerPage.TimerPage.Load | smartdoula_site/src/pages/mother/ContractionTimerPage.tsx:52-102 | the active pregnancy sets the ids and report times; an open contraction resumes with the floored elapsed seconds; a fetched history replaces the old one |
| SiteContractionTimerPage.TimerPage.Tick | smartdoula_site/src/pages/mother/ContractionTimerPage.tsx:38-50 | the stopwatch counts only while a contraction is open |
| SiteContractionTimerPage.TimerPage.SetIntensity | smartdoula_site/src/pages/mother/ContractionTimerPage.tsx:294-299 | the slider takes any value from 1 to 10 |
| SiteContractionTimerPage.TimerPage.Start | smartdoula_site/src/pages/mother/ContractionTimerPage.tsx:105-125 | without a pregnancy nothing is inserted and nothing happens; otherwise the insert is the row `{pregnancy_id, start_time: now}`, and a successful insert opens the inserted row |
| SiteContractionTimerPage.TimerPage.Stop | smartdoula_site/src/pages/mother/ContractionTimerPage.tsx:128-151 | an update is sent iff a contraction is open, and it is `{end_time: now, intensity}` for that row's id with the slider's level before the reset; a successful stop closes the contraction, zeroes the stopwatch, resets the intensity to 5 and takes the refreshed history; a failure changes nothing |
| SiteContractionTimerPage.TimerPage.ToggleMedicalEvent | smartdoula_site/src/pages/mother/ContractionTimerPage.tsx:154-223 | only the chosen time moves, as `NextMark` says; a successful new report notifies the doula when one is set |
| SrcContractionTimerPage.IconIsRed | src/pages/mother/ContractionTimerPage.tsx:238-242 | the activity icon is red iff the later history's intensity colour is red: a stored level of 8 or more |
| SrcContractionTimerPage.IntensityLabel | src/pages/mother/ContractionTimerPage.tsx:244 | `-` iff the intensity is missing or zero, its number otherwise |
| SrcContractionTimerPage.TimerPage.constructor | src/pages/mother/ContractionTimerPage.tsx:9-16 | no open contraction, no ids, zero seconds, intensity 5, no history |
| SrcContractionTimerPage.TimerPage.Load | src/pages/mother/ContractionTimerPage.tsx:37-66 | the active pregnancy sets the ids and a fetched history; no open contraction is resumed |
| SrcContractionTimerPage.TimerPage.Tick | src/pages/mother/ContractionTimerPage.tsx:23-35 | the stopwatch counts only while a contraction is open |
| SrcContractionTimerPage.TimerPage.SetIntensity | src/pages/mother/ContractionTimerPage.tsx:167-172 | the slider takes any value from 1 to 10 |
| SrcContractionTimerPage.TimerPage.Start | src/pages/mother/ContractionTimerPage.tsx:69-100 | without a pregnancy nothing is inserted and nothing happens; otherwise the insert is the row `{pregnancy_id, start_time: now}`, and a successful insert opens the row and notifies the doula only when one is set |
| SrcContractionTimerPage.TimerPage.Stop | src/pages/mother/ContractionTimerPage.tsx:103-124 | an update is sent iff a contraction is open, and it is `{end_time: now, intensity}` for that row's id with the slider's level before the reset; a successful stop closes the contraction, zeroes the stopwatch, resets the intensity to 5 and takes the refreshed history; a failure changes nothing |
| SiteLiveMonitor.FreqIsUrgent | smartdoula_site/src/pages/doula/LiveMonitor.tsx:303-312 | the frequency label is red iff it is shown (an older entry, starts at least half a minute apart) and this contraction started less than four and a half minutes after the older one |
| SiteLiveMonitor.NextActive | smartdoula_site/src/pages/doula/LiveMonitor.tsx:106-115 | an insert opens the inserted row, an update carrying an end time closes the open one, any other event leaves it |
| SiteLiveMonitor.InsertThenEnd | smartdoula_site/src/pages/doula/LiveMonitor.tsx:106-115 | an insert followed by the update that ends it leaves nothing open |
| SiteLiveMonitor.LiveSeconds | smartdoula_site/src/pages/doula/LiveMonitor.tsx:54-68 | never negative; 0 when idle or before the start; otherwise the floored whole seconds since the start |
| SiteLiveMonitor.DurationsMs | smartdoula_site/src/pages/doula/LiveMonitor.tsx:136-138 | per contraction, the milliseconds from start to end, a missing end read as instant 0 |
| SiteLiveMonitor.GetStats | smartdoula_site/src/pages/doula/LiveMonitor.tsx:126-146 | nothing iff fewer than two contractions started in the last hour; otherwise their count and their mean duration rounded to seconds |
| SiteLiveMonitor.StatsCountsLastHour | smartdoula_site/src/pages/doula/LiveMonitor.tsx:126-146 | when every listed contraction started within the hour, all of them are counted |
| SiteLiveMonitor.StatsAverageBounds | smartdoula_site/src/pages/doula/LiveMonitor.tsx:134-144 | the average lies between the bounds of the counted durations |
| SiteLiveMonitor.Monitor.constructor | smartdoula_site/src/pages/doula/LiveMonitor.tsx:22-27 | nothing open, no history, stopwatch at 0 |
| SiteLiveMonitor.Monitor.Load | smartdoula_site/src/pages/doula/LiveMonitor.tsx:70-104 | an open contraction is resumed with its live seconds; a fetched history replaces the old one |
| SiteLiveMonitor.Monitor.Tick | smartdoula_site/src/pages/doula/LiveMonitor.tsx:58-63 | the stopwatch is recomputed from the open contraction's start |
| SiteLiveMonitor.Monitor.HandleRealtimeUpdate | smartdoula_site/src/pages/doula/LiveMonitor.tsx:54-68 | the open contraction moves as `NextActive` says and the stopwatch follows; a closing update takes the refreshed history (also smartdoula_site/src/pages/doula/LiveMonitor.tsx:106-115) |
| SrcLiveMonitor.LiveSeconds | src/pages/doula/LiveMonitor.tsx:63-84 | never negative; 0 when idle or before the start; otherwise the floored whole seconds since the start |
| SrcLiveMonitor.LiveSecondsAgree | src/pages/doula/LiveMonitor.tsx:72-75 | the two generations' stopwatches always agree (also smartdoula_site/src/pages/doula/LiveMonitor.tsx:58-61) |
| SrcLiveMonitor.Monitor.constructor | src/pages/doula/LiveMonitor.tsx:21-27 | nothing open, no history, stopwatch at 0 |
| SrcLiveMonitor.Monitor.Load | src/pages/doula/LiveMonitor.tsx:86-129 | an open contraction is resumed with its live seconds; a fetched history replaces the old one |
| SrcLiveMonitor.Monitor.Tick | src/pages/doula/LiveMonitor.tsx:72-79 | the stopwatch is recomputed from the open contraction's start |
| SrcLiveMonitor.Monitor.HandleRealtimeUpdate | src/pages/doula/LiveMonitor.tsx:131-149 | an insert opens its row and restarts the stopwatch; an update with an end time closes it, zeroes the stopwatch and takes the refreshed history |
| Pregnancy.RawWeek | smartdoula_site/src/pages/doula/DoulaDashboard.tsx:65-70 | week `r` is the one in which the due date lies `40 - r` whole weeks ahead |
| Pregnancy.RawWeekMonotone | smartdoula_site/src/pages/doula/DoulaDashboard.tsx:65-70 | as time passes the week never goes back |
| Pregnancy.RawWeekTermEnds | smartdoula_site/src/pages/doula/DoulaDashboard.tsx:65-70 | on the due date the week is 40, and 280 days earlier it is 0 |
| Ui.Overflow | smartdoula_site/src/components/explorer/DoulaCard.tsx:89-101 | the first `limit` items are shown, a `+k` counter appears iff some are hidden, and shown plus counted is all of them |
| Ui.GuardedNumber | smartdoula_site/src/components/explorer/DoulaCard.tsx:59 | `{n && <element/>}` for a nullable number: nothing for `null`, a bare `0` for zero, the element with the number otherwise |
| Ui.WhatsAppLink | smartdoula_site/src/pages/mother/MotherDashboard.tsx:214 | the fixed prefix followed by only the phone's digits, or by `undefined` without a phone |
| Ui.WhatsAppLinkNormalised | smartdoula_site/src/pages/mother/MotherDashboard.tsx:214 | punctuation in a phone number does not change its link |
| Ui.InviteLink | smartdoula_site/src/components/layout/SidebarBase.tsx:85 | the origin, the fixed invite path, then exactly the doula's id |
| Ui.CopyInvite | smartdoula_site/src/components/layout/SidebarBase.tsx:83-86 | nothing is copied without a profile id, otherwise the invite link for that id |
| Ui.WordInitials | smartdoula_site/src/components/explorer/DoulaCard.tsx:30-34 | as many initials as there are non-empty words, but at most two; the k-th is the first character of the k-th non-empty word of the name split on spaces (also smartdoula_site/src/components/layout/SidebarBase.tsx:94-102) |
| Ui.FirstsOfWords | smartdoula_site/src/components/explorer/DoulaCard.tsx:30-32 | mapping words to their first character and joining gives one character per non-empty word, in order: that word's first character; empty words contribute nothing |
| Ui.OneWordInitial | smartdoula_site/src/components/explorer/DoulaCard.tsx:30-34 | a one-word name gives its first letter |
| Ui.ThreeWordInitials | smartdoula_site/src/components/explorer/DoulaCard.tsx:30-34 | three words give the first letters of the first two only: the result is cut to two |
| Ui.WordInitialsEmptyIff | smartdoula_site/src/components/explorer/DoulaCard.tsx:30-34 | initials are empty iff the name is made of spaces only |
| Ui.TwoWordInitials | smartdoula_site/src/components/explorer/DoulaCard.tsx:30-34 | a first and a last name separated by a space give the first letter of each |
| Records.Get | src/pages/mother/Settings.tsx:138-165 | a field the form does not hold reads as `null`, any other its value |
| Records.OrNull | src/pages/mother/Settings.tsx:144 | the value sent is `null` iff the field is falsy, and the field's value otherwise |
| Records.OrText | src/pages/mother/Settings.tsx:113-118 | a truthy value is kept, a falsy one replaced by the text fallback |
| Records.Set | src/pages/mother/Settings.tsx:178-180 | the changed field takes the value and every other field keeps its own |
| Records.SetTwice | src/pages/mother/Settings.tsx:178-180 | a second change to the same field overrides the first |
| Records.SetSwap | src/pages/mother/Settings.tsx:178-180 | changes to different fields commute |
| Records.SetSame | src/pages/mother/Settings.tsx:178-180 | writing back a field's own value changes nothing |
| Records.TextOr | src/pages/mother/Settings.tsx:99-106 | a nullable column reads as its text when truthy, the fallback otherwise |
| JsParseInt.LeadingDigits | src/pages/mother/Settings.tsx:162 | the longest prefix of digits |
| JsParseInt.LeadingDigitsAll | src/pages/mother/Settings.tsx:162 | a digit string followed by a non-digit is its own leading run |
| JsParseInt.ParseTrimmed | src/pages/mother/Settings.tsx:162 | `NaN` iff no digit follows the optional sign, else the signed value of those digits |
| JsParseInt.ParseInt | src/pages/mother/Settings.tsx:162 | `parseInt` skips leading white space, then reads as `ParseTrimmed` |
| JsParseInt.ParseIntToString | src/pages/mother/Settings.tsx:162 | a rendered integer, followed by anything but a digit, reads back as itself |
| JsParseInt.ParseIntDigits | src/pages/mother/Settings.tsx:162 | a run of digits reads as its value |
| JsParseInt.ParseIntNegative | src/pages/mother/Settings.tsx:162 | a minus sign followed by digits reads as the negated value |
| JsParseInt.ParseIntOr | smartdoula_site/src/pages/mother/Settings.tsx:154-156 | the fallback for `NaN` and for zero, the parsed value otherwise |
| Ui.Kept | smartdoula_site/src/pages/doula/DoulaDashboard.tsx:291-293 | `classes.filter(Boolean)`: one name per truthy argument, as many as there are truthy arguments, the k-th being the text of the k-th truthy argument in order; the names are non-empty, and none are kept iff every argument is falsy |
| Ui.Cn | smartdoula_site/src/pages/doula/DoulaDashboard.tsx:291-293 | the truthy class names joined by single spaces; the string is empty iff every argument is falsy (also src/components/dashboard/DoulaDashboard.tsx:272-274) |
| Ui.JoinNonEmpty | smartdoula_site/src/pages/doula/DoulaDashboard.tsx:292 | joining pieces whose first is non-empty gives a non-empty string |
| Ui.CnSplit | smartdoula_site/src/pages/doula/DoulaDashboard.tsx:291-293 | for class names without spaces, splitting the joined string on spaces gives back exactly the truthy names, in order |
| SrcClientDetail.StartDate | src/pages/doula/ClientDetail.tsx:514-525 | the last-period date wins; otherwise 280 days before the due date; nothing iff neither is known |
| SrcClientDetail.DiffDays | src/pages/doula/ClientDetail.tsx:527-529 | the whole days between start and today, rounded up, in either direction |
| SrcClientDetail.PregnancyProgress | src/pages/doula/ClientDetail.tsx:510-538 | week 0, day 0 without a date; otherwise the week of the elapsed days clamped to 0..42 and the unclamped day within the week |
| SrcClientDetail.ProgressAfterTerm | src/pages/doula/ClientDetail.tsx:531-537 | 310 days after the last period shows week 42, day 2: the week is clamped but the day is not |
| SrcClientDetail.ProgressSymmetric | src/pages/doula/ClientDetail.tsx:527-529 | a start in the future counts the same as one equally far in the past |
| SrcClientDetail.ProgressAtDueDate | src/pages/doula/ClientDetail.tsx:518-537 | counting back from the due date, the due date itself shows week 40, day 0 |
| SrcClientDetail.CalculateAge | src/pages/doula/ClientDetail.tsx:540-546 | nothing iff the date of birth is empty; otherwise the absolute whole years of the elapsed time |
| SrcClientDetail.EventIcon | src/pages/doula/ClientDetail.tsx:548-583 | each of the four known event types has its own style and every other type the default |
| SrcClientDetail.MotherName | src/pages/doula/ClientDetail.tsx:110 | the name when truthy, the placeholder otherwise; never empty |
| SrcClientDetail.AvatarLetter | src/pages/doula/ClientDetail.tsx:111 | one character: the name's first, or `?` for an empty name |
| SrcClientDetail.AvatarIsFirstLetter | src/pages/doula/ClientDetail.tsx:110-111 | because the shown name is never empty, the avatar is always its first character |
| SiteClientDetail.ProfileValue | smartdoula_site/src/pages/doula/ClientDetail.tsx:76-81 | a profile field reads as its value when truthy, as `""` when missing, empty or without a profile |
| SiteClientDetail.FormDataOf | smartdoula_site/src/pages/doula/ClientDetail.tsx:74-82 | every pregnancy column is copied and the six profile fields are set over them; nothing else is added |
| SiteClientDetail.FormProfileFieldsAreText | smartdoula_site/src/pages/doula/ClientDetail.tsx:76-81 | every profile field of the loaded form is text, never `null` |
| SiteClientDetail.Pick | smartdoula_site/src/pages/doula/ClientDetail.tsx:95-101 | exactly the listed fields, each as it stands in the form |
| SiteClientDetail.ProfileUpdate | smartdoula_site/src/pages/doula/ClientDetail.tsx:95-101 | the five profile columns as they stand in the form |
| SiteClientDetail.PregnancyUpdate | smartdoula_site/src/pages/doula/ClientDetail.tsx:106-134 | the listed pregnancy columns as they stand, except that a falsy price or last-period date is sent as `null` |
| SiteClientDetail.EmptyPriceSentAsNull | smartdoula_site/src/pages/doula/ClientDetail.tsx:108 | an empty price or last-period date is sent as `null`, never as `""` (also smartdoula_site/src/pages/doula/ClientDetail.tsx:124) |
| SiteClientDetail.CalculateWeek | smartdoula_site/src/pages/doula/ClientDetail.tsx:149-156 | 0 without a due date, otherwise the raw week floored at 0; never negative |
| SiteClientDetail.WeekUnbounded | smartdoula_site/src/pages/doula/ClientDetail.tsx:149-156 | three weeks after the due date the week is 43: there is no upper clamp |
| SiteClientDetail.TagStrip | smartdoula_site/src/pages/doula/ClientDetail.tsx:284-293 | at most the first two tags, and `+k` for the rest exactly when there are more than two |
| SiteClientDetail.WhatsApp | smartdoula_site/src/pages/doula/ClientDetail.tsx:219 | the WhatsApp link of the form's phone digits |
| SiteClientDetail.ClientDetailPage.constructor | smartdoula_site/src/pages/doula/ClientDetail.tsx:42-47 | empty form, not editing, not saving, loading |
| SiteClientDetail.ClientDetailPage.Load | smartdoula_site/src/pages/doula/ClientDetail.tsx:53-88 | without an id nothing happens; a fetched pregnancy and profile replace the form with their merge; a failure keeps it; loading ends |
| SiteClientDetail.ClientDetailPage.Update | smartdoula_site/src/pages/doula/ClientDetail.tsx:371-389 | the form's tabs change one field and keep the rest |
| SiteClientDetail.ClientDetailPage.Save | smartdoula_site/src/pages/doula/ClientDetail.tsx:90-147 | both payloads are built from the form; only the pregnancy update's outcome ends editing and asks for the client to be fetched again; saving is cleared either way |
| SrcClientsList.FilteredClients | src/pages/doula/ClientsList.tsx:39-42 | exactly the clients whose lowercased name contains the lowercased term, in fetched order |
| SrcClientsList.EmptySearchKeepsAll | src/pages/doula/ClientsList.tsx:39-42 | an empty search keeps every client, those without a profile included |
| SrcClientsList.MissingProfileMatchesOnlyEmpty | src/pages/doula/ClientsList.tsx:40-41 | a client without a profile is kept iff the search is empty |
| SrcClientsList.CalculateWeek | src/pages/doula/ClientsList.tsx:45-50 | 0 without a due date, otherwise the raw week floored at 0 |
| SrcClientsList.StatusOf | src/pages/doula/ClientsList.tsx:94 | `active` iff the pregnancy is active, `approaching` otherwise |
| SrcClientsList.CardName | src/pages/doula/ClientsList.tsx:84 | the name when truthy, and exactly the no-name placeholder when the name is missing or empty; never empty |
| SrcClientsList.DueLabel | src/pages/doula/ClientsList.tsx:86-92 | `-` without a due date, the formatted date otherwise |
| DoulaDashboard.FormatClient | smartdoula_site/src/pages/doula/DoulaDashboard.tsx:64-83 | for a row with a profile: the mother's name, the unclamped raw week, `approaching` iff that week is at least 38, and the hospital or a placeholder as location (also src/components/dashboard/DoulaDashboard.tsx:60-79) |
| DoulaDashboard.ApproachingIff | smartdoula_site/src/pages/doula/DoulaDashboard.tsx:64-80 | a client is approaching iff fewer than three weeks remain before the due date |
| DoulaDashboard.FormatClients | smartdoula_site/src/pages/doula/DoulaDashboard.tsx:64-83 | one card per row, in order, when every row has its joined profile; no list at all iff some row has none, since reading its `full_name` throws (also src/components/dashboard/DoulaDashboard.tsx:60-79) |
| DoulaDashboard.ClientsAfterFetch | smartdoula_site/src/pages/doula/DoulaDashboard.tsx:61-90 | the client list becomes the formatted rows only when the query succeeds and every row formats; a query error or a row without a profile leaves the old list |
| DoulaDashboard.FilteredClients | smartdoula_site/src/pages/doula/DoulaDashboard.tsx:121-125 | the cards whose name contains the term case-sensitively and, unless the tab is `all`, whose status is the tab, in order (also src/components/dashboard/DoulaDashboard.tsx:115-119) |
| DoulaDashboard.AllTabShowsAll | smartdoula_site/src/pages/doula/DoulaDashboard.tsx:121-125 | the `all` tab with an empty search shows every card |
| DoulaDashboard.StatusCount | smartdoula_site/src/pages/doula/DoulaDashboard.tsx:184 | the number of cards with that status: at most all of them, 0 iff no card has it, and for a status tab the length of that tab's list with an empty search (also smartdoula_site/src/pages/doula/DoulaDashboard.tsx:206) |
| DoulaDashboard.TabIsStatusFilter | smartdoula_site/src/pages/doula/DoulaDashboard.tsx:121-125 | with an empty search a status tab shows exactly the cards of that status, in order |
| DoulaDashboard.UrgentCountIsZero | smartdoula_site/src/pages/doula/DoulaDashboard.tsx:80 | no formatted card is ever `urgent`, so that stat always reads 0 (also smartdoula_site/src/pages/doula/DoulaDashboard.tsx:206) |
| DoulaDashboard.UrgentTabEmpty | smartdoula_site/src/pages/doula/DoulaDashboard.tsx:80 | the `urgent` tab of formatted cards always shows an empty list (also smartdoula_site/src/pages/doula/DoulaDashboard.tsx:121-125) |
| DoulaDashboard.GreetingIsFirstName | smartdoula_site/src/pages/doula/DoulaDashboard.tsx:144 | the greeting shows the first name of a two-part name |
| MotherDashboard.CleanCode | smartdoula_site/src/pages/mother/MotherDashboard.tsx:67 | the trimmed code with every character upper-cased, of the trimmed length |
| MotherDashboard.BlankCodeRejected | smartdoula_site/src/pages/mother/MotherDashboard.tsx:67-71 | the cleaned code is empty iff the input is white space only |
| MotherDashboard.DueDayFrom | smartdoula_site/src/pages/mother/MotherDashboard.tsx:93-95 | the UTC calendar day holding the instant 280 days from now |
| MotherDashboard.DueDayIsTodayPlusTerm | smartdoula_site/src/pages/mother/MotherDashboard.tsx:93-95 | the new due date is today's UTC date plus 280 days |
| MotherDashboard.WeekShown | smartdoula_site/src/pages/mother/MotherDashboard.tsx:195-203 | the raw week of the due date, floored at 1 |
| MotherDashboard.NewPregnancyInWeekOne | smartdoula_site/src/pages/mother/MotherDashboard.tsx:89-96 | right after connecting, the new pregnancy is shown in week 1 (also smartdoula_site/src/pages/mother/MotherDashboard.tsx:195-203) |
| MotherDashboard.MotherDashboardPage.constructor | smartdoula_site/src/pages/mother/MotherDashboard.tsx:30-36 | no pregnancy, no doula, an empty code, not linking, loading, so the spinner is shown |
| MotherDashboard.MotherDashboardPage.Shown | smartdoula_site/src/pages/mother/MotherDashboard.tsx:110-119 | the spinner iff loading; the connect form iff loaded without an active pregnancy; the dashboard iff loaded with one |
| MotherDashboard.MotherDashboardPage.FetchData | smartdoula_site/src/pages/mother/MotherDashboard.tsx:42-63 | a found pregnancy and its doula replace the state; otherwise it stays; loading ends, and the page shows the dashboard iff a pregnancy was found now or before, the connect form otherwise |
| MotherDashboard.MotherDashboardPage.HandleConnectDoula | smartdoula_site/src/pages/mother/MotherDashboard.tsx:66-108 | a blank code inserts nothing; a code that finds no doula inserts nothing; otherwise an active pregnancy due 280 days on is inserted, and the page refetches iff the insert succeeds; linking ends cleared |
| MotherDashboard.MotherDashboardPage.WhatsApp | smartdoula_site/src/pages/mother/MotherDashboard.tsx:207-216 | a link exists iff there is a doula, built from the doula phone's digits |
| WeeklyProgress.Trimester | smartdoula_site/src/components/dashboard/WeeklyProgress.tsx:9 | 1 through week 12, 3 after week 27, 2 between |
| WeeklyProgress.TrimesterMonotone | smartdoula_site/src/components/dashboard/WeeklyProgress.tsx:9 | a later week never falls in an earlier trimester |
| WeeklyProgress.ReachedCount | smartdoula_site/src/components/dashboard/WeeklyProgress.tsx:55-58 | the highlighted milestones are exactly a prefix of the list (also smartdoula_site/src/components/dashboard/WeeklyProgress.tsx:67-76) |
| WeeklyProgress.ReachedUpTo | smartdoula_site/src/components/dashboard/WeeklyProgress.tsx:55-58 | among the first `k` milestones the reached ones form a prefix |
| WeeklyProgress.AllReachedAtTerm | smartdoula_site/src/components/dashboard/WeeklyProgress.tsx:14-20 | every milestone is lit iff the week is at least 40, none iff it is below 12 (also smartdoula_site/src/components/dashboard/WeeklyProgress.tsx:55-58) |
| WeeklyProgress.TrimesterMilestones | smartdoula_site/src/components/dashboard/WeeklyProgress.tsx:9-20 | for every week the label and the lit milestones agree: the first trimester lights at most one, the second one to three, the third at least three |
| PaymentsPage.Amounts | smartdoula_site/src/pages/doula/PaymentsPage.tsx:112-113 | the amount of each payment, in order |
| PaymentsPage.AgreedPrices | smartdoula_site/src/pages/doula/PaymentsPage.tsx:114-118 | each client's agreed price, 0 when it is missing or not a number |
| PaymentsPage.ComputeStats | smartdoula_site/src/pages/doula/PaymentsPage.tsx:111-124 | paid is the sum of all payments, agreed the sum of all prices, pending their difference |
| PaymentsPage.NewPaymentReducesPending | smartdoula_site/src/pages/doula/PaymentsPage.tsx:111-124 | one more payment raises the paid total by its amount and lowers pending by the same |
| PaymentsPage.AgreedTotalNonNegative | smartdoula_site/src/pages/doula/PaymentsPage.tsx:114-118 | with non-negative prices the agreed total is never negative |
| PaymentsPage.ActiveClients | smartdoula_site/src/pages/doula/PaymentsPage.tsx:164 | the active clients, a subsequence of all clients |
| PaymentsPage.ArchivedClients | smartdoula_site/src/pages/doula/PaymentsPage.tsx:165 | the inactive clients, a subsequence of all clients |
| PaymentsPage.ClientsPartitioned | smartdoula_site/src/pages/doula/PaymentsPage.tsx:164-165 | every client is in exactly one of the two groups |
| PaymentsPage.FilteredPayments | smartdoula_site/src/pages/doula/PaymentsPage.tsx:167-171 | all payments for "all"; otherwise exactly the payments of the selected pregnancy, in order |
| PaymentsPage.ResetAfterSave | smartdoula_site/src/pages/doula/PaymentsPage.tsx:145 | amount, invoice link and notes cleared, every other field kept |
| PaymentsPage.MethodLabel | smartdoula_site/src/pages/doula/PaymentsPage.tsx:517-532 | the label of each of the five known methods; an unknown method shows as itself |
| PaymentsPage.MethodLabelsDistinct | smartdoula_site/src/pages/doula/PaymentsPage.tsx:517-532 | different known methods show different labels |
| PaymentsPage.StatusLabel | smartdoula_site/src/pages/doula/PaymentsPage.tsx:349 | "paid" shows the paid badge, anything else the pending one |
| PaymentsPage.PaymentsPageState.constructor | smartdoula_site/src/pages/doula/PaymentsPage.tsx:48-72 | empty lists, zero totals, a closed dialog, and a form dated today with method transfer and status paid |
| PaymentsPage.PaymentsPageState.FetchData | smartdoula_site/src/pages/doula/PaymentsPage.tsx:78-124 | the fetched lists replace the state and the totals are recomputed from them |
| PaymentsPage.PaymentsPageState.HandleSave | smartdoula_site/src/pages/doula/PaymentsPage.tsx:133-150 | without a pregnancy or an amount nothing is sent or changed; otherwise the form is inserted, and only a successful insert closes the dialog, resets the form and refetches |
| PaymentsPage.PaymentsPageState.HandleDelete | smartdoula_site/src/pages/doula/PaymentsPage.tsx:152-161 | a payment is deleted, and the page refetches, iff the user confirms |
| CalendarPage.BirthEvent | smartdoula_site/src/pages/doula/CalendarPage.tsx:102-111 | an all-day due-date entry that starts and ends on the due date, titled with the mother's name, or with the word `null` when the profile has no name |
| CalendarPage.MeetingEvent | smartdoula_site/src/pages/doula/CalendarPage.tsx:116-125 | a meeting entry lasting one hour from the event's date, keeping its id, title, pregnancy and content |
| CalendarPage.BirthEvents | smartdoula_site/src/pages/doula/CalendarPage.tsx:101-113 | no list iff some pregnancy with a due date has no joined profile, since reading its name throws; otherwise at most one entry per pregnancy, each an all-day due date without duration |
| CalendarPage.BirthEventCount | smartdoula_site/src/pages/doula/CalendarPage.tsx:101-113 | when the list is built, exactly as many due-date entries as pregnancies with a due date |
| CalendarPage.Meetings | smartdoula_site/src/pages/doula/CalendarPage.tsx:116-126 | one meeting entry per fetched event row, in order |
| CalendarPage.BuildEvents | smartdoula_site/src/pages/doula/CalendarPage.tsx:98-126 | the pushed list is the due-date entries followed by the meetings, each in fetched order; a throwing due-date entry abandons the list |
| CalendarPage.BuiltEventsShape | smartdoula_site/src/pages/doula/CalendarPage.tsx:98-126 | every built entry is a due date without duration or a one-hour meeting |
| CalendarPage.EventColour | smartdoula_site/src/pages/doula/CalendarPage.tsx:249-251 | red exactly for a due date, green for every other entry |
| CalendarPage.SaveActionOf | smartdoula_site/src/pages/doula/CalendarPage.tsx:180-197 | nothing is saved iff the title, the pregnancy or the start is missing; an update iff the dialog edits a selected event; the written row is always a meeting with the form's fields |
| CalendarPage.FormInstant | smartdoula_site/src/pages/doula/CalendarPage.tsx:143-146 | the instant a date-time input holds is the filled-in instant cut to its minute: a whole minute, not after it, and less than a minute before it |
| CalendarPage.FormInstantKeepsMinutes | smartdoula_site/src/pages/doula/CalendarPage.tsx:171-172 | the cut changes an instant iff it has seconds, and refilling the form from its own value changes nothing |
| CalendarPage.FormHourLater | smartdoula_site/src/pages/doula/CalendarPage.tsx:144-147 | the cut end of a slot one hour on is exactly one hour after the cut start |
| CalendarPage.SlotSaveInserts | smartdoula_site/src/pages/doula/CalendarPage.tsx:138-157 | a dialog opened on an empty slot and filled in inserts a meeting at the start of the slot's minute: at the slot itself iff it is a whole minute, otherwise less than a minute earlier, as for the button's `new Date()` (also smartdoula_site/src/pages/doula/CalendarPage.tsx:180-217) |
| CalendarPage.CalendarPageState.constructor | smartdoula_site/src/pages/doula/CalendarPage.tsx:54-70 | no entries, a closed non-editing dialog, no selected event, an empty form |
| CalendarPage.CalendarPageState.FetchData | smartdoula_site/src/pages/doula/CalendarPage.tsx:76-128 | the entries are rebuilt as the due dates followed by the meetings; when building throws, the error is caught and the old entries stay |
| CalendarPage.CalendarPageState.HandleSelectSlot | smartdoula_site/src/pages/doula/CalendarPage.tsx:138-157 | a new-event dialog, not editing, whose inputs hold the chosen slot and one hour later, each cut to the minute; the end is exactly an hour after the start, and the start is within a minute before the slot |
| CalendarPage.CalendarPageState.HandleSelectEvent | smartdoula_site/src/pages/doula/CalendarPage.tsx:160-177 | a due-date entry changes nothing; another entry opens the dialog editing it, with its start and end cut to the minute and a missing pregnancy or content read as empty |
| CalendarPage.CalendarPageState.HandleSave | smartdoula_site/src/pages/doula/CalendarPage.tsx:180-225 | sends what SaveActionOf decides; only a successful write closes the dialog and refetches |
| CalendarPage.CalendarPageState.HandleDelete | smartdoula_site/src/pages/doula/CalendarPage.tsx:228-246 | deletes the selected event iff there is one and the user confirms; only a successful delete closes the dialog and refetches |
| MedicalTab.Update | smartdoula_site/src/components/clients/tabs/MedicalTab.tsx:14-15 | the named field takes the value; every other field is kept and no other field appears |
| MedicalTab.AddTag | smartdoula_site/src/components/clients/tabs/MedicalTab.tsx:17-22 | a non-empty tag not yet present is appended and the input cleared; otherwise form and input are unchanged |
| MedicalTab.AddTagClearsOnlyOnAppend | smartdoula_site/src/components/clients/tabs/MedicalTab.tsx:17-22 | the input ends empty iff it was empty or its tag was appended; the list grows by one exactly on append |
| MedicalTab.AddTagKeepsNoDuplicates | smartdoula_site/src/components/clients/tabs/MedicalTab.tsx:17-22 | adding a tag never creates a duplicate |
| MedicalTab.BlankTagAccepted | smartdoula_site/src/components/clients/tabs/MedicalTab.tsx:18 | a tag of one space is appended, since the tag is not trimmed |
| MedicalTab.RemoveTag | smartdoula_site/src/components/clients/tabs/MedicalTab.tsx:24-29 | the tag no longer occurs, every other tag stays in order, other fields are kept |
| MedicalTab.TagsOfUpdate | smartdoula_site/src/components/clients/tabs/MedicalTab.tsx:19 | a replaced tag list is read back as written (also smartdoula_site/src/components/clients/tabs/MedicalTab.tsx:27) |
| MedicalTab.FilterKeepsOthers | smartdoula_site/src/components/clients/tabs/MedicalTab.tsx:27 | filtering out one tag keeps every other tag |
| MedicalTab.RemoveUndoesAdd | smartdoula_site/src/components/clients/tabs/MedicalTab.tsx:17-29 | removing a tag just added gives back the list as it was |
| BirthPlan.DefaultPlan | src/components/clients/BirthPlanViewer.tsx:22-28 | lights, music and pool off; only natural pain management on; empty notes (also src/components/clients/tabs/BirthPlanViewer.tsx:18-22) |
| BirthPlan.UpdateSection | src/components/clients/BirthPlanViewer.tsx:44-49 | one choice set; the other choices of that section and the other sections kept; a missing section created with just that choice (also src/components/clients/tabs/BirthPlanViewer.tsx:24-30) |
| BirthPlan.UpdateSectionTwice | src/components/clients/BirthPlanViewer.tsx:44-49 | a second change of the same choice overrides the first |
| BirthPlan.UpdateSectionSame | src/components/clients/BirthPlanViewer.tsx:44-49 | setting a choice to its current value changes nothing |
| BirthPlan.UpdateSectionCommutes | src/components/clients/BirthPlanViewer.tsx:44-49 | changes to different choices commute |
| BirthPlan.UpdateNotes | src/components/clients/BirthPlanViewer.tsx:125 | only the notes change (also src/components/clients/tabs/BirthPlanViewer.tsx:32-35) |
| BirthPlanTab.SafePlan | src/components/clients/tabs/BirthPlanViewer.tsx:18-22 | the given plan, or the default when there is none |
| BirthPlanTab.NotesText | src/components/clients/tabs/BirthPlanViewer.tsx:109 | the plan's notes, or empty text when it has none |
| BirthPlanTab.EditMissingPlan | src/components/clients/tabs/BirthPlanViewer.tsx:18-30 | editing a missing plan starts from the default, keeping the other defaults |
| BirthPlanEditor.Editor.constructor | src/components/clients/BirthPlanViewer.tsx:22-30 | the stored plan, or the default without one; not saving |
| BirthPlanEditor.Editor.SetChoice | src/components/clients/BirthPlanViewer.tsx:44-49 | the held plan with one choice set |
| BirthPlanEditor.Editor.EditNotes | src/components/clients/BirthPlanViewer.tsx:125 | the held plan with only its notes replaced |
| BirthPlanEditor.Editor.HandleSave | src/components/clients/BirthPlanViewer.tsx:32-42 | the whole current plan is written; saving is clear afterwards either way; no element of the page calls this handler, so it is unreachable from the page |
| Sidebar.ActiveOnOwnPath | smartdoula_site/src/components/layout/SidebarBase.tsx:140-144 | every item is highlighted on its own page |
| Sidebar.HomeExactOnly | smartdoula_site/src/components/layout/SidebarBase.tsx:140-144 | the two home items are highlighted only on an exact match |
| Sidebar.ActiveOnSubPath | smartdoula_site/src/components/layout/SidebarBase.tsx:140-144 | any other item stays highlighted on every path extending its own |
| Sidebar.NoPathBoundary | smartdoula_site/src/components/layout/SidebarBase.tsx:144 | the prefix rule also highlights an unrelated page whose path merely extends the text |
| Sidebar.BadgeOf | smartdoula_site/src/components/layout/SidebarBase.tsx:169-173 | a pill exactly for a non-zero badge on an inactive item, showing the count; a bare 0 exactly for a zero badge |
| Sidebar.NoPillWhenActive | smartdoula_site/src/components/layout/SidebarBase.tsx:140-173 | the pill never shows on the highlighted item |
| Sidebar.Initials | smartdoula_site/src/components/layout/SidebarBase.tsx:94-102 | the word initials, at most two, or the placeholder when the name is missing or yields none |
| Sidebar.InitialsPlaceholderIff | smartdoula_site/src/components/layout/SidebarBase.tsx:94-102 | the placeholder appears iff the name is missing or all spaces |
| Sidebar.FirstsFromName | smartdoula_site/src/components/layout/SidebarBase.tsx:97-99 | every initial is a character of the name |
| Sidebar.SettingsPath | smartdoula_site/src/components/layout/SidebarBase.tsx:214-218 | the doula settings page iff the role is doula, the mother one otherwise |
| Sidebar.SidebarState.constructor | smartdoula_site/src/components/layout/SidebarBase.tsx:42 | the copied flag starts clear |
| Sidebar.SidebarState.HandleCopyInvite | smartdoula_site/src/components/layout/SidebarBase.tsx:83-92 | without a profile id nothing is copied; otherwise the invite link is copied and the flag set |
| Sidebar.SidebarState.CopiedTimeout | smartdoula_site/src/components/layout/SidebarBase.tsx:91 | the timer clears the copied flag |
| DoulaSettings.WithField | src/pages/doula/DoulaSettings.tsx:127-129 | the named field takes the value and every other field is kept |
| DoulaSettings.FormExtensional | src/pages/doula/DoulaSettings.tsx:30-37 | forms agreeing on every field are equal |
| DoulaSettings.WithFieldSame | src/pages/doula/DoulaSettings.tsx:127-129 | retyping a field's current value changes nothing |
| DoulaSettings.LoadedForm | src/pages/doula/DoulaSettings.tsx:60-67 | each profile value or empty text, the email from the user |
| DoulaSettings.EmptyProfileLoadsEmpty | src/pages/doula/DoulaSettings.tsx:60-67 | an empty profile loads as the empty form |
| DoulaSettings.AfterSave | src/pages/doula/DoulaSettings.tsx:106-112 | the four saved fields from the returned row or empty text; avatar and email kept |
| DoulaSettings.SaveEchoKeepsForm | src/pages/doula/DoulaSettings.tsx:84-112 | when the server returns what was sent the form is unchanged |
| DoulaSettings.Initials | src/pages/doula/DoulaSettings.tsx:131-139 | ME for an empty name, else the upper-cased word initials, at most two |
| DoulaSettings.BlankNameHasNoInitials | src/pages/doula/DoulaSettings.tsx:131-139 | a name of spaces gives no initials rather than ME |
| DoulaSettings.SettingsPage.constructor | src/pages/doula/DoulaSettings.tsx:27-37 | the empty form, loading, not saving |
| DoulaSettings.SettingsPage.FetchProfile | src/pages/doula/DoulaSettings.tsx:43-74 | a user with a profile loads the form from it; otherwise it is kept; loading ends |
| DoulaSettings.SettingsPage.HandleChange | src/pages/doula/DoulaSettings.tsx:127-129 | the form with the one field replaced |
| DoulaSettings.SettingsPage.HandleSave | src/pages/doula/DoulaSettings.tsx:76-126 | no user sends nothing; otherwise the four fields are sent; a returned row is copied back, none is an error leaving the form; saving ends clear |
| DoulaCard.CardInitials | smartdoula_site/src/components/explorer/DoulaCard.tsx:30-34 | the word initials, at most two, with no fallback |
| DoulaCard.CardInitialsEmptyIff | smartdoula_site/src/components/explorer/DoulaCard.tsx:30-34 | the avatar has no initials iff the name is all spaces |
| DoulaCard.WhatsAppHref | smartdoula_site/src/components/explorer/DoulaCard.tsx:37-39 | "#" without a phone; otherwise a wa.me link on the phone's digits with the greeting |
| DoulaCard.WhatsAppHrefNormalised | smartdoula_site/src/components/explorer/DoulaCard.tsx:37-39 | phones with the same digits give the same link |
| DoulaCard.RegisterPath | smartdoula_site/src/components/explorer/DoulaCard.tsx:42-45 | the invite page for this doula |
| DoulaCard.RegisterPathCarriesId | smartdoula_site/src/components/explorer/DoulaCard.tsx:42-45 | the doula id is read back after the invite path |
| DoulaCard.ExperienceBadge | smartdoula_site/src/components/explorer/DoulaCard.tsx:59-63 | three outcomes: nothing when the years are missing, a bare `0` when they are zero, and the badge with the years exactly when they are present and non-zero |
| DoulaCard.ZeroYearsShowsZero | smartdoula_site/src/components/explorer/DoulaCard.tsx:59 | zero years renders a bare `0` and no badge, and only zero does |
| DoulaCard.SpecialtyStrip | smartdoula_site/src/components/explorer/DoulaCard.tsx:89-101 | at most the first three specialties, and a "+k" for the rest exactly when there are more than three |
| DoulaCard.BioText | smartdoula_site/src/components/explorer/DoulaCard.tsx:83-86 | the biography when present and non-empty, else the generic text, never empty |
| DoulaExplorer.FilterDoulas | smartdoula_site/src/pages/public/DoulaExplorerPage.tsx:26-42 | exactly the doulas matching the search term (name, bio or a specialty, lower-cased) and serving the area, in order |
| DoulaExplorer.NoFilterKeepsAll | smartdoula_site/src/pages/public/DoulaExplorerPage.tsx:29 | an empty search and the area "all" keep every doula (also smartdoula_site/src/pages/public/DoulaExplorerPage.tsx:40) |
| DoulaExplorer.NameMatchFound | smartdoula_site/src/pages/public/DoulaExplorerPage.tsx:31-33 | a doula whose lower-cased name contains the term is found |
| DoulaExplorer.SortInPlace | smartdoula_site/src/pages/public/DoulaExplorerPage.tsx:46-53 | the array afterwards is the stable insertion sort of what it held, so it is sorted, a permutation, and keeps the order of equal elements |
| DoulaExplorer.InsertLast | smartdoula_site/src/pages/public/DoulaExplorerPage.tsx:46-53 | one step of the sort: the element at `i` moves left past the greater ones before it, giving the insertion of it into the sorted prefix; the rest of the array is untouched |
| DoulaExplorer.SortedCopy | smartdoula_site/src/pages/public/DoulaExplorerPage.tsx:46-53 | `[...s].sort(compare)` on a copy gives the insertion sort of `s` |
| DoulaExplorer.InsertionSortSorted | smartdoula_site/src/pages/public/DoulaExplorerPage.tsx:46-53 | for a total preorder the insertion sort is sorted |
| DoulaExplorer.InsertionSortPermutes | smartdoula_site/src/pages/public/DoulaExplorerPage.tsx:46-53 | the insertion sort is a permutation of its input |
| DoulaExplorer.InsertionSortStable | smartdoula_site/src/pages/public/DoulaExplorerPage.tsx:46-53 | for a total preorder the sort is stable: the elements equivalent to any given one appear in their original order, as in a stable `Array.prototype.sort` |
| DoulaExplorer.InsertStable | smartdoula_site/src/pages/public/DoulaExplorerPage.tsx:46-53 | inserting an element keeps the relative order of each equivalence class and puts the new element after its equals |
| DoulaExplorer.ByExperience | smartdoula_site/src/pages/public/DoulaExplorerPage.tsx:46-48 | orders by years of experience, most first, a missing value counting as 0 |
| DoulaExplorer.ByName | smartdoula_site/src/pages/public/DoulaExplorerPage.tsx:50 | orders by the collation of the full names |
| DoulaExplorer.ByRank | smartdoula_site/src/pages/public/DoulaExplorerPage.tsx:53 | orders by a rank key standing for the random shuffle |
| DoulaExplorer.ByExperienceTotal | smartdoula_site/src/pages/public/DoulaExplorerPage.tsx:46-48 | the experience order is a total preorder |
| DoulaExplorer.ByNameTotal | smartdoula_site/src/pages/public/DoulaExplorerPage.tsx:50 | the name order is a total preorder for a consistent collation |
| DoulaExplorer.ByRankTotal | smartdoula_site/src/pages/public/DoulaExplorerPage.tsx:53 | the rank order is a total preorder |
| DoulaExplorer.ExperienceSortedDescending | smartdoula_site/src/pages/public/DoulaExplorerPage.tsx:45-48 | a list sorted by experience has non-increasing years |
| DoulaExplorer.ExplorerPage.constructor | smartdoula_site/src/pages/public/DoulaExplorerPage.tsx:10-18 | no doulas, empty search, area "all", random order |
| DoulaExplorer.ExplorerPage.FetchDoulas | smartdoula_site/src/pages/public/DoulaExplorerPage.tsx:59-77 | the fetched doulas are both the full and the shown list |
| DoulaExplorer.ExplorerPage.ApplyFilters | smartdoula_site/src/pages/public/DoulaExplorerPage.tsx:24-57 | the shown list is the stable sort of the filtered doulas by the chosen order: a sorted permutation of them |
| Notifications.MonitorLink | src/pages/doula/NotificationsPage.tsx:137-143 | a link exists iff the notification is a contraction alert with a pregnancy, and it is the live-monitor path followed by that pregnancy id (also smartdoula_site/src/components/dashboard/AlertsWidget.tsx:155-159) |
| Notifications.IconOf | src/pages/doula/NotificationsPage.tsx:110-118 | the pulse icon exactly for a contraction alert (also smartdoula_site/src/components/dashboard/AlertsWidget.tsx:128-136) |
| Notifications.MonitorLinkHasPulse | src/pages/doula/NotificationsPage.tsx:110-143 | a notification carrying the monitor link shows the pulse icon |
| Notifications.RemoveById | src/pages/doula/NotificationsPage.tsx:79 | the notifications with a different id, in order, and none with that id (also smartdoula_site/src/components/dashboard/AlertsWidget.tsx:79) |
| Notifications.RemoveByIdIdempotent | src/pages/doula/NotificationsPage.tsx:79 | removing the same id twice is removing it once (also smartdoula_site/src/components/dashboard/AlertsWidget.tsx:79) |
| Notifications.RemoveByIdCount | src/pages/doula/NotificationsPage.tsx:79 | exactly the notifications with that id are dropped (also smartdoula_site/src/components/dashboard/AlertsWidget.tsx:79) |
| Seqs.FilterCount | src/pages/doula/NotificationsPage.tsx:79 | a filter keeps as many elements as satisfy its predicate |
| Notifications.MarkRead | src/pages/doula/NotificationsPage.tsx:67-72 | the same list with the notifications of that id read and every other field and notification unchanged |
| Notifications.MarkReadIdempotent | src/pages/doula/NotificationsPage.tsx:67-72 | marking the same id twice is marking it once |
| Notifications.UnreadAfterMark | src/pages/doula/NotificationsPage.tsx:67-72 | the unread notifications after marking one read are the previously unread ones without it, so the page and the widget agree (also smartdoula_site/src/components/dashboard/AlertsWidget.tsx:60, smartdoula_site/src/components/dashboard/AlertsWidget.tsx:73-81) |
| NotificationsPage.CaptionAndLinkExclusive | src/pages/doula/NotificationsPage.tsx:137-155 | the system caption and the monitor link never show together, and a captioned notification has the bell icon |
| NotificationsPage.ShowsMarkButton | src/pages/doula/NotificationsPage.tsx:160-168 | the mark-as-read button shows iff the notification is unread |
| Notifications.DropOnSuccess | src/pages/doula/NotificationsPage.tsx:74-80 | a successful call removes the notifications with that id, a failed one keeps the list; used for the centre's delete and the widget's mark as read (also smartdoula_site/src/components/dashboard/AlertsWidget.tsx:73-81) |
| AlertsWidget.SenderName | smartdoula_site/src/components/dashboard/AlertsWidget.tsx:142 | the mother's name when present and non-empty, otherwise the system sender; never empty |
| AlertsWidget.CountBadge | smartdoula_site/src/components/dashboard/AlertsWidget.tsx:91-95 | the count badge shows iff there is a notification, with their number |
| AlertsWidget.WidgetQuery | smartdoula_site/src/components/dashboard/AlertsWidget.tsx:56-62 | at most five unread notifications, a prefix of all unread ones in order, all of them when fewer than five |
| SrcAlertsWidget.Dismiss | src/components/dashboard/AlertsWidget.tsx:64-66 | the alerts with a different id, in order, and none with that id |
| SrcAlertsWidget.ViewOf | src/components/dashboard/AlertsWidget.tsx:73-96 | the empty state iff there are no alerts, otherwise the count badge and the clear-all button |
| SrcAlertsWidget.DismissEachIsClear | src/components/dashboard/AlertsWidget.tsx:64-66 | for any list, dismissing ids one by one leaves the same as clearing all iff every alert's id was dismissed (also src/components/dashboard/AlertsWidget.tsx:82) |
| SrcAlertsWidget.DismissEachKeeps | src/components/dashboard/AlertsWidget.tsx:64-66 | after any run of dismissals the list holds exactly the alerts whose id was not dismissed |
| SrcAlertsWidget.ClearAll | src/components/dashboard/AlertsWidget.tsx:79-86 | no alerts remain and the empty state shows |
| RootRedirect.ByProfile | smartdoula_site/src/pages/RootRedirect.tsx:36-37 | the doula home iff the stored role is doula, else the mother home; never the sign-in page (also src/pages/RootRedirect.tsx:25-29) |
| RootRedirect.SiteRedirect | smartdoula_site/src/pages/RootRedirect.tsx:10-39 | sign-in iff there is no session; the metadata role decides doula or mother without reading the profile; any other role reads the profile and decides by it |
| RootRedirect.SrcRedirect | src/pages/RootRedirect.tsx:10-31 | sign-in iff there is no user; otherwise by the stored role |
| RootRedirect.SignedInGoesHome | smartdoula_site/src/pages/RootRedirect.tsx:16-38 | a signed-in user always lands on one of the two home pages (also src/pages/RootRedirect.tsx:14-29) |
| RootRedirect.GenerationsAgreeIff | smartdoula_site/src/pages/RootRedirect.tsx:22-38 | the two generations agree iff the metadata role is absent or unknown, or agrees with the stored role on being doula (also src/pages/RootRedirect.tsx:25-29) |
| RootRedirect.NoMetadataRoleFallsBack | smartdoula_site/src/pages/RootRedirect.tsx:28-38 | without a metadata role the site reads the profile and decides as the first generation |
| MotherSettings.TextPart | src/pages/mother/Settings.tsx:112-118 | exactly the listed fields, each the row's value or empty text (also smartdoula_site/src/pages/mother/Settings.tsx:105-110) |
| MotherSettings.NumberText | src/pages/mother/Settings.tsx:105 | a missing number gives the fallback, a present one its decimal text, 0 included (also smartdoula_site/src/pages/mother/Settings.tsx:97-99) |
| MotherSettings.ParseValue | src/pages/mother/Settings.tsx:162 | a number or null; text parses by parseInt, null exactly when that fails |
| MotherSettings.NumberTextRoundTrip | src/pages/mother/Settings.tsx:105 | a number shown in the form is read back unchanged on save (also src/pages/mother/Settings.tsx:162) |
| MotherSettings.FallbackText | src/pages/mother/Settings.tsx:105 | a one-digit fallback text reads back as its number (also smartdoula_site/src/pages/mother/Settings.tsx:97-99, src/pages/mother/Settings.tsx:162) |
| MotherSettings.OneDigitValue | src/pages/mother/Settings.tsx:162 | a single digit's value is that digit |
| MotherSettings.ProfileUpdate | src/pages/mother/Settings.tsx:140-146 | exactly the five profile columns from the form, an empty birth date sent as null (also smartdoula_site/src/pages/mother/Settings.tsx:132-138) |
| SrcMotherSettings.InitialForm | src/pages/mother/Settings.tsx:31-50 | no pregnancy id, one fetus, every other field empty |
| SrcMotherSettings.PregnancyPart | src/pages/mother/Settings.tsx:96-107 | the pregnancy id, each text column or empty text, and the fetus count as text with fallback 1 |
| SrcMotherSettings.LoadedForm | src/pages/mother/Settings.tsx:85-120 | the profile's fields, plus the pregnancy's exactly for a mother with an active pregnancy; nothing else |
| SrcMotherSettings.PartsDisjoint | src/pages/mother/Settings.tsx:112-120 | the profile and pregnancy parts have no field in common |
| SrcMotherSettings.LoadedProfileField | src/pages/mother/Settings.tsx:112-118 | each profile field of the loaded form is the profile's value or empty text |
| SrcMotherSettings.NoPregnancyNoPregnancyWrite | src/pages/mother/Settings.tsx:96-120 | without an active pregnancy no save writes a pregnancy (also src/pages/mother/Settings.tsx:152) |
| SrcMotherSettings.PregnancyUpdate | src/pages/mother/Settings.tsx:155-164 | the listed columns as they stand, an empty last-period date as null, the fetus count through parseInt |
| SrcMotherSettings.FetusCountSurvivesSave | src/pages/mother/Settings.tsx:105 | a stored number of fetuses, 0 included, survives a load and an unchanged save (also src/pages/mother/Settings.tsx:162) |
| SrcMotherSettings.DueDayAsWritten | src/pages/mother/Settings.tsx:57-66 | forty weeks after the last period when the zone offset does not grow in between, one day fewer when it does |
| SrcMotherSettings.DueDayAsWrittenEarlyInJerusalem | src/pages/mother/Settings.tsx:59-63 | a last period on 2025-01-01 in Jerusalem gives 2025-10-07 instead of 2025-10-08 |
| SrcMotherSettings.DueDayFromLmp | src/pages/mother/Settings.tsx:60 | the day exactly forty weeks after the last period |
| SrcMotherSettings.DueDayAsWrittenAgreesWithoutShift | src/pages/mother/Settings.tsx:57-66 | where the offset does not grow the code as written gives the intended day |
| SrcMotherSettings.SettingsPage.constructor | src/pages/mother/Settings.tsx:28-50 | role mother, the initial form, loading, not saving |
| SrcMotherSettings.SettingsPage.FetchUserData | src/pages/mother/Settings.tsx:68-127 | a user with a profile sets the role and the merged form; otherwise nothing changes; loading ends |
| SrcMotherSettings.SettingsPage.LmpEffect | src/pages/mother/Settings.tsx:57-66 | with a last-period date and no due date the due date is set to the day the code as written computes for the zone offsets at the two dates, which is forty weeks later when the offset does not grow; otherwise the form is unchanged |
| SrcMotherSettings.SettingsPage.HandleChange | src/pages/mother/Settings.tsx:178-180 | the form with one field replaced |
| SrcMotherSettings.SettingsPage.HandleSave | src/pages/mother/Settings.tsx:129-176 | the profile is written for a signed-in user; the pregnancy only after that succeeds and for a mother with a pregnancy id; success iff every attempted write succeeded; saving ends clear |
| SiteMotherSettings.InitialForm | smartdoula_site/src/pages/mother/Settings.tsx:38-57 | no pregnancy id, one fetus, no previous births, every other field empty |
| SiteMotherSettings.PregnancyPart | smartdoula_site/src/pages/mother/Settings.tsx:88-101 | the pregnancy id, each text column or empty text, and the two counts as text with fallbacks 1 and 0 |
| SiteMotherSettings.LoadedForm | smartdoula_site/src/pages/mother/Settings.tsx:79-112 | the profile's fields, plus the pregnancy's exactly for a mother with an active pregnancy; nothing else |
| SiteMotherSettings.PartsDisjoint | smartdoula_site/src/pages/mother/Settings.tsx:105-112 | the profile and pregnancy parts have no field in common |
| SiteMotherSettings.LoadedProfileField | smartdoula_site/src/pages/mother/Settings.tsx:105-110 | each profile field of the loaded form is the profile's value or empty text |
| SiteMotherSettings.ParseOr | smartdoula_site/src/pages/mother/Settings.tsx:154-156 | the parsed number when non-zero, the fallback when parsing fails or gives 0 |
| SiteMotherSettings.PregnancyUpdate | smartdoula_site/src/pages/mother/Settings.tsx:147-158 | the listed columns as they stand, empty dates as null, the two counts parsed with fallbacks 1 and 0 |
| SiteMotherSettings.FetusCountSurvivesSave | smartdoula_site/src/pages/mother/Settings.tsx:97 | a stored non-zero fetus count survives a load and an unchanged save; 0 or missing is written as 1 (also smartdoula_site/src/pages/mother/Settings.tsx:154) |
| SiteMotherSettings.BirthCountSurvivesSave | smartdoula_site/src/pages/mother/Settings.tsx:98-99 | a stored count of previous births, 0 included, survives; a missing one is written as 0 (also smartdoula_site/src/pages/mother/Settings.tsx:155-156) |
| SiteMotherSettings.SettingsPage.constructor | smartdoula_site/src/pages/mother/Settings.tsx:34-57 | role mother, the initial form, loading, not saving |
| SiteMotherSettings.SettingsPage.FetchUserData | smartdoula_site/src/pages/mother/Settings.tsx:63-119 | a user with a profile sets the role and the merged form; otherwise nothing changes; loading ends |
| SiteMotherSettings.SettingsPage.HandleChange | smartdoula_site/src/pages/mother/Settings.tsx:174-176 | the form with one field replaced |
| SiteMotherSettings.SettingsPage.HandleSave | smartdoula_site/src/pages/mother/Settings.tsx:121-172 | as the first generation with this update; a fully successful save refetches; saving ends clear |

## Left out

- Supabase is not modelled: queries, storage, realtime channels and auth. Fetched rows, write results, session and user become parameters of the handlers. An error and a missing row lead to the same outcome wherever the source treats them alike.
- React rendering is not modelled: JSX, class strings, toasts, navigation side effects, timers, vibration, clipboard writes, `window.open` and `window.location`. The route and link decisions are modelled as values.
- `confirm()` and the current time are parameters.
- The loading flags are modelled only where a handler sets or clears them.
- Date and locale formatting (`toLocale*`, date-fns `format`/`formatDistanceToNow`) is left out. Form date inputs are the day numbers they denote. The calendar's date-time inputs are the instants they denote, cut to the minute (`CalendarPage.FormInstant`). An unparsable date ("Invalid Date") is not modelled.
- CalendarPage.FormInstant: a local time that occurs twice when clocks go back is read back as its first occurrence, so an event in the repeated hour moves an hour earlier when the form is saved; zone transitions are not modelled.
- `localeCompare` is an abstract collation. The sorting lemmas require it to be a consistent total preorder (`DoulaExplorer.ByNameTotal`).
- DoulaExplorer.ExplorerPage.ApplyFilters: the `Math.random` shuffle is modelled as ordering by caller-supplied rank keys. It is nondeterministic in the source.
- SrcClientDetail.CalculateAge: the calendar-year extraction (`getUTCFullYear() - 1970`) is the parameter `yearsIn`. Only the missing-date case and the absolute value are modelled.
- The progress percentage of the weekly-progress card and the progress bars are floating point and are not modelled.
- PaymentsPage.ComputeStats: amounts and prices are whole numbers. `Number()` of decimal or non-numeric text is not modelled, and a price that is not a number is read as missing.
- Case mapping covers the ASCII letters only. The collector's extension matching also handles the KELVIN SIGN, which Python lower-cases to `k`. Searches over other scripts compare characters unchanged.
- JsParseInt.ParseInt: only text inputs are parsed, and always as decimal. Without a radix, `parseInt` reads text starting with `0x` or `0X` as hexadecimal; the model reads it as 0. `parseInt` on numbers and other non-text values is not modelled.
- JavaScript's `undefined` and `null` are both the record value `Null`.
- Strings containing unpaired surrogates are not modelled; in the source they make `encodeURIComponent` throw.
- Python host I/O is not modelled. The order of a directory listing is the order of the abstract tree. Console output and `os.path` normalisation are left out. A file that cannot be decoded is a read failure, so `errors='ignore'` partial decoding is not modelled.
- DoulaDashboard.FormatClient: a profile whose `full_name` is `null` is taken as text. In the source the card's name is then `null`, and the name search's `includes` throws while the page renders.
- CalendarPage.CalendarPageState.FetchData: the dialog's client list reads `client.profiles.full_name` while rendering (smartdoula_site/src/pages/doula/CalendarPage.tsx:342). That throws for any pregnancy without a profile, with or without a due date; rendering is not modelled.
- Replayer.Replay: the run reads its own output as empty. Python buffers the writes, so once the frames written before that name fill the write buffer, part of them is already in the file when it is read. The model reads it as empty in every case.
- DoulaExplorer.FilterDoulas and DoulaExplorer.ByName: a doula's `full_name` is taken to be text. In the source a `null` name throws in the search's `toLowerCase` (smartdoula_site/src/pages/public/DoulaExplorerPage.tsx:33) and in the name sort's `localeCompare` (:49); the model does not capture that crash.
- Ui.WordInitials and SrcClientDetail.AvatarLetter take the first character of a word as a whole code point. The source's `n[0]` is a UTF-16 code unit, so a name starting with a character outside the Basic Multilingual Plane shows half a surrogate pair there.
- ContractionTimer.Timer.Toggle: the `Date.now()` id of a stopped contraction is a caller-supplied value.
- The first-generation client page's fetch effect is database I/O and is not modelled. Only its pure helpers are.
- Ui.Cn: non-string truthy arguments, such as numbers, are not modelled. Only strings and falsy values are.
- The native app shell, push tokens, auth, layout and routing shells, and the thin display-only forms and widgets are not modelled.

## Findings

| source | as written | input that shows it | evidently intended | confidence | as-written member | corrected member |
|---|---|---|---|---|---|---|
| src/pages/mother/Settings.tsx:59-63 | the due date is set with local `setDate(+280)` on the UTC midnight of the last-period date and read back with `toISOString`, so it comes out a day early when the zone's UTC offset grows in between | a last period on 2025-01-01 in Asia/Jerusalem (UTC+2 in winter, UTC+3 in summer) gives 2025-10-07 | the day 280 days after the last period, 2025-10-08 | not executed | SrcMotherSettings.DueDayAsWrittenEarlyInJerusalem | SrcMotherSettings.DueDayFromLmp |
| data_context.py:9-12 | the excluded names and the own-output test (data_context.py:51) skip `project_context.txt` and `file_names.txt` but not `filtered_project_context.txt`, which data_context_step2.py:7 writes and, by opening it with `'w'` (:30), empties before reading the listed files | collect, replay, then collect again over a root that now holds a non-blank `filtered_project_context.txt`: the names list includes it, and a replay of that list writes less than the aggregate | the replay's output is kept out of the names list like the collector's own outputs, and the replay rebuilds the aggregate | not executed | Replayer.CollectedOutputLost | Replayer.CollectThenReplay |
