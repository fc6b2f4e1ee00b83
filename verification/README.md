# YouTube brand-channel uploader: a Dafny model of the upload simulator

The page in `app/page.tsx` is a demonstration form. It pretends to upload one
video to several YouTube brand channels. It keeps its state in React hooks:
the chosen video, a title mode (one title, or one title per line), the title
texts, a description, a privacy setting, an upload flag, progress,
uploaded/total channel counts, an activity log and a "done" popup flag. Its
logic is in six handlers. Five of them are modelled:

- `addLog` appends a log entry.
- `clearLogs` empties the log and records that it did.
- `resetForm` restores the form defaults.
- `stopUpload` drops the upload flag.
- `simulateUpload` runs the upload. It validates the form, then "discovers"
  a fixed list of four channels. It walks the list, logging each channel's
  switch, title, description, privacy and confirmation, and it updates
  progress and the uploaded count. At the end it logs the finish and shows
  the popup.

The sixth, `handleFileChange` (app/page.tsx:39-45), is left out (see below).

The model is functional. `Uploader.State` is an immutable record of the
page state, and every handler is a pure function from state to state. The
files are:

- `text.dfy` (module `Text`): the whitespace test of JavaScript's `trim`, the
  trim itself, splitting on a separator and joining back, and decimal
  rendering of numbers in log lines.
- `titles.dfy` (module `Titles`): parsing the multiple-title text box into a
  list, and choosing the title for each channel, cycling through the list.
- `uploader.dfy` (module `Uploader`): the state, the handlers, the channel
  loop and the lemmas about whole runs.

The loop guard `if (!isUploading) break` reads the `isUploading` value that
was captured when the page rendered the Start button. Over the whole run that
value is a constant. The model therefore writes the loop once, as
`RunChannels(s, i, stopAt)`. There, the guard at iteration `k` sees the flag
set exactly when `k < stopAt`. The handler as written, `SimulateUpload(s,
captured)`, uses `stopAt = 4` when the captured flag is true and `stopAt = 0`
when it is false. The same loop with a guard that reads the live flag is
`UploadLive(s, stopAt)`. There, `stopAt` is the first iteration whose guard
sees a stop request.

Facts about the code that the model keeps as they are:

- `resetForm` (app/page.tsx:147-161) never sets the title mode.
- The finish at app/page.tsx:136-139 runs even when the loop was left
  through the guard, so the popup shows after a stop.
- A new run does not reset `channelsUploaded` or `progress`. The uploaded
  count carries over from earlier runs.
- The kept title lines are not trimmed. Only the text as a whole is trimmed,
  and blank lines are dropped.
- Progress is set to `i * 100 / 4` at the start of iteration `i`. With four
  channels this is exact (0, 25, 50, 75), so it is modelled as an integer.

## Model

| member | source | states |
|---|---|---|
| Text.Trim | app/page.tsx:66 | the result is the infix of the input with only whitespace around it, starts and ends with non-whitespace, and is empty exactly when the input is all whitespace |
| Text.Split | app/page.tsx:67 | splitting on a line feed gives at least one piece, no piece contains the separator, and there is one piece more than there are separators |
| Text.JoinSplit | app/page.tsx:67 | joining the pieces of a split with the separator gives back the input |
| Text.SplitJoin | app/page.tsx:67 | splitting a join of separator-free pieces gives back the pieces, so split and join are inverse |
| Titles.KeepNonBlank | app/page.tsx:68 | the filter keeps exactly the lines that contain a non-whitespace character, and every kept line is one of the inputs |
| Titles.KeepNonBlankAppend | app/page.tsx:68 | the filter distributes over concatenation, so kept lines stay in their original order |
| Titles.KeepNonBlankIdentity | app/page.tsx:68 | a list with no blank line passes the filter unchanged |
| Titles.ParseTitles | app/page.tsx:65-68 | every parsed title is non-blank and has no line feed, and the titles are exactly the non-blank line-feed pieces of the trimmed text |
| Titles.ParseTitlesEmptyIff | app/page.tsx:65-72 | the parsed list is empty exactly when the text box holds only whitespace |
| Titles.ParseTitlesKeepsInnerSpaces | app/page.tsx:93-96 | on " A \n\n B " the parse gives "A " and " B": kept lines keep their own spaces |
| Titles.TitleFor | app/page.tsx:103 | single mode uses the single title as typed, untrimmed; multiple mode picks a title from the parsed list |
| Titles.TitleForCycles | app/page.tsx:463-464 | in multiple mode the title for channel i equals an independent cycling definition: past the end of the list, start again from the beginning |
| Titles.TwoTitlesFourChannels | app/page.tsx:103 | the text "A\nB" parses to A, B, and the four channels get A, B, A, B |
| Uploader.AddLog | app/page.tsx:34-37 | the log grows by exactly one entry, the given message, at the end; no other field changes |
| Uploader.ClearLogs | app/page.tsx:47-50 | the log ends up holding exactly "Logs cleared"; no other field changes |
| Uploader.ClearLogsIdempotent | app/page.tsx:47-50 | clearing twice is the same as clearing once |
| Uploader.StopUpload | app/page.tsx:142-145 | the upload flag drops and "Upload process stopped by user" is appended; nothing else changes |
| Uploader.ResetForm | app/page.tsx:147-161 | video, texts, privacy, counters, log and popup take their defaults; title mode and upload flag are unchanged |
| Uploader.ResetFormRestoresInitial | app/page.tsx:20-31 | a reset equals the page's initial state except for title mode and upload flag, and equals it outright in multiple mode while idle |
| Uploader.RunTitles | app/page.tsx:90-96 | single mode works from the one-element list holding the single title as typed; otherwise from the parsed list, which is non-empty whenever the titles check passed |
| Text.NatToString | app/page.tsx:87 | counts are printed as decimal digits with no leading zero that read back to the number, a single digit below ten |
| Uploader.RenderedCounts | app/page.tsx:105 | the log reads "Found 4 channels" and the first channel's header reads "--- Processing Channel 1/4: Brand Channel 1 ---" |
| Uploader.Validate | app/page.tsx:54-73 | the missing video is reported first; then a blank single title, or a blank multiple-title text in multiple mode; passing validation guarantees a non-empty title list |
| Uploader.ChannelLines | app/page.tsx:102-132 | each iteration logs the channel's title and confirmation; "Setting description" appears iff the description is non-empty; the wait line appears iff the channel is not the last |
| Uploader.ChannelStep | app/page.tsx:105-126 | one iteration sets progress to the share i/4 of channels started, adds exactly one upload, appends its lines, and changes nothing else |
| Uploader.RunChannels | app/page.tsx:99-133 | the loop changes only log, progress and uploaded count; the count grows by the number of iterations whose guard passed; progress is that of the last iteration run, or unchanged when none ran |
| Uploader.RunChannelsLogs | app/page.tsx:99-133 | the loop appends, in channel order, the lines of exactly the iterations that ran |
| Uploader.BeginRun | app/page.tsx:76-87 | a run raises the upload flag, logs start, discovery and "Found 4 channels", and sets the total to 4 |
| Uploader.FinishRun | app/page.tsx:135-139 | after the loop, progress is 100, the last log line is the finish, the flag drops and the popup shows |
| Uploader.UploadLive | app/page.tsx:52-139 | the handler with the line-100 guard reading the live flag: a failed validation only appends its error line; a valid form ends at progress 100 with the finish line last, the flag down, the popup shown, total 4, form unchanged, and the count grown by the iterations before the stop |
| Uploader.UploadLiveLogs | app/page.tsx:76-139 | a valid run's log is the start lines, then every processed channel's lines in order, then the finish |
| Uploader.SimulateUpload | app/page.tsx:52-139 | as written, a valid run grows the uploaded count by 4 if the captured flag is set and by 0 otherwise; a failed validation changes only the log |
| Uploader.StartButtonUploadsNothing | app/page.tsx:100 | started from the Start button (flag false), a valid run logs start, discovery and finish with no channel in between, and the count does not change |
| Uploader.FreshPageReportsZeroOfFour | app/page.tsx:169-175 | a fresh page with a video and two titles ends with the popup reporting 0 of 4 channels |
| Uploader.UninterruptedRunUploadsEveryChannel | app/page.tsx:99-133 | with a live guard and no stop, every channel gets its title line and confirmation, and the count grows by 4 |

## Findings

| source | as written | input that shows it | evidently intended | confidence | as-written member | corrected member |
|---|---|---|---|---|---|---|
| app/page.tsx:100 | the loop guard reads the `isUploading` captured by the handler when the page rendered; the Start button that calls it is rendered only when that value is false (app/page.tsx:300-301) | any form that passes validation, started with the Start button, e.g. video "clip.mp4" and titles "A\nB" | the guard reads the live upload flag, so every channel is processed unless Stop is pressed | high (stale-closure reading of React state; not executed) | Uploader.StartButtonUploadsNothing | Uploader.UninterruptedRunUploadsEveryChannel |

The as-written handler is `Uploader.SimulateUpload`, and
`Uploader.StartButtonUploadsNothing` exhibits the discrepancy. The corrected
handler is `Uploader.UploadLive`, and
`Uploader.UninterruptedRunUploadsEveryChannel` proves the intended property
about it.

## Left out

- Timestamps: `addLog` prefixes each entry with the local clock time. This
  depends on the clock and locale, so a log entry is modelled as its message
  text only.
- Delays: the `setTimeout` waits (2 s, 1.5 s, 3 s, 2 s) are timing only. Each
  is modelled as a step with no effect.
- Interleaving with the event loop: handlers that can run while a run is
  suspended are not interleaved into the run. Examples are Stop and Clear
  Logs, which stays enabled during a run. In `UploadLive` a stop is only the
  iteration `stopAt` at which the guard observes it. The stop's own log line
  and flag change are `StopUpload`'s, and their position among the run's
  lines is not modelled.
- React state batching: beyond treating the loop guard as the captured flag,
  batching is not modelled. Each update is applied in program order.
- Whitespace: `trim` removes the six ASCII whitespace characters (space,
  tab, line feed, vertical tab, form feed, carriage return). JavaScript's
  other Unicode whitespace is not modelled.
- `handleFileChange` (app/page.tsx:39-45) is not modelled. When the input
  holds a file, it sets the video and logs "Video selected: " with the file
  name; the model takes the chosen video as given in the state. The
  form-field setters (title mode, texts, privacy) are plain field
  assignments and are not modelled either. Neither is the popup's Dismiss
  button (app/page.tsx:176), whose inline handler only clears the popup flag.
- The file-size display is floating-point formatting, so it is not modelled.
- The Settings tab inputs are never read by any logic.
- The JSX rendering is presentation only, apart from the two facts the model
  relies on. The Start button exists only while the flag is false, and the
  popup shows the two counts.
- The file input's DOM value, cleared by `resetForm`, is not page state.
