/** The uploader page's state and the transitions its buttons trigger:
    append to the activity log, clear the log, reset the form, stop, and the
    simulated multi-channel upload with its validation, fixed channel list,
    per-channel log lines, progress and completion popup. */
module Uploader {
  import opened Text
  import opened Titles

  datatype Option<T> = None | Some(value: T)

  /** Everything the page holds in component state. The selected video is
      represented by its file name; a log entry is its message text. */
  datatype State = State(
    videoFile: Option<string>,
    titleMode: TitleMode,
    singleTitle: string,
    multipleTitles: string,
    description: string,
    privacy: string,
    isUploading: bool,
    progress: int,
    channelsUploaded: nat,
    totalChannels: nat,
    logs: seq<string>,
    showDonePopup: bool)

  /** The state a freshly loaded page starts in. */
  function Initial(): State {
    State(None, Multiple, "", "", "", "public", false, 0, 0, 0, [], false)
  }

  /** The hard-coded channel list a run pretends to discover. */
  const Channels: seq<string> :=
    ["Brand Channel 1", "Brand Channel 2", "Brand Channel 3", "Brand Channel 4"]

  const NoVideoError := "Error: No video file selected"
  const EmptySingleTitleError := "Error: Single title mode selected, but title is empty"
  const NoTitlesError := "Error: Multiple title mode selected, but no titles entered"
  const LogsCleared := "Logs cleared"
  const StoppedByUser := "Upload process stopped by user"
  const Retrieving := "Retrieving list of brand channels..."
  const SettingDescription := "Setting description"
  const VideoProcessing := "Video processing..."
  const WaitingNext := "Waiting 2 seconds before next channel..."
  const Finished := "Finished processing all channels"

  function StartingMessage(video: string): string {
    "Starting upload process with video: " + video
  }

  function FoundMessage(n: nat): string {
    "Found " + NatToString(n) + " channels"
  }

  function TitleMessage(title: string): string {
    "Setting title: \"" + title + "\""
  }

  function ConfirmedMessage(channel: string): string {
    "Video upload confirmed successfully for channel: " + channel
  }

  /** `a` and `b` agree on every field except possibly the log. */
  predicate SameExceptLogs(a: State, b: State) {
    a.(logs := b.logs) == b
  }

  /** `a` and `b` agree on every field the user edits in the form. */
  predicate SameForm(a: State, b: State) {
    && a.videoFile == b.videoFile
    && a.titleMode == b.titleMode
    && a.singleTitle == b.singleTitle
    && a.multipleTitles == b.multipleTitles
    && a.description == b.description
    && a.privacy == b.privacy
  }

  /** Appends one entry to the end of the log; nothing else changes. */
  function AddLog(s: State, message: string): (r: State)
    ensures |r.logs| == |s.logs| + 1
    ensures r.logs[..|s.logs|] == s.logs && r.logs[|s.logs|] == message
    ensures SameExceptLogs(s, r)
  {
    s.(logs := s.logs + [message])
  }

  /** Empties the log and records that it was cleared: the log ends up holding
      exactly that one entry and nothing else changes. */
  function ClearLogs(s: State): (r: State)
    ensures r.logs == [LogsCleared]
    ensures SameExceptLogs(s, r)
  {
    AddLog(s.(logs := []), LogsCleared)
  }

  /** Clearing twice is the same as clearing once. */
  lemma ClearLogsIdempotent(s: State)
    ensures ClearLogs(ClearLogs(s)) == ClearLogs(s)
  {
  }

  /** Requests a stop: the upload flag drops and the request is logged. */
  function StopUpload(s: State): (r: State)
    ensures !r.isUploading
    ensures r.logs == s.logs + [StoppedByUser]
    ensures SameExceptLogs(s.(isUploading := false), r)
  {
    AddLog(s.(isUploading := false), StoppedByUser)
  }

  /** Resets the form: the video, every text field, the counters, the log and
      the popup go back to their defaults, while the title mode and the upload
      flag are left as they are. */
  function ResetForm(s: State): (r: State)
    ensures r.videoFile == None
    ensures r.singleTitle == "" && r.multipleTitles == "" && r.description == ""
    ensures r.privacy == "public"
    ensures r.progress == 0 && r.channelsUploaded == 0 && r.totalChannels == 0
    ensures r.logs == [] && !r.showDonePopup
    ensures r.titleMode == s.titleMode && r.isUploading == s.isUploading
  {
    s.(videoFile := None, singleTitle := "", multipleTitles := "", description := "",
       privacy := "public", progress := 0, channelsUploaded := 0, totalChannels := 0,
       logs := [], showDonePopup := false)
  }

  /** A reset gives back the page's initial state, up to the title mode and
      the upload flag, which it does not touch. */
  lemma ResetFormRestoresInitial(s: State)
    ensures ResetForm(s) == Initial().(titleMode := s.titleMode, isUploading := s.isUploading)
    ensures s.titleMode == Multiple && !s.isUploading ==> ResetForm(s) == Initial()
  {
  }

  /** A form whose run can find a title for every channel. */
  predicate TitlesReady(s: State) {
    s.titleMode == Multiple ==> |ParseTitles(s.multipleTitles)| > 0
  }

  /** The title list a run works from: the single title as typed, or the
      parsed multiple-title text. */
  function RunTitles(s: State): (titles: seq<string>)
    ensures s.titleMode == Single ==> titles == [s.singleTitle]
    ensures s.titleMode == Multiple ==> titles == ParseTitles(s.multipleTitles)
    ensures TitlesReady(s) ==> |titles| > 0
  {
    if s.titleMode == Single then [s.singleTitle] else ParseTitles(s.multipleTitles)
  }

  /** The checks run before anything else, in order: a video must be chosen,
      then the single title must not be blank, then the multiple-title text
      must yield at least one title. The first failing check's message is the
      result; `None` means the run may start. */
  function Validate(s: State): (err: Option<string>)
    ensures s.videoFile.None? ==> err == Some(NoVideoError)
    ensures s.videoFile.Some? && s.titleMode == Single ==>
      err == (if AllSpace(s.singleTitle) then Some(EmptySingleTitleError) else None)
    ensures s.videoFile.Some? && s.titleMode == Multiple ==>
      err == (if AllSpace(s.multipleTitles) then Some(NoTitlesError) else None)
    ensures err.None? ==> TitlesReady(s)
  {
    ParseTitlesEmptyIff(s.multipleTitles);
    if s.videoFile.None? then Some(NoVideoError)
    else if s.titleMode == Single && IsBlank(s.singleTitle) then Some(EmptySingleTitleError)
    else if s.titleMode == Multiple && |ParseTitles(s.multipleTitles)| == 0 then Some(NoTitlesError)
    else None
  }

  /** The iteration's lines up to the title: the channel header, the switch,
      the upload start and the title. */
  function HeadLines(i: nat, channel: string, title: string): seq<string> {
    [ "--- Processing Channel " + NatToString(i + 1) + "/" + NatToString(|Channels|)
        + ": " + channel + " ---",
      "Switching to channel: " + channel,
      "Initiating upload for " + channel + "...",
      TitleMessage(title) ]
  }

  /** The counts rendered into the log read as the source prints them:
      "Found 4 channels" and the header "1/4" of the first channel. */
  lemma RenderedCounts(title: string)
    ensures FoundMessage(|Channels|) == "Found 4 channels"
    ensures HeadLines(0, Channels[0], title)[0]
      == "--- Processing Channel 1/4: Brand Channel 1 ---"
  {
    assert NatToString(4) == "4" && NatToString(1) == "1";
  }

  /** The iteration's lines from the privacy setting to the confirmation. */
  function TailLines(privacy: string, channel: string): seq<string> {
    [ "Setting privacy to: " + privacy,
      VideoProcessing,
      ConfirmedMessage(channel) ]
  }

  /** No fixed-position line is the description line or the waiting line. */
  lemma HeadLinesExclude(i: nat, channel: string, title: string)
    ensures SettingDescription !in HeadLines(i, channel, title)
    ensures WaitingNext !in HeadLines(i, channel, title)
  {
    var h := HeadLines(i, channel, title);
    assert SettingDescription[0] == 'S' && SettingDescription[1] == 'e' && SettingDescription[8] == 'd';
    assert WaitingNext[0] == 'W';
    assert h[0][0] == '-' && h[1][0] == 'S' && h[1][1] == 'w' && h[2][0] == 'I';
    assert h[3][0] == 'S' && h[3][8] == 't';
  }

  lemma TailLinesExclude(privacy: string, channel: string)
    ensures SettingDescription !in TailLines(privacy, channel)
    ensures WaitingNext !in TailLines(privacy, channel)
  {
    var t := TailLines(privacy, channel);
    assert SettingDescription[0] == 'S' && SettingDescription[8] == 'd';
    assert WaitingNext[0] == 'W';
    assert t[0][0] == 'S' && t[0][8] == 'p' && t[1][0] == 'V';
    assert |t[2]| > |WaitingNext| > |SettingDescription|;
  }

  /** The log lines of the loop iteration for channel `i`. */
  function ChannelLines(s: State, i: nat): (lines: seq<string>)
    requires i < |Channels| && TitlesReady(s)
    ensures TitleMessage(TitleFor(s.titleMode, s.singleTitle, RunTitles(s), i)) in lines
    ensures ConfirmedMessage(Channels[i]) in lines
    ensures SettingDescription in lines <==> s.description != ""
    ensures WaitingNext in lines <==> i < |Channels| - 1
  {
    var channel := Channels[i];
    var title := TitleFor(s.titleMode, s.singleTitle, RunTitles(s), i);
    HeadLinesExclude(i, channel, title);
    TailLinesExclude(s.privacy, channel);
    HeadLines(i, channel, title)
      + (if s.description != "" then [SettingDescription] else [])
      + TailLines(s.privacy, channel)
      + (if i < |Channels| - 1 then [WaitingNext] else [])
  }

  /** One pass of the channel loop: the iteration's log lines are appended,
      progress is set to the share of channels started before this one, and
      the uploaded count goes up by exactly one. */
  function ChannelStep(s: State, i: nat): (r: State)
    requires i < |Channels| && TitlesReady(s)
    ensures r.progress * |Channels| == i * 100
    ensures r.channelsUploaded == s.channelsUploaded + 1
    ensures r.logs == s.logs + ChannelLines(s, i)
    ensures r == s.(progress := r.progress, channelsUploaded := r.channelsUploaded, logs := r.logs)
  {
    s.(logs := s.logs + ChannelLines(s, i),
       progress := i * 100 / |Channels|,
       channelsUploaded := s.channelsUploaded + 1)
  }

  /** The log lines of the iterations for channels `i` up to `j`, exclusive. */
  function LinesFrom(s: State, i: nat, j: nat): seq<string>
    requires i <= j <= |Channels| && TitlesReady(s)
    decreases j - i
  {
    if i == j then [] else ChannelLines(s, i) + LinesFrom(s, i + 1, j)
  }

  /** The iteration log lines depend only on the form fields. */
  lemma {:induction false} LinesFromSameForm(a: State, b: State, i: nat, j: nat)
    requires i <= j <= |Channels| && TitlesReady(a) && SameForm(a, b)
    ensures TitlesReady(b) && LinesFrom(a, i, j) == LinesFrom(b, i, j)
    decreases j - i
  {
    if i < j {
      LinesFromSameForm(a, b, i + 1, j);
    }
  }

  /** Number of iterations whose guard passes when the guard first reads a
      cleared flag at iteration `stopAt`. */
  function Passes(stopAt: nat): (n: nat)
    ensures n <= |Channels|
    ensures n == stopAt || (n == |Channels| && |Channels| <= stopAt)
  {
    if stopAt < |Channels| then stopAt else |Channels|
  }

  /** The iteration the channel loop started at `i` stops before. */
  function LoopEnd(i: nat, stopAt: nat): (last: nat)
    ensures i <= last
    ensures last == i || last == Passes(stopAt)
  {
    if Passes(stopAt) < i then i else Passes(stopAt)
  }

  /** The channel loop from iteration `i` on. The guard `if (!isUploading)
      break` at iteration `k` reads a flag that is set exactly when
      `k < stopAt`. Only the log, progress and uploaded count change, and
      each iteration that runs adds exactly one upload. */
  function RunChannels(s: State, i: nat, stopAt: nat): (r: State)
    requires i <= |Channels| && TitlesReady(s)
    ensures r == s.(progress := r.progress, channelsUploaded := r.channelsUploaded, logs := r.logs)
    ensures r.channelsUploaded == s.channelsUploaded + (LoopEnd(i, stopAt) - i)
    ensures LoopEnd(i, stopAt) == i ==> r.progress == s.progress
    ensures LoopEnd(i, stopAt) > i ==> r.progress * |Channels| == (LoopEnd(i, stopAt) - 1) * 100
    decreases |Channels| - i
  {
    if i == |Channels| || stopAt <= i then s
    else RunChannels(ChannelStep(s, i), i + 1, stopAt)
  }

  /** The loop's log: the lines of each iteration that ran, in order. */
  lemma {:induction false} RunChannelsLogs(s: State, i: nat, stopAt: nat)
    requires i <= |Channels| && TitlesReady(s)
    ensures RunChannels(s, i, stopAt).logs == s.logs + LinesFrom(s, i, LoopEnd(i, stopAt))
    decreases |Channels| - i
  {
    if !(i == |Channels| || stopAt <= i) {
      var next := ChannelStep(s, i);
      var e := LoopEnd(i, stopAt);
      assert LoopEnd(i + 1, stopAt) == e && i < e;
      assert next.logs == s.logs + ChannelLines(s, i);
      assert LinesFrom(s, i, e) == ChannelLines(s, i) + LinesFrom(s, i + 1, e);
      RunChannelsLogs(next, i + 1, stopAt);
      LinesFromSameForm(next, s, i + 1, e);
    }
  }

  /** The synchronous part of a validated run before the loop: the upload flag
      is raised, the start and the channel discovery are logged, and the
      channel total is set. */
  function BeginRun(s: State): (r: State)
    requires s.videoFile.Some?
    ensures r.isUploading && r.totalChannels == |Channels|
    ensures r.logs == s.logs + [StartingMessage(s.videoFile.value), Retrieving, FoundMessage(|Channels|)]
    ensures SameForm(s, r) && r.progress == s.progress && r.channelsUploaded == s.channelsUploaded
    ensures r.showDonePopup == s.showDonePopup
  {
    var started := AddLog(AddLog(s.(isUploading := true), StartingMessage(s.videoFile.value)), Retrieving);
    AddLog(started.(totalChannels := |Channels|), FoundMessage(|Channels|))
  }

  /** What happens after the loop, however it was left: progress is full, the
      finish is logged, the upload flag drops and the done popup shows. */
  function FinishRun(s: State): (r: State)
    ensures r.progress == 100 && r.logs == s.logs + [Finished]
    ensures !r.isUploading && r.showDonePopup
    ensures SameForm(s, r) && r.channelsUploaded == s.channelsUploaded
    ensures r.totalChannels == s.totalChannels
  {
    AddLog(s.(progress := 100, isUploading := false, showDonePopup := true), Finished)
  }

  /** The upload handler with a loop guard that reads the live upload flag:
      `stopAt` is the iteration at which the guard first sees the flag cleared
      by a stop request (`|Channels|` or more when no stop arrives in time).
      A form that fails validation only gains the error line; otherwise the
      run starts, processes the channels before `stopAt`, and finishes. */
  function UploadLive(s: State, stopAt: nat): (r: State)
    ensures Validate(s).Some? ==>
      SameExceptLogs(s, r) && r.logs == s.logs + [Validate(s).value]
    ensures Validate(s).None? ==>
      && SameForm(s, r)
      && r.progress == 100
      && |r.logs| > |s.logs| && r.logs[..|s.logs|] == s.logs && r.logs[|r.logs| - 1] == Finished
      && !r.isUploading && r.showDonePopup
      && r.totalChannels == |Channels|
      && r.channelsUploaded == s.channelsUploaded + Passes(stopAt)
  {
    match Validate(s)
    case Some(err) => AddLog(s, err)
    case None =>
      var begun := BeginRun(s);
      var looped := RunChannels(begun, 0, stopAt);
      RunChannelsLogs(begun, 0, stopAt);
      assert looped.logs[..|s.logs|] == s.logs;
      FinishRun(looped)
  }

  /** The full log of a validated live-guard run: the start lines, the lines
      of every channel before `stopAt`, in channel order, and the finish. */
  lemma UploadLiveLogs(s: State, stopAt: nat)
    requires Validate(s).None?
    ensures UploadLive(s, stopAt).logs
      == s.logs + [StartingMessage(s.videoFile.value), Retrieving, FoundMessage(|Channels|)]
         + LinesFrom(s, 0, Passes(stopAt)) + [Finished]
  {
    var begun := BeginRun(s);
    RunChannelsLogs(begun, 0, stopAt);
    LinesFromSameForm(s, begun, 0, Passes(stopAt));
  }

  /** The upload handler as written. Its guard reads the `isUploading` value
      captured when the page rendered the Start button; that value never
      changes during the run, so a set flag lets every iteration through and
      a cleared one stops the loop before the first channel. */
  function SimulateUpload(s: State, captured: bool): (r: State)
    ensures Validate(s).Some? ==>
      SameExceptLogs(s, r) && r.logs == s.logs + [Validate(s).value]
    ensures Validate(s).None? ==>
      && SameForm(s, r)
      && r.progress == 100 && |r.logs| > 0 && r.logs[|r.logs| - 1] == Finished
      && !r.isUploading && r.showDonePopup && r.totalChannels == |Channels|
      && r.channelsUploaded == s.channelsUploaded + (if captured then |Channels| else 0)
  {
    UploadLive(s, if captured then |Channels| else 0)
  }

  /** The Start button exists only while `isUploading` is false, so the
      captured flag is always false and a run started from it uploads to no
      channel: the log shows the start and the finish with no channel lines
      in between, and the popup reports no new upload. */
  lemma StartButtonUploadsNothing(s: State)
    requires !s.isUploading && Validate(s).None?
    ensures var r := SimulateUpload(s, s.isUploading);
      && r.channelsUploaded == s.channelsUploaded
      && r.logs == s.logs + [StartingMessage(s.videoFile.value), Retrieving,
                             FoundMessage(|Channels|), Finished]
      && r.showDonePopup && r.totalChannels == 4
  {
    UploadLiveLogs(s, 0);
  }

  /** A concrete page: a chosen video and two titles, started from the
      button, ends with the popup reporting 0 of 4 channels. */
  lemma FreshPageReportsZeroOfFour()
    ensures var s := Initial().(videoFile := Some("clip.mp4"), multipleTitles := "A\nB");
      var r := SimulateUpload(s, s.isUploading);
      r.showDonePopup && r.channelsUploaded == 0 && r.totalChannels == 4
  {
    var s := Initial().(videoFile := Some("clip.mp4"), multipleTitles := "A\nB");
    assert s.multipleTitles[0] == 'A';
    assert !AllSpace(s.multipleTitles);
  }

  /** With the live guard and no stop, every channel is processed: each gets
      its confirmation line and its title line, and the uploaded count grows
      by the number of channels. */
  lemma UninterruptedRunUploadsEveryChannel(s: State)
    requires Validate(s).None?
    ensures var r := UploadLive(s, |Channels|);
      && r.channelsUploaded == s.channelsUploaded + |Channels|
      && forall i :: 0 <= i < |Channels| ==>
           && ConfirmedMessage(Channels[i]) in r.logs
           && TitleMessage(TitleFor(s.titleMode, s.singleTitle, RunTitles(s), i)) in r.logs
  {
    UploadLiveLogs(s, |Channels|);
    forall i | 0 <= i < |Channels|
      ensures ConfirmedMessage(Channels[i]) in LinesFrom(s, 0, |Channels|)
      ensures TitleMessage(TitleFor(s.titleMode, s.singleTitle, RunTitles(s), i))
                in LinesFrom(s, 0, |Channels|)
    {
      LinesFromContains(s, 0, |Channels|, i);
    }
  }

  /** The lines of a range of iterations include those of each iteration in it. */
  lemma {:induction false} LinesFromContains(s: State, i: nat, j: nat, k: nat)
    requires i <= k < j <= |Channels| && TitlesReady(s)
    ensures forall line :: line in ChannelLines(s, k) ==> line in LinesFrom(s, i, j)
    decreases j - i
  {
    if i < k {
      LinesFromContains(s, i + 1, j, k);
    }
  }
}
