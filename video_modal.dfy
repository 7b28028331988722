/**
 * components/analysis/VideoModal.tsx: the progress dialog of a video
 * summary job. Three flags are read off the job's status string and decide
 * which of the spinner, the player and the failure note render.
 */
module VideoModal {
  import opened Types

  /** The polled job status; the status is any string the backend sends. */
  datatype VideoStatus = VideoStatus(status: string, videoUrl: Option<string>, error: Option<string>)

  datatype Flags = Flags(generating: bool, completed: bool, failed: bool)

  /** `videoStatus?.status === …` for the three flags. */
  function FlagsOf(videoStatus: Option<VideoStatus>): (f: Flags)
    ensures f.generating <==> videoStatus.Some? && videoStatus.value.status in {"queued", "in_progress"}
    ensures f.completed <==> videoStatus.Some? && videoStatus.value.status == "completed"
    ensures f.failed <==> videoStatus.Some? && videoStatus.value.status == "failed"
  {
    match videoStatus
    case None => Flags(false, false, false)
    case Some(v) => Flags(v.status == "in_progress" || v.status == "queued", v.status == "completed", v.status == "failed")
  }

  /** At most one flag holds, and a missing status sets none. */
  lemma FlagsExclusive(videoStatus: Option<VideoStatus>)
    ensures var f := FlagsOf(videoStatus);
      !(f.generating && f.completed) && !(f.generating && f.failed) && !(f.completed && f.failed)
    ensures videoStatus.None? ==> FlagsOf(videoStatus) == Flags(false, false, false)
  {
  }

  /** What the dialog shows below its status line. */
  datatype View = View(spinner: bool, player: Option<string>, failureText: Option<string>)

  const UnknownError: string := "Unknown error"

  /** The player needs a completed job and a truthy `videoUrl` prop, which
      is separate from the status's own URL; the failure note shows the
      status's error, or a fixed text when that is absent or empty. */
  function ViewOf(videoStatus: Option<VideoStatus>, videoUrl: Option<string>): (v: View)
    ensures v.spinner == FlagsOf(videoStatus).generating
    ensures v.player.Some? <==> FlagsOf(videoStatus).completed && Truthy(videoUrl)
    ensures v.player.Some? ==> v.player == videoUrl
    ensures v.failureText.Some? <==> FlagsOf(videoStatus).failed
    ensures v.failureText.Some? && Truthy(videoStatus.value.error) ==> v.failureText == videoStatus.value.error
    ensures v.failureText.Some? && !Truthy(videoStatus.value.error) ==> v.failureText == Some(UnknownError)
  {
    var f := FlagsOf(videoStatus);
    View(f.generating,
         if f.completed && Truthy(videoUrl) then videoUrl else None,
         if !f.failed then None
         else if Truthy(videoStatus.value.error) then videoStatus.value.error
         else Some(UnknownError))
  }

  /** The spinner, the player and the failure note never show together. */
  lemma OnePanelAtMost(videoStatus: Option<VideoStatus>, videoUrl: Option<string>)
    ensures var v := ViewOf(videoStatus, videoUrl);
      !(v.spinner && v.player.Some?) && !(v.spinner && v.failureText.Some?)
      && !(v.player.Some? && v.failureText.Some?)
  {
    FlagsExclusive(videoStatus);
  }

  /** A job polled through queued, in progress and completed with a URL
      shows the spinner twice and then the player for that URL. */
  lemma CompletedJobScenario(url: string)
    requires url != ""
    ensures ViewOf(Some(VideoStatus("queued", None, None)), None) == View(true, None, None)
    ensures ViewOf(Some(VideoStatus("in_progress", None, None)), None) == View(true, None, None)
    ensures ViewOf(Some(VideoStatus("completed", Some(url), None)), Some(url)) == View(false, Some(url), None)
  {
  }
}
