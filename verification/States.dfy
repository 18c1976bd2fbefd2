/** The persisted task states, their legal edges and the state groups (states.py, quotas.py). */
module States {
  datatype State =
    | Queued | Reserved | Downloading | Streaming | Downloaded | WaitingUpload | Uploading
    | Verifying | Finalizing | CleanupPending | Completed | Confirmed | DownloadFailed
    | UploadFailedRetained | VerificationFailedRetained | Cancelled

  /** LOCAL_STATES: the states whose file counts against the local budget. */
  predicate IsLocal(s: State) {
    s.Reserved? || s.Downloading? || s.Downloaded? || s.WaitingUpload? || s.Uploading? || s.Verifying?
    || s.Finalizing? || s.CleanupPending? || s.UploadFailedRetained? || s.VerificationFailedRetained?
  }

  /** GROWING_STATES: the states in which the local file still grows. */
  predicate IsGrowing(s: State) { s.Reserved? || s.Downloading? }

  /** quotas.ACTIVE: the states that take one of the member's slots. */
  predicate IsActive(s: State) {
    s.Reserved? || s.Downloading? || s.Streaming? || s.Uploading? || s.Verifying? || s.Finalizing?
  }

  /** The states that `usage` counts as queued. */
  predicate IsWaiting(s: State) { s.Queued? || s.Downloaded? || s.WaitingUpload? }

  /** The states in which a verified task is charged. */
  predicate IsCharging(s: State) { s.CleanupPending? || s.Completed? || s.Confirmed? }

  predicate IsFailed(s: State) {
    s.DownloadFailed? || s.UploadFailedRetained? || s.VerificationFailedRetained?
  }

  /** LEGAL_TRANSITIONS. */
  function Successors(s: State): set<State> {
    match s
    case Queued => {Reserved, Cancelled}
    case Reserved => {Downloading, Streaming, Finalizing, CleanupPending, Queued, DownloadFailed, Cancelled}
    case Downloading => {Downloaded, WaitingUpload, Queued, DownloadFailed, Cancelled}
    case Downloaded => {Downloading, WaitingUpload, Queued, DownloadFailed, Cancelled}
    case WaitingUpload =>
      {Uploading, Finalizing, CleanupPending, Queued, UploadFailedRetained, VerificationFailedRetained, Cancelled}
    case Uploading =>
      {Verifying, Finalizing, CleanupPending, WaitingUpload, Queued, UploadFailedRetained,
       VerificationFailedRetained, Cancelled}
    case Streaming => {Verifying, Finalizing, CleanupPending, Queued, DownloadFailed, Cancelled}
    case Verifying =>
      {Uploading, Streaming, Finalizing, CleanupPending, WaitingUpload, Queued, DownloadFailed,
       UploadFailedRetained, VerificationFailedRetained, Cancelled}
    case Finalizing =>
      {Uploading, Streaming, CleanupPending, WaitingUpload, Queued, DownloadFailed,
       UploadFailedRetained, VerificationFailedRetained, Cancelled}
    case CleanupPending => {Completed, WaitingUpload, Queued, VerificationFailedRetained, Cancelled}
    case DownloadFailed => {Queued, Cancelled}
    case UploadFailedRetained => {WaitingUpload, Queued, Cancelled}
    case VerificationFailedRetained => {WaitingUpload, Queued, Cancelled}
    case Completed => {Confirmed}
    case Confirmed => {}
    case Cancelled => {Queued, WaitingUpload}
  }

  predicate CanTransition(source: State, target: State) { source == target || target in Successors(source) }

  /** Where the ends of a task's life are reached from: it can be cancelled and queued again until it is finished, and
    is completed only after the clean-up and confirmed only after completion. */
  lemma EndsOfLife(s: State)
    ensures Cancelled in Successors(s) <==> s != Completed && s != Confirmed && s != Cancelled
    ensures Queued in Successors(s) <==> s != Queued && s != Completed && s != Confirmed
    ensures Completed in Successors(s) <==> s == CleanupPending
    ensures Confirmed in Successors(s) <==> s == Completed
    ensures Reserved in Successors(s) <==> s == Queued
    ensures s !in Successors(s)
  {
  }

  /** A way along the edges. */
  predicate Way(path: seq<State>) { forall i | 0 <= i < |path| - 1 :: path[i + 1] in Successors(path[i]) }

  lemma WayOn(s: State, path: seq<State>)
    requires path != [] && Way(path) && path[0] in Successors(s)
    ensures Way([s] + path)
  {
  }

  /** The way of a task whose download, upload and checks succeed, as a file and as a stream. */
  lemma WaysToCompletion()
    ensures Way([Queued, Reserved, Downloading, Downloaded, WaitingUpload, Uploading, Verifying, Finalizing,
                 CleanupPending, Completed, Confirmed])
    ensures Way([Queued, Reserved, Streaming, Verifying, Finalizing, CleanupPending, Completed, Confirmed])
  {
    WayOn(Completed, [Confirmed]);
    WayOn(CleanupPending, [Completed, Confirmed]);
    WayOn(Finalizing, [CleanupPending, Completed, Confirmed]);
    WayOn(Verifying, [Finalizing, CleanupPending, Completed, Confirmed]);
  }

  /** Every task that is not yet confirmed can still be completed and confirmed. */
  lemma CanStillFinish(s: State) returns (path: seq<State>)
    ensures path != [] && path[0] == s && path[|path| - 1] == Confirmed && Way(path)
  {
    var queued := [Queued, Reserved, Streaming, Verifying, Finalizing, CleanupPending, Completed, Confirmed];
    WaysToCompletion();
    EndsOfLife(s);
    if s == Confirmed {
      path := [Confirmed];
    } else if s == Completed {
      path := [Completed, Confirmed];
    } else if s == Queued {
      path := queued;
    } else {
      WayOn(s, queued);
      path := [s] + queued;
    }
  }
}
