/** The scan orchestration of src/main.rs: the command-line to internal enum
    maps, source selection, and the scan state machine (status gate, source
    resolution, job submission, readiness polling, one download) as a pure
    function from a scripted device to the trace of calls made and the run's
    outcome. */
module Orchestration {
  import opened Wrappers
  import opened StatusMessage
  import opened Scanner
  import Cli
  import JobMessage

  function FormatToInternal(f: Cli.Format): (r: JobMessage.Format)
    ensures r.Pdf? <==> f.Pdf?
    ensures r.Jpeg? <==> f.Jpeg?
  {
    if f.Pdf? then JobMessage.Pdf else JobMessage.Jpeg
  }

  function ColorSpaceToInternal(c: Cli.ColorSpace): (r: JobMessage.ColorSpace)
    ensures r.Gray? <==> c.Gray?
    ensures r.Color? <==> c.Color?
  {
    if c.Gray? then JobMessage.Gray else JobMessage.Color
  }

  /** No two command-line values share an internal value. */
  lemma ToInternalInjective(f: Cli.Format, g: Cli.Format, c: Cli.ColorSpace, d: Cli.ColorSpace)
    ensures FormatToInternal(f) == FormatToInternal(g) ==> f == g
    ensures ColorSpaceToInternal(c) == ColorSpaceToInternal(d) ==> c == d
  {
  }

  /** Resolves the user's source preference against the feeder state. */
  function ChooseSource(source: Cli.Source, adfState: AdfState): (r: Result<JobMessage.InputSource, ScannerError>)
    ensures r.Failure? <==> source.Adf? && adfState == Empty
    ensures r.Failure? ==> r.error == AdfEmpty
    ensures r.Success? ==> (r.value == JobMessage.Adf <==> adfState == Loaded && !source.Glass?)
  {
    match source
    case Auto =>
      if adfState == Loaded then Success(JobMessage.Adf) else Success(JobMessage.Platen)
    case Adf =>
      (match adfState
       case Loaded => Success(JobMessage.Adf)
       case Empty => Failure(AdfEmpty))
    case Glass => Success(JobMessage.Platen)
  }

  /** How a run over a scripted device ends. `StillPolling` means every poll
      of the script reported "not ready": the source would go on polling. */
  datatype Outcome = Done | Failed(error: ScannerError) | StillPolling

  datatype Run = Run(trace: seq<Call>, outcome: Outcome)

  /** The first `n` polls all answered "not ready". */
  predicate AllPending(polls: seq<Result<bool, ScannerError>>, n: nat)
    requires n <= |polls|
  {
    forall i :: 0 <= i < n ==> polls[i] == Success(false)
  }

  /** `n` readiness polls of the job at `h`. */
  function Retrievals(h: JobHandle, n: nat): (calls: seq<Call>)
    ensures |calls| == n
    ensures forall i :: 0 <= i < n ==> calls[i] == RetrieveStatus(h)
  {
    seq(n, _ => RetrieveStatus(h))
  }

  /** The poll loop: ask for readiness until the device says ready, then
      download once; a poll error ends the loop with that error. */
  function PollLoop(h: JobHandle, polls: seq<Result<bool, ScannerError>>,
                    download: Result<(), ScannerError>, path: string): (r: Run)
    ensures |r.trace| <= |polls| + 1
    ensures forall i :: 0 <= i < |r.trace| - 1 ==> r.trace[i] == RetrieveStatus(h)
    ensures forall i :: 0 <= i < |r.trace| ==> r.trace[i] == RetrieveStatus(h) || r.trace[i] == DownloadToFile(h, path)
    ensures forall i :: 0 <= i < |r.trace| && r.trace[i].DownloadToFile? ==>
      && i == |r.trace| - 1 && 1 <= i <= |polls|
      && AllPending(polls, i - 1) && polls[i - 1] == Success(true)
    ensures r.outcome.Done? ==> |r.trace| >= 2 && r.trace[|r.trace| - 1].DownloadToFile? && download.Success?
    ensures r.outcome.StillPolling? ==> |r.trace| == |polls| && AllPending(polls, |polls|)
    decreases |polls|
  {
    if |polls| == 0 then Run([], StillPolling)
    else match polls[0]
      case Failure(e) => Run([RetrieveStatus(h)], Failed(e))
      case Success(ready) =>
        if ready then
          Run([RetrieveStatus(h), DownloadToFile(h, path)],
              if download.Success? then Done else Failed(download.error))
        else
          var rest := PollLoop(h, polls[1..], download, path);
          Run([RetrieveStatus(h)] + rest.trace, rest.outcome)
  }

  /** Runs one scan against a scripted device. `path` stands for the output
      file name the source derives from the format and the wall clock. */
  function Scan(dev: Device, format: JobMessage.Format, color: JobMessage.ColorSpace,
                source: Cli.Source, resolution: JobMessage.U32, path: string): (r: Run)
    ensures |r.trace| >= 1 && r.trace[0] == GetScanStatus
    ensures |r.trace| == 1 ==> r.outcome.Failed?
    ensures |r.trace| >= 2 ==>
      && dev.status.Success? && dev.status.value.IsIdle()
      && ChooseSource(source, dev.status.value.adfState).Success?
      && r.trace[1] == StartJob(JobMessage.ScanJob(ChooseSource(source, dev.status.value.adfState).value,
                                                  resolution, format, color))
    ensures forall i :: 2 <= i < |r.trace| ==>
      && dev.startJob.Success?
      && (r.trace[i] == RetrieveStatus(dev.startJob.value)
          || (i == |r.trace| - 1 && r.trace[i] == DownloadToFile(dev.startJob.value, path)))
    ensures forall i :: 0 <= i < |r.trace| && r.trace[i].DownloadToFile? ==>
      && i == |r.trace| - 1 && 3 <= i <= |dev.polls| + 2
      && AllPending(dev.polls, i - 3) && dev.polls[i - 3] == Success(true)
    ensures r.outcome.Done? ==> r.trace[|r.trace| - 1].DownloadToFile? && dev.download.Success?
  {
    match dev.status
    case Failure(e) => Run([GetScanStatus], Failed(e))
    case Success(status) =>
      if !status.IsIdle() then Run([GetScanStatus], Failed(Busy))
      else match ChooseSource(source, status.adfState)
        case Failure(e) => Run([GetScanStatus], Failed(e))
        case Success(input) =>
          var job := JobMessage.ScanJob(input, resolution, format, color);
          match dev.startJob
          case Failure(e) => Run([GetScanStatus, StartJob(job)], Failed(e))
          case Success(h) =>
            var p := PollLoop(h, dev.polls, dev.download, path);
            Run([GetScanStatus, StartJob(job)] + p.trace, p.outcome)
  }

  /** The source-resolution table: every preference against every feeder state. */
  lemma ChooseSourceTable()
    ensures ChooseSource(Cli.Auto, Loaded) == Success(JobMessage.Adf)
    ensures ChooseSource(Cli.Auto, Empty) == Success(JobMessage.Platen)
    ensures ChooseSource(Cli.Adf, Loaded) == Success(JobMessage.Adf)
    ensures ChooseSource(Cli.Adf, Empty) == Failure(AdfEmpty)
    ensures ChooseSource(Cli.Glass, Loaded) == Success(JobMessage.Platen)
    ensures ChooseSource(Cli.Glass, Empty) == Success(JobMessage.Platen)
  {
  }

  /** If the first answer that is not "not ready" is "ready", at poll `n`,
      the loop makes exactly `n + 1` polls and then one download, and ends
      as the download does. */
  lemma {:induction false} PollReadyAt(h: JobHandle, polls: seq<Result<bool, ScannerError>>,
                                       download: Result<(), ScannerError>, path: string, n: nat)
    requires n < |polls| && AllPending(polls, n) && polls[n] == Success(true)
    ensures PollLoop(h, polls, download, path).trace == Retrievals(h, n + 1) + [DownloadToFile(h, path)]
    ensures PollLoop(h, polls, download, path).outcome ==
      (if download.Success? then Done else Failed(download.error))
    decreases n
  {
    if n > 0 {
      assert polls[0] == Success(false);
      assert AllPending(polls[1..], n - 1) by {
        forall i | 0 <= i < n - 1 ensures polls[1..][i] == Success(false) {
          assert polls[1..][i] == polls[i + 1];
        }
      }
      PollReadyAt(h, polls[1..], download, path, n - 1);
      assert [RetrieveStatus(h)] + Retrievals(h, n) == Retrievals(h, n + 1);
    }
  }

  /** If the first answer that is not "not ready" is an error, at poll `n`,
      the loop makes exactly `n + 1` polls, no download, and ends with that
      error. */
  lemma {:induction false} PollFailsAt(h: JobHandle, polls: seq<Result<bool, ScannerError>>,
                                       download: Result<(), ScannerError>, path: string, n: nat)
    requires n < |polls| && AllPending(polls, n) && polls[n].Failure?
    ensures PollLoop(h, polls, download, path) == Run(Retrievals(h, n + 1), Failed(polls[n].error))
    decreases n
  {
    if n > 0 {
      assert polls[0] == Success(false);
      assert AllPending(polls[1..], n - 1) by {
        forall i | 0 <= i < n - 1 ensures polls[1..][i] == Success(false) {
          assert polls[1..][i] == polls[i + 1];
        }
      }
      PollFailsAt(h, polls[1..], download, path, n - 1);
      assert [RetrieveStatus(h)] + Retrievals(h, n) == Retrievals(h, n + 1);
    }
  }

  /** A script that never answers anything but "not ready" is polled to its
      end without a download: the run has not finished. */
  lemma {:induction false} PollNeverReady(h: JobHandle, polls: seq<Result<bool, ScannerError>>,
                                          download: Result<(), ScannerError>, path: string)
    requires AllPending(polls, |polls|)
    ensures PollLoop(h, polls, download, path) == Run(Retrievals(h, |polls|), StillPolling)
    decreases |polls|
  {
    if |polls| > 0 {
      assert polls[0] == Success(false);
      assert AllPending(polls[1..], |polls| - 1) by {
        forall i | 0 <= i < |polls| - 1 ensures polls[1..][i] == Success(false) {
          assert polls[1..][i] == polls[i + 1];
        }
      }
      PollNeverReady(h, polls[1..], download, path);
      assert [RetrieveStatus(h)] + Retrievals(h, |polls| - 1) == Retrievals(h, |polls|);
    }
  }

  /** A device that is not idle is rejected with `Busy` after the status
      query alone: no job is submitted, polled or downloaded. */
  lemma ScanRejectsBusy(dev: Device, format: JobMessage.Format, color: JobMessage.ColorSpace,
                        source: Cli.Source, resolution: JobMessage.U32, path: string)
    requires dev.status.Success? && !dev.status.value.IsIdle()
    ensures Scan(dev, format, color, source, resolution, path) == Run([GetScanStatus], Failed(Busy))
  {
  }

  /** An error from the status query or from source resolution ends the scan
      with that error before any job is submitted. */
  lemma ScanStopsBeforeSubmission(dev: Device, format: JobMessage.Format, color: JobMessage.ColorSpace,
                                  source: Cli.Source, resolution: JobMessage.U32, path: string)
    ensures dev.status.Failure? ==>
      Scan(dev, format, color, source, resolution, path) == Run([GetScanStatus], Failed(dev.status.error))
    ensures dev.status.Success? && dev.status.value.IsIdle() && source.Adf? && dev.status.value.adfState == Empty ==>
      Scan(dev, format, color, source, resolution, path) == Run([GetScanStatus], Failed(AdfEmpty))
  {
  }

  /** A rejected submission ends the scan with the device's error: no retry,
      no poll. */
  lemma ScanSubmissionFails(dev: Device, format: JobMessage.Format, color: JobMessage.ColorSpace,
                            source: Cli.Source, resolution: JobMessage.U32, path: string)
    requires dev.status.Success? && dev.status.value.IsIdle()
    requires ChooseSource(source, dev.status.value.adfState).Success?
    requires dev.startJob.Failure?
    ensures Scan(dev, format, color, source, resolution, path) ==
      Run([GetScanStatus,
           StartJob(JobMessage.ScanJob(ChooseSource(source, dev.status.value.adfState).value, resolution, format, color))],
          Failed(dev.startJob.error))
  {
  }

  /** The whole trace of a scan whose job first reports ready at poll `n`:
      status, the submitted job, `n + 1` polls of the returned handle, one
      download to `path`, in that order; the scan ends as the download does. */
  lemma ScanReadyAt(dev: Device, format: JobMessage.Format, color: JobMessage.ColorSpace,
                    source: Cli.Source, resolution: JobMessage.U32, path: string, n: nat)
    requires dev.status.Success? && dev.status.value.IsIdle()
    requires ChooseSource(source, dev.status.value.adfState).Success?
    requires dev.startJob.Success?
    requires n < |dev.polls| && AllPending(dev.polls, n) && dev.polls[n] == Success(true)
    ensures Scan(dev, format, color, source, resolution, path).trace ==
      [GetScanStatus,
       StartJob(JobMessage.ScanJob(ChooseSource(source, dev.status.value.adfState).value, resolution, format, color))]
      + Retrievals(dev.startJob.value, n + 1)
      + [DownloadToFile(dev.startJob.value, path)]
    ensures Scan(dev, format, color, source, resolution, path).outcome ==
      (if dev.download.Success? then Done else Failed(dev.download.error))
  {
    PollReadyAt(dev.startJob.value, dev.polls, dev.download, path, n);
  }

  /** A submitted job whose polls all answer "not ready" is polled to the end
      of the script, with no download: the scan has not finished. */
  lemma ScanNeverReady(dev: Device, format: JobMessage.Format, color: JobMessage.ColorSpace,
                       source: Cli.Source, resolution: JobMessage.U32, path: string)
    requires dev.status.Success? && dev.status.value.IsIdle()
    requires ChooseSource(source, dev.status.value.adfState).Success?
    requires dev.startJob.Success?
    requires AllPending(dev.polls, |dev.polls|)
    ensures Scan(dev, format, color, source, resolution, path) ==
      Run([GetScanStatus,
           StartJob(JobMessage.ScanJob(ChooseSource(source, dev.status.value.adfState).value, resolution, format, color))]
          + Retrievals(dev.startJob.value, |dev.polls|),
          StillPolling)
  {
    PollNeverReady(dev.startJob.value, dev.polls, dev.download, path);
  }

  /** A poll error before the job is ready ends the scan with that error after
      `n + 1` polls, and nothing is downloaded. */
  lemma ScanPollFailsAt(dev: Device, format: JobMessage.Format, color: JobMessage.ColorSpace,
                        source: Cli.Source, resolution: JobMessage.U32, path: string, n: nat)
    requires dev.status.Success? && dev.status.value.IsIdle()
    requires ChooseSource(source, dev.status.value.adfState).Success?
    requires dev.startJob.Success?
    requires n < |dev.polls| && AllPending(dev.polls, n) && dev.polls[n].Failure?
    ensures Scan(dev, format, color, source, resolution, path).trace ==
      [GetScanStatus,
       StartJob(JobMessage.ScanJob(ChooseSource(source, dev.status.value.adfState).value, resolution, format, color))]
      + Retrievals(dev.startJob.value, n + 1)
    ensures Scan(dev, format, color, source, resolution, path).outcome == Failed(dev.polls[n].error)
  {
    PollFailsAt(dev.startJob.value, dev.polls, dev.download, path, n);
  }

  /** A scripted idle device with an empty feeder, asked for an automatic
      source at 300 dpi as PDF: the job goes to the platen; a busy reply to
      the submission fails the scan, and a job ready at the first poll is
      downloaded once. */
  lemma ScanScenarioIdleEmptyAuto(h: JobHandle, path: string)
    ensures var job := JobMessage.ScanJob(JobMessage.Platen, 300, JobMessage.Pdf, JobMessage.Color);
      var busy := Device(Success(ScanStatus(Idle, Empty)), Failure(Busy), [], Success(()));
      var ready := Device(Success(ScanStatus(Idle, Empty)), Success(h), [Success(true)], Success(()));
      && Scan(busy, JobMessage.Pdf, JobMessage.Color, Cli.Auto, 300, path) == Run([GetScanStatus, StartJob(job)], Failed(Busy))
      && Scan(ready, JobMessage.Pdf, JobMessage.Color, Cli.Auto, 300, path) ==
           Run([GetScanStatus, StartJob(job), RetrieveStatus(h), DownloadToFile(h, path)], Done)
  {
  }

  /** A device busy with another job fails the scan at once. */
  lemma ScanScenarioBusy(h: JobHandle, polls: seq<Result<bool, ScannerError>>, path: string)
    ensures var busy := Device(Success(ScanStatus(BusyWithScanJob, Empty)), Success(h), polls, Success(()));
      Scan(busy, JobMessage.Pdf, JobMessage.Gray, Cli.Auto, 300, path) == Run([GetScanStatus], Failed(Busy))
  {
  }
}
