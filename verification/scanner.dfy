/** The scanner client's interface, seen from the orchestration: its error
    taxonomy, the job handle, the calls a scan makes, and the device as a
    scripted oracle. The HTTP conversation behind these calls
    (src/scanner.rs) is not part of this model. */
module Scanner {
  import opened Wrappers
  import MessageError
  import StatusMessage
  import JobMessage

  datatype ScannerError =
    /** Network, connection or file-system failure. */
    | Transport(reason: string)
    /** A device reply that did not decode. */
    | Parse(cause: MessageError.ParseError)
    /** The device cannot accept a job. */
    | Busy
    /** The feeder was requested but holds no paper. */
    | AdfEmpty

  /** The server-assigned location of a submitted job. */
  datatype JobHandle = JobHandle(location: string)

  /** One call a scan makes on the device, in the order it makes them. */
  datatype Call =
    | GetScanStatus
    | StartJob(job: JobMessage.ScanJob)
    | RetrieveStatus(handle: JobHandle)
    | DownloadToFile(handle: JobHandle, path: string)

  /** What the device answers during one scan: the reply to the status query,
      to the job submission, to each successive poll of the job's readiness
      (`true` once the page is ready), and to the download. */
  datatype Device = Device(
    status: Result<StatusMessage.ScanStatus, ScannerError>,
    startJob: Result<JobHandle, ScannerError>,
    polls: seq<Result<bool, ScannerError>>,
    download: Result<(), ScannerError>)
}
