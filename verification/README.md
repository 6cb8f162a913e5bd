# Scanner client core: scan orchestration and status decoding

This project models the core of a command-line client for a network scanner's
HTTP/XML scan protocol (an eSCL-like API). It covers two pieces:

- **Scan orchestration** (`src/main.rs`). `ChooseSource` resolves the user's source
  preference (auto, adf, glass) against the document feeder's state. `Scan` is the
  state machine: query status, reject a non-idle device with `Busy`, resolve the
  source, submit the job, poll the job's readiness until it is ready, then download
  exactly once. Any error ends the run through `?`. The device is a scripted oracle
  (`Scanner.Device`). It has one reply to the status query, one to the submission,
  a finite sequence of replies to the readiness polls and one to the download.
  `Scan` is a pure function from that script to the trace of device calls
  (`Scanner.Call`) and the run's outcome. The command-line to internal enum maps
  (`to_internal`) are included.
- **Status message** (`src/message/scan_status.rs`). This part has the `ScannerState`
  and `AdfState` enumerations with their string tables, the immutable `ScanStatus`
  snapshot, and `read_xml`. `read_xml` decodes the `ScannerState` child first and
  the `AdfState` child second. The parsed XML document is abstract: it is either
  `Malformed`, or a root element reduced to a map from child tag to text.

Modules follow the source files:

- `StatusMessage` is `scan_status.rs`.
- `Orchestration` is `main.rs`.
- `JobMessage`, `Cli`, `MessageError` and `Scanner` hold only the types those two
  files use from `scan_job.rs`, `cli.rs`, `error.rs` and `scanner.rs`. Those four
  files are not part of this model.
- `Wrappers` holds the `Result` type that `:-` uses in place of Rust's `?`.

## Model

| member | source | states |
|---|---|---|
| StatusMessage.ScannerStateFromStr | src/message/scan_status.rs:31-41 | decoding succeeds exactly on the wire names "Idle" and "BusyWithScanJob", and the decoded state's name is the input; for any other string the result is `UnknownEnumValue("ScannerState", s)`, with no default |
| StatusMessage.AdfStateFromStr | src/message/scan_status.rs:49-59 | decoding succeeds exactly on "Empty" and "Loaded"; for any other string the result is `UnknownEnumValue("AdfState", s)` |
| StatusMessage.ScannerStateRoundTrip | src/message/scan_status.rs:34-40 | the string table is a bijection: a state's name decodes to that state, and a string decodes to a state only if it is that state's name |
| StatusMessage.AdfStateRoundTrip | src/message/scan_status.rs:52-58 | the same bijection for the feeder states |
| StatusMessage.NewScanStatus | src/message/scan_status.rs:68-85 | the constructed snapshot returns its two arguments from the `scanner_state` and `adf_state` accessors; `is_idle` holds exactly when the scanner state is not `BusyWithScanJob`, i.e. is `Idle` |
| StatusMessage.ReadXml | src/message/scan_status.rs:87-92 | decoding succeeds only on a parsed document whose two children carry the wire names of the result's fields; every such document decodes to that status; a document that failed XML parsing yields the parser's error |
| StatusMessage.ReadXmlErrorOrder | src/message/scan_status.rs:88-91 | a missing or unknown `ScannerState` child gives its own error whatever the `AdfState` child holds; only once the scanner state decodes does a missing or unknown `AdfState` child give its error |
| StatusMessage.ReadXmlRoundTrip | src/message/scan_status.rs:87-92 | the element a device sends for any status decodes back to that status |
| StatusMessage.ReadXmlFixtures | src/message/scan_status.rs:100-133 | the three test documents decode to (Idle, Empty), (BusyWithScanJob, Empty) and (Idle, Loaded) |
| Orchestration.FormatToInternal | src/main.rs:72-79 | `pdf` maps to `Pdf` and `jpeg` to `Jpeg`, in both directions |
| Orchestration.ColorSpaceToInternal | src/main.rs:81-88 | `gray` maps to `Gray` and `color` to `Color`, in both directions |
| Orchestration.ToInternalInjective | src/main.rs:72-88 | neither map sends two command-line values to the same internal value |
| Orchestration.ChooseSource | src/main.rs:90-109 | resolution fails exactly for the adf preference with an empty feeder, and then with `AdfEmpty`; a resolved source is the feeder exactly when the feeder is loaded and the preference is not glass |
| Orchestration.ChooseSourceTable | src/main.rs:91-107 | the full table: auto gives the feeder when loaded and the platen otherwise; adf gives the feeder when loaded and `AdfEmpty` when empty; glass always gives the platen |
| Orchestration.PollLoop | src/main.rs:129-138 | the loop's calls are polls of the job's handle, then at most one download, as the last call; a download happens only after a poll that said ready, with every earlier poll "not ready"; the loop ends done only through a successful download |
| Orchestration.PollReadyAt | src/main.rs:129-136 | when the first poll that is not "not ready" is ready, at index n, the loop makes exactly n+1 polls and then one download, and ends as the download does |
| Orchestration.PollFailsAt | src/main.rs:130 | when the first poll that is not "not ready" is an error, at index n, the loop makes exactly n+1 polls and no download, and ends with that error |
| Orchestration.PollNeverReady | src/main.rs:129-138 | a script of "not ready" answers only is polled to its end, with no download and no result: the loop has no bound of its own |
| Orchestration.Scan | src/main.rs:111-140 | the first call is the status query; the scan stops there only by failing; a job is submitted only to an idle device whose source resolved, and the submitted job carries the resolved source and the caller's resolution, format and colour unchanged; the later calls use the handle the submission returned; a download is the last call and follows a ready poll preceded by "not ready" polls only |
| Orchestration.ScanRejectsBusy | src/main.rs:120-123 | a device that is not idle fails the scan with `Busy` after the status query, with no submission, poll or download |
| Orchestration.ScanStopsBeforeSubmission | src/main.rs:120-124 | a status-query error, or the adf preference with an empty feeder, ends the scan with that error after the status query alone |
| Orchestration.ScanSubmissionFails | src/main.rs:124-127 | a rejected submission ends the scan with the device's error, with no retry and no poll |
| Orchestration.ScanReadyAt | src/main.rs:119-139 | the whole trace when the job first reports ready at poll n: status query, the submitted job, n+1 polls, one download, in that order; the scan ends as the download does |
| Orchestration.ScanNeverReady | src/main.rs:125-138 | a submitted job whose polls all answer "not ready" is polled to the end of the script with the returned handle, with no download and no result |
| Orchestration.ScanPollFailsAt | src/main.rs:129-130 | a poll error before the job is ready ends the scan with that error after n+1 polls, and nothing is downloaded |
| Orchestration.ScanScenarioIdleEmptyAuto | src/main.rs:111-140 | for an idle device with an empty feeder and the auto preference, the job goes to the platen; a busy reply to the submission fails the scan, and a job ready at the first poll is downloaded once and the scan succeeds |
| Orchestration.ScanScenarioBusy | src/main.rs:120-123 | a device busy with another scan job fails the scan at once with `Busy` |

## Left out

- The HTTP/TLS transport behind `Scanner::new`, `get_scan_status`, `start_job`, `retrieve_status` and `download_to_file` (`src/scanner.rs` is not part of this model). Their replies are the scripted `Scanner.Device`. The error taxonomy `Scanner.ScannerError` (transport, parse, busy, feeder empty) is assumed: `src/main.rs` names only `Busy` and `AdfEmpty`, and the type itself lives in `src/scanner.rs`.
- The job handle's mutable state: in the source `retrieve_status` and `download_to_file` may update the handle (`let mut job`), but that state lives in `src/scanner.rs`. Here the handle is an immutable `JobHandle(location)`, and the download reply does not depend on what the polls returned.
- The actual XML byte parsing (`Element::parse`, from an external library) and `util::parse_child_value` (`src/message/util.rs` is not part of this model). A document is either `Malformed` or a map from child tag to text. A missing child is modelled as `MissingChild(tag)`, and a child's text goes through the enumeration's string table. Children without text and repeated tags are not modelled.
- `ParseError` (`src/message/error.rs` is not part of this model): its variants here are the three decoding paths the status message uses.
- `thread::sleep` of 500 ms between polls: timing only, with no effect on the trace.
- `scanner::output_file_name` and `time::now()`: the output file name is an opaque `path` parameter of `Scan`.
- The unbounded `loop` of the poll phase is modelled over a finite script. A script that never says ready or fails ends in `StillPolling`, which stands for the source polling on forever. No timeout is added.
- `println!` diagnostics, `status`/`print_scan_status` (a status query followed by printing), the `clap` argument parsing and the subcommand dispatch in `main`, and the `web` server module: I/O and argument plumbing.
- Scan job serialisation to XML (`src/message/scan_job.rs` is not part of this model): only the `ScanJob` value submitted to the device is modelled.
- `Orchestration.Scan`: the device script gives the same submission reply whatever job is submitted; the device's own reaction to the job's content is not modelled.
