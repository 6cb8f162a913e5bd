/** The job request types of src/message/scan_job.rs (that file is not part of
    this model: only the values `main.rs` builds and passes on are needed). */
module JobMessage {

  /** The source's `u32` resolution in dots per inch. */
  type U32 = x: int | 0 <= x < 0x1_0000_0000

  datatype InputSource = Platen | Adf

  datatype Format = Pdf | Jpeg

  datatype ColorSpace = Gray | Color

  datatype ScanJob = ScanJob(inputSource: InputSource, resolution: U32, format: Format, colorSpace: ColorSpace)
}
