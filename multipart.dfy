/** The part of Spring's MultipartFile that the controller and the text extractor read. */
module Multipart {
  import opened Wrappers

  /**
   * An uploaded file: the client's file name, which the multipart request
   * may omit (`getOriginalFilename()` is then null), and the uploaded bytes.
   */
  datatype Upload = Upload(originalFilename: Option<string>, content: seq<bv8>)

  /** `MultipartFile.isEmpty()`: no bytes were uploaded. */
  predicate IsEmptyUpload(f: Upload)
  {
    |f.content| == 0
  }
}
