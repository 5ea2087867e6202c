/** The `.txt` upload shared by the document views and the dispute form. */
module Uploads {
  import opened Core

  /** The file the picker hands over: its name and MIME type. */
  datatype FileInfo = FileInfo(name: string, mimeType: string)

  const RejectAlert := "Please upload a valid .txt file."

  /** A file is read only when one was chosen and its type is exactly
      `text/plain`; a `.txt` file the browser labels differently is refused. */
  predicate Accepts(file: Option<FileInfo>) {
    file.Some? && file.value.mimeType == "text/plain"
  }
}
