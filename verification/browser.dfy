/** What the components see of a browser file input. */
module Browser {
  import opened Wrappers

  /** A selected file. Its contents are never read by the modelled code, so
      only the name and the MIME type (`File.type`) are kept. */
  datatype File = File(name: string, mimeType: string)

  const PdfType: string := "application/pdf"

  /** `e.target.files?.[0]`: the first selected file, if any. An input with no
      file list and one with an empty list are both the empty sequence. */
  function FirstFile(files: seq<File>): (r: Option<File>)
    ensures r.None? <==> files == []
    ensures r.Some? ==> r.value == files[0]
  {
    if files == [] then None else Some(files[0])
  }
}
