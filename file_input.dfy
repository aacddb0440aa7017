/**
 * The Zapier file field shared by the two create actions, and the URL both
 * derive from it: the string itself, else the object's url, else the object.
 */
module FileInput {
  import opened Wrappers
  import opened Js

  /** A file field value: a URL string, or a file object that may carry a `url`. */
  datatype FileRef = FileText(text: string) | FileObject(url: Option<string>, filename: Option<string>)

  /** What ends up in the URL slot: a string, or the file object itself when it has no url. */
  datatype UrlValue = UrlText(text: string) | UrlObject(file: FileRef)

  /** The derived file URL, None when it is falsy. */
  function FileUrl(file: Option<FileRef>): (r: Option<UrlValue>)
    ensures file.None? ==> r.None?
    ensures file.Some? && file.value.FileText? ==>
      r == if file.value.text == "" then None else Some(UrlText(file.value.text))
    ensures file.Some? && file.value.FileObject? && Truthy(file.value.url) ==> r == Some(UrlText(file.value.url.value))
    ensures file.Some? && file.value.FileObject? && !Truthy(file.value.url) ==> r == Some(UrlObject(file.value))
    ensures r.Some? && r.value.UrlText? ==> r.value.text != ""
  {
    match file
    case None => None
    case Some(FileText(text)) => if text == "" then None else Some(UrlText(text))
    case Some(FileObject(url, _)) => if Truthy(url) then Some(UrlText(url.value)) else Some(UrlObject(file.value))
  }
}
