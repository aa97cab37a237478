/**
 * What the components exchange with the backend and the storage host, as values.
 * Requests are not executed: a handler records each request it issues, and the
 * reply it gets is a parameter of the handler.
 */
module Net {
  import opened Common

  /** A file chosen in an `<input type="file">`; only its MIME type matters to the handlers. */
  datatype File = File(mimeType: string)

  /** A signed upload target: the URL to PUT the bytes to and the URL the file is read from afterwards. */
  datatype Target = Target(uploadURL: string, readURL: string)

  /**
   * The reply to a POST: a status, or a failure that raised an exception
   * (no connection, or a status axios rejects, which is any status outside 200-299).
   */
  datatype Reply = NetworkError | Status(code: int)

  /** `res.status === 200 || res.status === 201`: the only replies treated as saved. */
  predicate Succeeded(r: Reply) {
    r.Status? && (r.code == 200 || r.code == 201)
  }

  /** A request as it went out, with the component's busy flag at that moment. */
  datatype Sent<R> = Sent(request: R, busy: bool)

  /** The upload guard: a file was chosen and its type is on the allow-list. */
  predicate Accepts(file: Option<File>, allowed: seq<string>) {
    file.Some? && file.value.mimeType in allowed
  }
}
