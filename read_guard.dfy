/** The `/read` handler of `app.py`: serve a file only if it exists and its
    path mentions "data". Both refusals are raised inside the handler's `try`
    and so come back as an error body, not as a 404 or 403 status. */
module ReadGuard {
  import opened Strings

  /** A regular file as `open(path).read()` sees it. */
  datatype FileEntry = Readable(content: string) | Unreadable(message: string)

  /** A plain-text 200 response, or the catch-all `{"error": str(e)}`. */
  datatype ReadResponse = PlainText(content: string) | ErrorBody(message: string)

  /** `str()` of the two HTTPExceptions: status code, colon, detail, as
      Starlette versions whose `HTTPException` defines `__str__` write it. */
  const NotFound: string := "404: File not found"
  const Forbidden: string := "403: Forbidden"

  /** The handler over the regular files present, keyed by path. */
  function ReadPath(path: string, fs: map<string, FileEntry>): (r: ReadResponse)
    ensures r.PlainText? <==> path in fs && fs[path].Readable? && Contains(path, "data")
    ensures r.PlainText? ==> fs[path] == Readable(r.content)
    // existence is tested before the path: a missing file is 404 whatever its name
    ensures path !in fs ==> r == ErrorBody(NotFound)
    ensures path in fs && !Contains(path, "data") ==> r == ErrorBody(Forbidden)
    ensures path in fs && Contains(path, "data") && fs[path].Unreadable? ==> r == ErrorBody(fs[path].message)
  {
    if path !in fs then ErrorBody(NotFound)
    else if !Contains(path, "data") then ErrorBody(Forbidden)
    else match fs[path]
      case Readable(content) => PlainText(content)
      case Unreadable(msg) => ErrorBody(msg)
  }

  /** "data" may stand anywhere in the path, not only as a directory name:
      any existing readable file whose path holds it at some position is
      served. */
  lemma DataAnywhereIsServed(path: string, fs: map<string, FileEntry>, i: int)
    requires OccursAt(path, "data", i) && path in fs && fs[path].Readable?
    ensures ReadPath(path, fs) == PlainText(fs[path].content)
  {
    ContainsIff(path, "data");
  }

  /** A served path holds "data" at some position. */
  lemma ServedPathHasData(path: string, fs: map<string, FileEntry>)
    requires ReadPath(path, fs).PlainText?
    ensures exists i :: OccursAt(path, "data", i)
  {
    ContainsIff(path, "data");
  }

  /** A file outside any data directory, such as "/etc/metadata.conf", is
      served when it exists. */
  lemma MetadataFileIsServed(fs: map<string, FileEntry>, content: string)
    requires fs == map["/etc/metadata.conf" := Readable(content)]
    ensures ReadPath("/etc/metadata.conf", fs) == PlainText(content)
  {
    var path := "/etc/metadata.conf";
    assert path[9..13] == "data";
    DataAnywhereIsServed(path, fs, 9);
  }
}
