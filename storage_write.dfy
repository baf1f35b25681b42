/** The checks and naming of a storage write (Engine/Files/write_supabase_file.py):
    what is checked before anything is sent, the full path and address of
    the object, and the Content-Type it is sent with. */
module StorageWrite {
  import opened Strings

  const Bucket := "panelitix"

  /** The environment settings the writer reads; "" when a setting is
      unset. */
  datatype StorageConfig = StorageConfig(url: string, rootFolder: string)

  /** The content handed to the writer: text, raw bytes, or any other
      value. */
  datatype Content = Text(text: string) | Bytes(bytes: seq<bv8>) | OtherValue

  datatype WriteError = ValueError(message: string) | TypeError(message: string)

  /** The request that would be sent: the full object path, its address,
      its Content-Type and its body (text is sent UTF-8 encoded). */
  datatype Upload = Upload(fullPath: string, url: string, contentType: string, body: Content)

  datatype WriteOutcome = Uploaded(upload: Upload) | Raised(error: WriteError)

  /** The Content-Type: the one given (`contentType` is "" when none is),
      otherwise chosen by the path's extension. */
  function ContentTypeFor(path: string, contentType: string): (r: string)
    ensures r != ""
  {
    if contentType != "" then contentType
    else if EndsWith(path, ".csv") then "text/csv; charset=utf-8"
    else if EndsWith(path, ".txt") then "text/plain; charset=utf-8"
    else "application/octet-stream"
  }

  /** A given Content-Type always wins; without one, `.csv` and `.txt` paths
      get their text types and every other path the binary type. A path
      never ends in both extensions, so the order of the two tests does not
      matter. */
  lemma ContentTypeChoice(path: string, contentType: string)
    ensures contentType != "" ==> ContentTypeFor(path, contentType) == contentType
    ensures contentType == "" ==>
      (ContentTypeFor(path, contentType) == "text/csv; charset=utf-8" <==> EndsWith(path, ".csv"))
    ensures contentType == "" ==>
      (ContentTypeFor(path, contentType) == "text/plain; charset=utf-8" <==> EndsWith(path, ".txt"))
    ensures contentType == "" ==>
      (ContentTypeFor(path, contentType) == "application/octet-stream"
       <==> !EndsWith(path, ".csv") && !EndsWith(path, ".txt"))
  {
  }

  /** `write_supabase_file` up to the upload: the settings and the path are
      checked in order, then the content's type, and only then is the
      request put together. */
  function WriteSupabaseFile(config: StorageConfig, path: string, content: Content, contentType: string)
    : (r: WriteOutcome)
    ensures r.Uploaded? <==> config.url != "" && config.rootFolder != "" && path != "" && !content.OtherValue?
    ensures r.Uploaded? ==>
      && r.upload.fullPath == config.rootFolder + "/" + path
      && r.upload.url == config.url + "/storage/v1/object/" + Bucket + "/" + r.upload.fullPath
      && StartsWith(r.upload.fullPath, config.rootFolder + "/")
      && EndsWith(r.upload.fullPath, "/" + path)
      && EndsWith(r.upload.url, "/" + Bucket + "/" + r.upload.fullPath)
      && r.upload.contentType == ContentTypeFor(path, contentType)
      && r.upload.body == content
  {
    if config.url == "" then Raised(ValueError("SUPABASE_URL not configured"))
    else if config.rootFolder == "" then Raised(ValueError("SUPABASE_ROOT_FOLDER not configured"))
    else if path == "" then Raised(ValueError("File path must be provided"))
    else
      var fullPath := config.rootFolder + "/" + path;
      var url := config.url + "/storage/v1/object/" + Bucket + "/" + fullPath;
      if content.OtherValue? then Raised(TypeError("Content must be str or bytes"))
      else
        assert url == (config.url + "/storage/v1/object") + ("/" + Bucket + "/" + fullPath);
        assert fullPath == config.rootFolder + ("/" + path);
        Uploaded(Upload(fullPath, url, ContentTypeFor(path, contentType), content))
  }

  /** The checks come in a fixed order: a missing address is reported
      whatever else is wrong, then a missing root folder, then an empty
      path, and the content's type only when all three are present. */
  lemma ChecksInOrder(config: StorageConfig, path: string, content: Content, contentType: string)
    ensures var r := WriteSupabaseFile(config, path, content, contentType);
      && (config.url == "" ==> r == Raised(ValueError("SUPABASE_URL not configured")))
      && (config.url != "" && config.rootFolder == "" ==>
            r == Raised(ValueError("SUPABASE_ROOT_FOLDER not configured")))
      && (config.url != "" && config.rootFolder != "" && path == "" ==>
            r == Raised(ValueError("File path must be provided")))
      && (r.Raised? && r.error.TypeError? <==>
            config.url != "" && config.rootFolder != "" && path != "" && content.OtherValue?)
  {
  }

  /** The object path is the root folder, `/`, then the path: two paths give
      the same object only when they are equal. */
  lemma FullPathInjective(config: StorageConfig, path1: string, path2: string, content: Content, contentType: string)
    requires WriteSupabaseFile(config, path1, content, contentType).Uploaded?
    requires WriteSupabaseFile(config, path2, content, contentType).Uploaded?
    ensures WriteSupabaseFile(config, path1, content, contentType).upload.fullPath
            == WriteSupabaseFile(config, path2, content, contentType).upload.fullPath
            <==> path1 == path2
  {
    var p := config.rootFolder + "/";
    if p + path1 == p + path2 {
      assert path1 == (p + path1)[|p|..];
      assert path2 == (p + path2)[|p|..];
    }
  }
}
