/** The checks `handleFiles` makes before reading a dropped or picked file. */
module Upload {
  import opened Wrappers
  import opened JsString

  /** What the page reads of a `File`: its MIME type and its size in bytes. */
  datatype FileInfo = FileInfo(mimeType: string, size: nat)

  /** Largest accepted file: 10 MiB. */
  const MaxUploadBytes: nat := 10 * 1024 * 1024

  /**
   * How `handleFiles` ends: silently when there is no file, with an alert
   * when the first file is not an image or is too large, and otherwise by
   * reading that file.
   */
  datatype Outcome = NoFile | NotAnImage | TooLarge | Accepted(file: FileInfo)

  predicate IsImage(f: FileInfo) { StartsWith(f.mimeType, "image/") }

  /**
   * `handleFiles(files)`: a missing (`null`) or empty list is ignored; only
   * the first file is looked at; the type check comes before the size check.
   */
  function CheckUpload(files: Option<seq<FileInfo>>): (r: Outcome)
    ensures r.Accepted? <==>
      files.Some? && |files.value| > 0 && IsImage(files.value[0]) && files.value[0].size <= MaxUploadBytes
    ensures r.Accepted? ==> r.file == files.value[0]
    ensures r == NoFile <==> files.None? || files.value == []
    ensures r == NotAnImage <==> files.Some? && |files.value| > 0 && !IsImage(files.value[0])
    ensures r == TooLarge <==>
      files.Some? && |files.value| > 0 && IsImage(files.value[0]) && files.value[0].size > MaxUploadBytes
  {
    match files
    case None => NoFile
    case Some(fs) =>
      if |fs| == 0 then NoFile
      else
        var f := fs[0];
        if !IsImage(f) then NotAnImage
        else if f.size > MaxUploadBytes then TooLarge
        else Accepted(f)
  }

  /** The alert shown for a rejected file; none when the list is empty or the file is read. */
  function AlertText(o: Outcome): (t: Option<string>)
    ensures t.Some? <==> o == NotAnImage || o == TooLarge
  {
    match o
    case NotAnImage => Some("ไฟล์ไม่ใช่รูป")
    case TooLarge => Some("ไฟล์เกิน 10MB")
    case _ => None
  }

  /** Files after the first never change the outcome. */
  lemma OnlyFirstFileMatters(f: FileInfo, rest1: seq<FileInfo>, rest2: seq<FileInfo>)
    ensures CheckUpload(Some([f] + rest1)) == CheckUpload(Some([f] + rest2))
  {
  }

  /** The size limit is inclusive: exactly 10 MiB is read, one byte more is refused. */
  lemma SizeLimitInclusive(t: string)
    requires StartsWith(t, "image/")
    ensures CheckUpload(Some([FileInfo(t, 10 * 1024 * 1024)])) == Accepted(FileInfo(t, 10 * 1024 * 1024))
    ensures CheckUpload(Some([FileInfo(t, 10 * 1024 * 1024 + 1)])) == TooLarge
  {
  }

  /** The type check is a case-sensitive prefix test and outranks the size check. */
  lemma TypeCheckedFirst(size: nat)
    ensures CheckUpload(Some([FileInfo("image/jpeg", size)])).Accepted? <==> size <= MaxUploadBytes
    ensures CheckUpload(Some([FileInfo("IMAGE/JPEG", size)])) == NotAnImage
    ensures CheckUpload(Some([FileInfo("application/pdf", size)])) == NotAnImage
  {
    assert StartsWith("image/jpeg", "image/");
    assert !StartsWith("IMAGE/JPEG", "image/") by {
      assert "IMAGE/JPEG"[0] != "image/"[0];
    }
    assert !StartsWith("application/pdf", "image/") by {
      assert "application/pdf"[0] != "image/"[0];
    }
  }
}
