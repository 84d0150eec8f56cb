/** The CSV upload box of the list form
    (app/dashboard/lists/components/FileUpload.tsx): a drop zone and a
    hidden file input. A chosen or dropped file is accepted only if it looks
    like a CSV file and is at most 10 MB; otherwise an alert is shown and the
    current file stays. */
module FileUpload {
  import opened Wrappers
  import opened JsText
  import opened WebForm

  const OnlyCsv := "CSVファイルのみアップロード可能です。"
  const TooLarge := "ファイルサイズは10MB以下にしてください。"

  /** 10 * 1024 * 1024 bytes. */
  const MaxSize: nat := 10 * 1024 * 1024

  /** The type test: the browser reports the CSV MIME type, or the name has
      the ".csv" suffix (compared case-sensitively). */
  predicate LooksLikeCsv(f: File) {
    f.mimeType == "text/csv" || EndsWith(f.name, ".csv")
  }

  /** The alert `handleFileSelect` shows for a file, if any: the type test
      comes first, then the size limit. */
  function Rejection(f: File): Option<string> {
    if !LooksLikeCsv(f) then Some(OnlyCsv)
    else if f.size > MaxSize then Some(TooLarge)
    else None
  }

  /** A file is accepted exactly when it looks like CSV and has at most
      10485760 bytes; a file failing both tests is reported as not CSV. */
  lemma AcceptedIff(f: File)
    ensures Rejection(f) == None <==> LooksLikeCsv(f) && f.size <= 10485760
    ensures !LooksLikeCsv(f) ==> Rejection(f) == Some(OnlyCsv)
    ensures LooksLikeCsv(f) && f.size > 10485760 ==> Rejection(f) == Some(TooLarge)
  {
  }

  /** The limit is inclusive: a CSV file of exactly 10 MB is accepted, one
      byte more is refused. */
  lemma SizeLimitInclusive(name: string)
    ensures Rejection(File(name, "text/csv", 10485760)) == None
    ensures Rejection(File(name, "text/csv", 10485761)) == Some(TooLarge)
  {
    assert OnlyCsv != TooLarge by {
      assert OnlyCsv[0] != TooLarge[0];
    }
  }

  /** The suffix test is case-sensitive: "LIST.CSV" passes only when the
      browser reports the CSV MIME type. */
  lemma UpperCaseSuffixRefused(size: nat)
    ensures Rejection(File("LIST.CSV", "application/vnd.ms-excel", size)) == Some(OnlyCsv)
    ensures Rejection(File("list.csv", "application/vnd.ms-excel", 1)) == None
  {
    var upper := "LIST.CSV";
    assert upper[|upper| - 4..] == ".CSV";
    assert ".CSV" != ".csv" by {
      assert ".CSV"[1] != ".csv"[1];
    }
    var lower := "list.csv";
    assert lower[|lower| - 4..] == ".csv";
  }

  class UploadBox {
    /** The form's selected file (the `file` prop, written through
        `setFile`). */
    var file: Option<File>
    var isDragOver: bool
    /** The value of the hidden file input; None while the input is not
        mounted (the ref is null). */
    var inputValue: Option<string>

    constructor(file: Option<File>)
      ensures this.file == file && !isDragOver && inputValue == None
    {
      this.file := file;
      isDragOver := false;
      inputValue := None;
    }

    /** `handleFileSelect`: a rejected file only raises its alert and leaves
        the current file; an accepted one replaces it. */
    method HandleFileSelect(f: File) returns (alert: Option<string>)
      modifies `file
      ensures alert == Rejection(f)
      ensures file == if alert.None? then Some(f) else old(file)
    {
      if f.mimeType != "text/csv" && !EndsWith(f.name, ".csv") {
        return Some(OnlyCsv);
      }
      if f.size > 10 * 1024 * 1024 {
        return Some(TooLarge);
      }
      file := Some(f);
      return None;
    }

    method HandleDragOver()
      modifies `isDragOver
      ensures isDragOver
    {
      isDragOver := true;
    }

    method HandleDragLeave()
      modifies `isDragOver
      ensures !isDragOver
    {
      isDragOver := false;
    }

    /** `handleDrop`: the highlight ends, and the first dropped file, if
        any, is selected; a drop without files changes nothing else. */
    method HandleDrop(files: seq<File>) returns (alert: Option<string>)
      modifies `file, `isDragOver
      ensures !isDragOver
      ensures files == [] ==> alert == None && file == old(file)
      ensures files != [] ==>
        alert == Rejection(files[0]) && file == if alert.None? then Some(files[0]) else old(file)
    {
      isDragOver := false;
      alert := None;
      if files != [] {
        alert := HandleFileSelect(files[0]);
      }
    }

    /** `handleFileInputChange`: `e.target.files?.[0]`; no list, or an empty
        one, changes nothing. */
    method HandleFileInputChange(files: Option<seq<File>>) returns (alert: Option<string>)
      modifies `file
      ensures files.None? || files.value == [] ==> alert == None && file == old(file)
      ensures files.Some? && files.value != [] ==>
        alert == Rejection(files.value[0]) && file == if alert.None? then Some(files.value[0]) else old(file)
    {
      alert := None;
      if files.Some? && files.value != [] {
        alert := HandleFileSelect(files.value[0]);
      }
    }

    /** `removeFile`: no file afterwards, and a mounted input is cleared. */
    method RemoveFile()
      modifies `file, `inputValue
      ensures file == None
      ensures inputValue == if old(inputValue).Some? then Some("") else None
    {
      file := None;
      if inputValue.Some? {
        inputValue := Some("");
      }
    }
  }
}
