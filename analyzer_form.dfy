/** The upload form: which chosen or dropped files it keeps, the folder name it shows,
    the drag highlight, and the multipart request it sends to the upload route. */
module AnalyzerForm {
  import opened Text
  import opened Multipart
  import opened Store
  import opened ProcessRoute

  // ---------------------------------------------------------------------------
  // The video-file filter

  /** A file is kept when its MIME type is a video type or its name, lower-cased, ends with
      one of the three accepted extensions. */
  predicate IsVideoFile(f: File) {
    StartsWith(f.mimeType, "video/")
    || EndsWith(ToLower(f.name), ".mp4")
    || EndsWith(ToLower(f.name), ".mov")
    || EndsWith(ToLower(f.name), ".avi")
  }

  /** The video files among `files`, in their original order. */
  function VideoFiles(files: seq<File>): (kept: seq<File>)
    ensures |kept| <= |files|
    ensures forall f :: f in kept <==> f in files && IsVideoFile(f)
  {
    if files == [] then []
    else
      assert forall f :: f in files <==> f == files[0] || f in files[1..];
      (if IsVideoFile(files[0]) then [files[0]] else []) + VideoFiles(files[1..])
  }

  /** Filtering a list split in two is filtering each part: the kept files keep their order. */
  lemma {:induction false} VideoFilesAppend(a: seq<File>, b: seq<File>)
    ensures VideoFiles(a + b) == VideoFiles(a) + VideoFiles(b)
  {
    if a == [] {
      assert a + b == b;
    } else {
      assert (a + b)[0] == a[0];
      assert (a + b)[1..] == a[1..] + b;
      VideoFilesAppend(a[1..], b);
    }
  }

  /** A list of video files passes the filter unchanged. */
  lemma {:induction false} VideoFilesKeepsVideos(files: seq<File>)
    requires forall i :: 0 <= i < |files| ==> IsVideoFile(files[i])
    ensures VideoFiles(files) == files
  {
    if files != [] {
      VideoFilesKeepsVideos(files[1..]);
    }
  }

  // ---------------------------------------------------------------------------
  // The folder name

  datatype UploadMode = Single | Folder

  /** The folder name after a non-empty selection whose video files are `kept`, in `mode`,
      when it was `current`. */
  function NextFolderName(mode: UploadMode, kept: seq<File>, current: string): string {
    if mode == Folder && |kept| > 0 && kept[0].relativePath != "" then
      var pathParts := Split(kept[0].relativePath, '/');
      if |pathParts| > 1 then pathParts[0] else current
    else ""
  }

  /** In folder mode the name is the first segment of the first kept file's relative path;
      a path without a separator leaves the name as it was; in single mode, or without a
      relative path, the name is cleared. */
  lemma FolderNameRule(mode: UploadMode, kept: seq<File>, current: string)
    ensures var path := if |kept| > 0 then kept[0].relativePath else "";
      var name := NextFolderName(mode, kept, current);
      && (mode == Folder && '/' in path ==> '/' !in name && path[..|name| + 1] == name + "/")
      && (mode == Folder && path != "" && '/' !in path ==> name == current)
      && (mode == Single || path == "" ==> name == "")
  {
    if |kept| > 0 && kept[0].relativePath != "" {
      var path := kept[0].relativePath;
      var first := FirstSegment(path, '/');
      assert Split(path, '/')[0] == first;
      if '/' in path {
        assert first != path;
        assert path[..|first| + 1] == path[..|first|] + [path[|first|]];
      }
    }
  }

  // ---------------------------------------------------------------------------
  // The request

  /** Number.toString of a slider value: never empty. Rendering a float is not modelled. */
  type NumberText = s: string | s != "" witness "0"

  /** The file entries: file i under `video_i`. */
  function VideoEntries(files: seq<File>): FormData {
    seq(|files|, i requires 0 <= i < |files| => (VideoKey(i), FileValue(files[i])))
  }

  /** The FormData the form posts. */
  function Encoded(files: seq<File>, minJump: NumberText, maxJump: NumberText, maxCpuUsage: nat, numWorkers: nat): FormData {
    VideoEntries(files) + [
      ("fileCount", StringValue(Decimal(|files|))),
      ("minJumpDuration", StringValue(minJump)),
      ("maxJumpDuration", StringValue(maxJump)),
      ("maxCpuUsage", StringValue(Decimal(maxCpuUsage))),
      ("numWorkers", StringValue(Decimal(numWorkers)))]
  }

  /** The form's encoding loop and appends. */
  method EncodeForm(files: seq<File>, minJump: NumberText, maxJump: NumberText, maxCpuUsage: nat, numWorkers: nat)
    returns (formData: FormData)
    ensures formData == Encoded(files, minJump, maxJump, maxCpuUsage, numWorkers)
  {
    formData := [];
    var index := 0;
    while index < |files|
      invariant index <= |files|
      invariant |formData| == index
      invariant forall j :: 0 <= j < index ==> formData[j] == (VideoKey(j), FileValue(files[j]))
    {
      formData := formData + [(VideoKey(index), FileValue(files[index]))];
      index := index + 1;
    }
    assert formData == VideoEntries(files);
    formData := formData + [("fileCount", StringValue(Decimal(|files|)))];
    formData := formData + [("minJumpDuration", StringValue(minJump))];
    formData := formData + [("maxJumpDuration", StringValue(maxJump))];
    formData := formData + [("maxCpuUsage", StringValue(Decimal(maxCpuUsage)))];
    formData := formData + [("numWorkers", StringValue(Decimal(numWorkers)))];
  }

  lemma VideoKeyInjective(i: nat, j: nat)
    requires VideoKey(i) == VideoKey(j)
    ensures i == j
  {
    assert VideoKey(i)[6..] == Decimal(i);
    assert VideoKey(j)[6..] == Decimal(j);
    DecimalInjective(i, j);
  }

  /** Entry `k` of the encoding is the first under its key. */
  lemma EncodedFirstAt(files: seq<File>, minJump: NumberText, maxJump: NumberText, maxCpuUsage: nat, numWorkers: nat, k: nat)
    requires k < |files| + 5
    ensures FirstAt(Encoded(files, minJump, maxJump, maxCpuUsage, numWorkers), Encoded(files, minJump, maxJump, maxCpuUsage, numWorkers)[k].0, k)
  {
    var fd := Encoded(files, minJump, maxJump, maxCpuUsage, numWorkers);
    var n := |files|;
    forall j | 0 <= j < n
      ensures fd[j].0 == VideoKey(j) && fd[j].0[0] == 'v'
    {
      assert fd[j] == VideoEntries(files)[j];
    }
    forall j | 0 <= j < k
      ensures fd[j].0 != fd[k].0
    {
      if k < n {
        if fd[j].0 == fd[k].0 {
          VideoKeyInjective(j, k);
        }
      } else if j >= n {
        assert fd[n].0 == "fileCount" && fd[n + 1].0 == "minJumpDuration" && fd[n + 2].0 == "maxJumpDuration";
        assert fd[n + 3].0 == "maxCpuUsage" && fd[n + 4].0 == "numWorkers";
        assert "minJumpDuration"[1] != "maxJumpDuration"[1];
      } else {
        assert fd[k].0[0] != 'v';
      }
    }
  }

  /** The route reads the count the form wrote. */
  lemma EncodedCount(files: seq<File>, minJump: NumberText, maxJump: NumberText, maxCpuUsage: nat, numWorkers: nat)
    ensures FileCount(Encoded(files, minJump, maxJump, maxCpuUsage, numWorkers)) == Some(|files|)
  {
    var fd := Encoded(files, minJump, maxJump, maxCpuUsage, numWorkers);
    var n := |files|;
    EncodedFirstAt(files, minJump, maxJump, maxCpuUsage, numWorkers, n);
    assert fd[n] == ("fileCount", StringValue(Decimal(n)));
    ParseIntDecimal(n);
  }

  /** The route reads every file the form wrote, in order. */
  lemma EncodedFiles(files: seq<File>, minJump: NumberText, maxJump: NumberText, maxCpuUsage: nat, numWorkers: nat)
    ensures Collected(Encoded(files, minJump, maxJump, maxCpuUsage, numWorkers), |files|)
      == seq(|files|, i requires 0 <= i < |files| => FileValue(files[i]))
  {
    var fd := Encoded(files, minJump, maxJump, maxCpuUsage, numWorkers);
    var n := |files|;
    forall i | 0 <= i < n
      ensures VideoAt(fd, i) == Some(FileValue(files[i]))
    {
      EncodedFirstAt(files, minJump, maxJump, maxCpuUsage, numWorkers, i);
      assert fd[i] == VideoEntries(files)[i];
    }
    CollectedAll(fd, n, files);
  }

  /** The route reads the four parameters the form wrote. */
  lemma EncodedParams(files: seq<File>, minJump: NumberText, maxJump: NumberText, maxCpuUsage: nat, numWorkers: nat)
    ensures DecodeParams(Encoded(files, minJump, maxJump, maxCpuUsage, numWorkers))
      == Params(StringValue(minJump), StringValue(maxJump), StringValue(Decimal(maxCpuUsage)), StringValue(Decimal(numWorkers)))
  {
    var fd := Encoded(files, minJump, maxJump, maxCpuUsage, numWorkers);
    var n := |files|;
    EncodedFirstAt(files, minJump, maxJump, maxCpuUsage, numWorkers, n + 1);
    EncodedFirstAt(files, minJump, maxJump, maxCpuUsage, numWorkers, n + 2);
    EncodedFirstAt(files, minJump, maxJump, maxCpuUsage, numWorkers, n + 3);
    EncodedFirstAt(files, minJump, maxJump, maxCpuUsage, numWorkers, n + 4);
    assert fd[n + 1] == ("minJumpDuration", StringValue(minJump));
    assert fd[n + 2] == ("maxJumpDuration", StringValue(maxJump));
    assert fd[n + 3] == ("maxCpuUsage", StringValue(Decimal(maxCpuUsage)));
    assert fd[n + 4] == ("numWorkers", StringValue(Decimal(numWorkers)));
  }

  /** The route reads back what the form wrote: the count, every file in order, and the
      four parameters. */
  lemma EncodingRoundTrip(files: seq<File>, minJump: NumberText, maxJump: NumberText, maxCpuUsage: nat, numWorkers: nat)
    ensures var fd := Encoded(files, minJump, maxJump, maxCpuUsage, numWorkers);
      && FileCount(fd) == Some(|files|)
      && Collected(fd, LoopBound(FileCount(fd))) == seq(|files|, i requires 0 <= i < |files| => FileValue(files[i]))
      && DecodeParams(fd) == Params(StringValue(minJump), StringValue(maxJump),
                                    StringValue(Decimal(maxCpuUsage)), StringValue(Decimal(numWorkers)))
  {
    EncodedCount(files, minJump, maxJump, maxCpuUsage, numWorkers);
    EncodedFiles(files, minJump, maxJump, maxCpuUsage, numWorkers);
    EncodedParams(files, minJump, maxJump, maxCpuUsage, numWorkers);
  }

  /** The threshold the form warns at, in megabytes. */
  const MAX_DIRECT_UPLOAD_SIZE_MB: nat := 10

  predicate ShowsLargeFileNotice(files: seq<File>) {
    exists i :: 0 <= i < |files| && files[i].Size() > MAX_DIRECT_UPLOAD_SIZE_MB * 1024 * 1024
  }

  /** The large-file notice appears exactly when the route, reading the posted form, takes
      the chunked path. */
  lemma NoticeMatchesRoute(files: seq<File>, minJump: NumberText, maxJump: NumberText, maxCpuUsage: nat, numWorkers: nat)
    ensures var fd := Encoded(files, minJump, maxJump, maxCpuUsage, numWorkers);
      ShowsLargeFileNotice(files) <==> ShouldUseChunkedUpload(Collected(fd, LoopBound(FileCount(fd))))
  {
    EncodingRoundTrip(files, minJump, maxJump, maxCpuUsage, numWorkers);
    var decoded := seq(|files|, i requires 0 <= i < |files| => FileValue(files[i]));
    assert forall i :: 0 <= i < |files| ==> (IsLarge(decoded[i]) <==> files[i].Size() > MAX_DIRECT_UPLOAD_SIZE_MB * 1024 * 1024);
  }

  // ---------------------------------------------------------------------------
  // The form's state and handlers

  class Form {
    var isSubmitting: bool
    var selectedFiles: seq<File>
    var folderName: string
    var uploadMode: UploadMode
    /** The two ends of the jump-duration slider, as Number.toString renders them. */
    var minJumpDuration: NumberText
    var maxJumpDuration: NumberText
    var maxCpuUsage: nat
    var numWorkers: nat
    var dragActive: bool

    constructor ()
      ensures !isSubmitting && selectedFiles == [] && folderName == "" && uploadMode == Single
      ensures minJumpDuration == "0.8" && maxJumpDuration == "4"
      ensures maxCpuUsage == 10 && numWorkers == 6 && !dragActive
    {
      isSubmitting := false;
      selectedFiles := [];
      folderName := "";
      uploadMode := Single;
      minJumpDuration := "0.8";
      maxJumpDuration := "4";
      maxCpuUsage := 10;
      numWorkers := 6;
      dragActive := false;
    }

    /** The file input's change handler; `files` is None when the input has no FileList. */
    method HandleFileChange(files: Option<seq<File>>)
      modifies this`selectedFiles, this`folderName
      ensures files.None? || files.value == [] ==>
        selectedFiles == old(selectedFiles) && folderName == old(folderName)
      ensures files.Some? && files.value != [] ==>
        selectedFiles == VideoFiles(files.value)
        && folderName == NextFolderName(uploadMode, VideoFiles(files.value), old(folderName))
    {
      if files.Some? && |files.value| > 0 {
        var filesArray := VideoFiles(files.value);
        selectedFiles := filesArray;
        if uploadMode == Folder && |filesArray| > 0 && filesArray[0].relativePath != "" {
          var pathParts := Split(filesArray[0].relativePath, '/');
          if |pathParts| > 1 {
            folderName := pathParts[0];
          }
        } else {
          folderName := "";
        }
      }
    }

    /** The drag handler of the drop zone. */
    method HandleDrag(eventType: string)
      modifies this`dragActive
      ensures eventType == "dragenter" || eventType == "dragover" ==> dragActive
      ensures eventType == "dragleave" ==> !dragActive
      ensures eventType != "dragenter" && eventType != "dragover" && eventType != "dragleave" ==>
        dragActive == old(dragActive)
    {
      if eventType == "dragenter" || eventType == "dragover" {
        dragActive := true;
      } else if eventType == "dragleave" {
        dragActive := false;
      }
    }

    /** The drop handler: the highlight always ends; a non-empty drop replaces the
        selection with its video files and clears the folder name. */
    method HandleDrop(files: Option<seq<File>>)
      modifies this`dragActive, this`selectedFiles, this`folderName
      ensures !dragActive
      ensures files.None? || files.value == [] ==>
        selectedFiles == old(selectedFiles) && folderName == old(folderName)
      ensures files.Some? && files.value != [] ==> selectedFiles == VideoFiles(files.value) && folderName == ""
    {
      dragActive := false;
      if files.Some? && |files.value| > 0 {
        var filesArray := VideoFiles(files.value);
        selectedFiles := filesArray;
        folderName := "";
      }
    }

    method ClearSelection()
      modifies this`selectedFiles, this`folderName
      ensures selectedFiles == [] && folderName == ""
    {
      selectedFiles := [];
      folderName := "";
    }

    /** The mode tabs. */
    method SetUploadMode(mode: UploadMode)
      modifies this`uploadMode
      ensures uploadMode == mode
    {
      uploadMode := mode;
    }

    /** The submit handler up to the request: nothing is sent without files; otherwise the
        request is the encoded form, the large-file notice is shown when a file is over the
        limit, and the form is no longer submitting once the request has settled. */
    method HandleSubmit() returns (request: Option<FormData>, largeFileNotice: bool)
      modifies this`isSubmitting
      ensures selectedFiles == [] ==> request.None? && !largeFileNotice && isSubmitting == old(isSubmitting)
      ensures selectedFiles != [] ==>
        request == Some(Encoded(selectedFiles, minJumpDuration, maxJumpDuration, maxCpuUsage, numWorkers))
        && largeFileNotice == ShowsLargeFileNotice(selectedFiles)
        && !isSubmitting
    {
      if |selectedFiles| == 0 {
        return None, false;
      }
      isSubmitting := true;
      var formData := EncodeForm(selectedFiles, minJumpDuration, maxJumpDuration, maxCpuUsage, numWorkers);
      largeFileNotice := ShowsLargeFileNotice(selectedFiles);
      request := Some(formData);
      isSubmitting := false;
    }
  }
}
