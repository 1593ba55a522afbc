// The file-upload endpoint: which uploads count as supported for file
// search, how the per-file results are collected, and which vector-store
// calls follow.

module Uploads {
  import opened Wrappers
  import opened PyValues

  /** The extensions accepted for file search, with their MIME types
    * (`.py` is the one extension with two). */
  const SupportedFileTypes: map<string, seq<string>> := map[
    ".c" := ["text/x-c"],
    ".cpp" := ["text/x-c++"],
    ".css" := ["text/css"],
    ".docx" := ["application/vnd.openxmlformats-officedocument.wordprocessingml.document"],
    ".go" := ["text/x-golang"],
    ".html" := ["text/html"],
    ".java" := ["text/x-java"],
    ".js" := ["text/javascript"],
    ".json" := ["application/json"],
    ".md" := ["text/markdown"],
    ".pdf" := ["application/pdf"],
    ".php" := ["text/x-php"],
    ".pptx" := ["application/vnd.openxmlformats-officedocument.presentationml.presentation"],
    ".py" := ["text/x-python", "text/x-script.python"],
    ".rb" := ["text/x-ruby"],
    ".tex" := ["text/x-tex"],
    ".ts" := ["application/typescript"],
    ".txt" := ["text/plain"]
  ]

  /** Every key is a dot followed by at least one character, with no
    * further dot and no upper-case letter. */
  predicate WellFormedExtension(ext: string) {
    |ext| >= 2 && ext[0] == '.' && forall i :: 1 <= i < |ext| ==> ext[i] != '.' && !('A' <= ext[i] <= 'Z')
  }

  lemma TableWellFormed()
    ensures forall ext :: ext in SupportedFileTypes ==> WellFormedExtension(ext)
  {
  }

  /** `file_name[file_name.rfind("."):].lower()`. Without a dot `rfind`
    * gives -1, so the slice is the last character. */
  function Extension(name: string): (r: string)
    ensures |r| <= |name|
  {
    Lower(SliceFrom(name, RFind(name, '.')))
  }

  predicate IsSupportedFile(name: string) {
    Extension(name) in SupportedFileTypes
  }

  /** A name with no dot is never supported: the slice from index -1 is at
    * most one character, shorter than any key. */
  lemma NoDotUnsupported(name: string)
    requires forall i :: 0 <= i < |name| ==> name[i] != '.'
    ensures !IsSupportedFile(name)
  {
    TableWellFormed();
    assert RFind(name, '.') == -1;
    assert |SliceFrom(name, -1)| <= 1;
  }

  lemma RFindAppend(stem: string, ext: string)
    requires |ext| >= 1 && ext[0] == '.'
    requires forall i :: 1 <= i < |ext| ==> ext[i] != '.'
    ensures RFind(stem + ext, '.') == |stem|
  {
    var s := stem + ext;
    var r := RFind(s, '.');
    assert s[|stem|] == '.';
  }

  lemma LowerIdempotent(s: string)
    ensures Lower(Lower(s)) == Lower(s)
  {
  }

  lemma LowerOfLower(ext: string)
    requires forall i :: 0 <= i < |ext| ==> !('A' <= ext[i] <= 'Z')
    ensures Lower(ext) == ext
  {
  }

  /** Any stem followed by a key of the table is supported: only the text
    * after the last dot decides. */
  lemma SupportedSuffix(stem: string, ext: string)
    requires ext in SupportedFileTypes
    ensures IsSupportedFile(stem + ext)
  {
    TableWellFormed();
    RFindAppend(stem, ext);
    var s := stem + ext;
    assert SliceFrom(s, |stem|) == ext;
    LowerOfLower(ext);
  }

  lemma LowerRFind(s: string)
    ensures RFind(Lower(s), '.') == RFind(s, '.')
  {
    assert forall i :: 0 <= i < |s| ==> (Lower(s)[i] == '.' <==> s[i] == '.');
  }

  lemma LowerSliceFrom(s: string, i: int)
    ensures SliceFrom(Lower(s), i) == Lower(SliceFrom(s, i))
  {
    var start := if i < 0 then (if |s| + i < 0 then 0 else |s| + i) else (if i > |s| then |s| else i);
    assert SliceFrom(s, i) == s[start..];
    assert SliceFrom(Lower(s), i) == Lower(s)[start..];
  }

  /** The check ignores letter case: `REPORT.PDF` and `report.pdf` agree. */
  lemma SupportIgnoresCase(name: string)
    ensures IsSupportedFile(Lower(name)) <==> IsSupportedFile(name)
  {
    LowerRFind(name);
    var r := RFind(name, '.');
    LowerSliceFrom(name, r);
    LowerIdempotent(SliceFrom(name, r));
  }

  // ---------------------------------------------------------------------
  // The upload loop
  // ---------------------------------------------------------------------

  /** The parsed JSON of the created file object; `id` is its `id` field. */
  datatype FileInfo = FileInfo(id: string, fields: seq<Entry>)

  /** What the file-creation call does for one upload. */
  datatype UploadOutcome = Created(info: FileInfo) | Raised(message: string)

  datatype Upload = Upload(name: string, outcome: UploadOutcome)

  datatype FailedFile = FailedFile(filename: string, error: string)

  function Last(files: seq<Upload>): Upload
    requires files != []
  {
    files[|files| - 1]
  }

  /** The created uploads whose name satisfies `keep`, in upload order. */
  function CreatedWhere(files: seq<Upload>, keep: string -> bool): (r: seq<FileInfo>)
    ensures |r| <= |files|
  {
    if files == [] then []
    else CreatedWhere(files[..|files| - 1], keep)
         + (if Last(files).outcome.Created? && keep(Last(files).name) then [Last(files).outcome.info] else [])
  }

  predicate AnyName(name: string) {
    true
  }

  /** The `uploaded_files` list. */
  function UploadedOf(files: seq<Upload>): seq<FileInfo> {
    CreatedWhere(files, AnyName)
  }

  /** The `supported_files` list. */
  function SupportedOf(files: seq<Upload>): seq<FileInfo> {
    CreatedWhere(files, IsSupportedFile)
  }

  /** The `failed_files` list. */
  function FailedOf(files: seq<Upload>): (r: seq<FailedFile>)
    ensures |r| <= |files|
  {
    if files == [] then []
    else FailedOf(files[..|files| - 1])
         + (if Last(files).outcome.Raised? then [FailedFile(Last(files).name, Last(files).outcome.message)] else [])
  }

  /** `upload` failed and is reported with its name and message. */
  predicate ReportedAs(upload: Upload, x: FailedFile) {
    upload.outcome.Raised? && x == FailedFile(upload.name, upload.outcome.message)
  }

  /** Each upload is either created or reported as failed, never both and
    * never neither: `failed_files` holds one `{filename, error}` entry for
    * exactly the uploads whose creation raised. */
  lemma {:induction false} UploadsPartitioned(files: seq<Upload>)
    ensures |UploadedOf(files)| + |FailedOf(files)| == |files|
    ensures forall x :: x in FailedOf(files) <==> exists i :: 0 <= i < |files| && ReportedAs(files[i], x)
  {
    if files != [] {
      var init := files[..|files| - 1];
      UploadsPartitioned(init);
      forall x ensures x in FailedOf(files) <==> exists i :: 0 <= i < |files| && ReportedAs(files[i], x) {
        if x in FailedOf(files) && x !in FailedOf(init) {
          assert ReportedAs(files[|files| - 1], x);
        }
        if exists i :: 0 <= i < |files| && ReportedAs(files[i], x) {
          var i :| 0 <= i < |files| && ReportedAs(files[i], x);
          if i < |init| {
            assert ReportedAs(init[i], x);
          }
        }
        if x in FailedOf(init) {
          var i :| 0 <= i < |init| && ReportedAs(init[i], x);
          assert ReportedAs(files[i], x);
        }
      }
    }
  }

  /** Every file kept is a created upload whose name satisfies `keep`. */
  lemma {:induction false} CreatedWhereSound(files: seq<Upload>, keep: string -> bool)
    ensures forall x :: x in CreatedWhere(files, keep) ==>
      exists i :: 0 <= i < |files| && files[i].outcome == Created(x) && keep(files[i].name)
  {
    if files != [] {
      var init := files[..|files| - 1];
      CreatedWhereSound(init, keep);
      forall x | x in CreatedWhere(files, keep)
        ensures exists i :: 0 <= i < |files| && files[i].outcome == Created(x) && keep(files[i].name)
      {
        if x in CreatedWhere(init, keep) {
          var i :| 0 <= i < |init| && init[i].outcome == Created(x) && keep(init[i].name);
          assert files[i] == init[i];
        } else {
          assert files[|files| - 1].outcome == Created(x);
        }
      }
    }
  }

  /** Every created upload whose name satisfies `keep` is kept. */
  lemma {:induction false} CreatedWhereComplete(files: seq<Upload>, keep: string -> bool)
    ensures forall i :: 0 <= i < |files| && files[i].outcome.Created? && keep(files[i].name) ==>
      files[i].outcome.info in CreatedWhere(files, keep)
  {
    if files != [] {
      var init := files[..|files| - 1];
      CreatedWhereComplete(init, keep);
      forall i | 0 <= i < |files| && files[i].outcome.Created? && keep(files[i].name)
        ensures files[i].outcome.info in CreatedWhere(files, keep)
      {
        if i < |init| {
          assert files[i] == init[i];
        }
      }
    }
  }

  /** Keeping fewer names keeps a sub-list. */
  lemma {:induction false} CreatedWhereNarrower(files: seq<Upload>, keep: string -> bool, wider: string -> bool)
    requires forall n :: keep(n) ==> wider(n)
    ensures |CreatedWhere(files, keep)| <= |CreatedWhere(files, wider)|
    ensures forall x :: x in CreatedWhere(files, keep) ==> x in CreatedWhere(files, wider)
  {
    if files != [] {
      CreatedWhereNarrower(files[..|files| - 1], keep, wider);
    }
  }

  /** The supported files are exactly the created uploads whose name passes
    * `is_supported_file`, and a sub-list of the uploaded ones. */
  lemma SupportedFilesExactly(files: seq<Upload>)
    ensures forall x :: x in SupportedOf(files) ==>
      exists i :: 0 <= i < |files| && files[i].outcome == Created(x) && IsSupportedFile(files[i].name)
    ensures forall i :: 0 <= i < |files| && files[i].outcome.Created? && IsSupportedFile(files[i].name) ==>
      files[i].outcome.info in SupportedOf(files)
    ensures |SupportedOf(files)| <= |UploadedOf(files)|
  {
    CreatedWhereSound(files, IsSupportedFile);
    CreatedWhereComplete(files, IsSupportedFile);
    CreatedWhereNarrower(files, IsSupportedFile, AnyName);
  }

  /** The upload loop of the endpoint: one file-creation call per upload,
    * a failure recorded with the file's name and message, and a created
    * file listed as supported when its name passes the check. */
  method UploadAll(files: seq<Upload>) returns (uploaded: seq<FileInfo>, failed: seq<FailedFile>, supported: seq<FileInfo>)
    ensures uploaded == UploadedOf(files)
    ensures failed == FailedOf(files)
    ensures supported == SupportedOf(files)
  {
    uploaded, failed, supported := [], [], [];
    var i := 0;
    while i < |files|
      invariant 0 <= i <= |files|
      invariant uploaded == UploadedOf(files[..i])
      invariant failed == FailedOf(files[..i])
      invariant supported == SupportedOf(files[..i])
    {
      var f := files[i];
      assert files[..i + 1][..i] == files[..i];
      assert Last(files[..i + 1]) == f;
      match f.outcome {
        case Created(info) =>
          uploaded := uploaded + [info];
          if IsSupportedFile(f.name) {
            supported := supported + [info];
          }
        case Raised(message) =>
          failed := failed + [FailedFile(f.name, message)];
      }
      i := i + 1;
    }
    assert files[..i] == files;
  }

  // ---------------------------------------------------------------------
  // Vector-store assignment
  // ---------------------------------------------------------------------

  datatype StoreCall =
    | BatchCall(storeId: string, fileIds: seq<string>)
    | SingleCall(storeId: string, fileId: string)

  function Ids(infos: seq<FileInfo>): (r: seq<string>)
    ensures |r| == |infos|
    ensures forall i :: 0 <= i < |infos| ==> r[i] == infos[i].id
  {
    if infos == [] then [] else [infos[0].id] + Ids(infos[1..])
  }

  /** For each selected store, in order: one batch call with every supported
    * file id when there are several, one single-file call when there is
    * exactly one, and nothing when there is none. A missing list of store
    * ids is read as the empty list. */
  method AssignToStores(supported: seq<FileInfo>, vectorStoreIds: Option<seq<string>>)
    returns (storeIds: seq<string>, calls: seq<StoreCall>)
    ensures storeIds == vectorStoreIds.GetOr([])
    ensures supported == [] ==> calls == []
    ensures supported != [] ==> |calls| == |storeIds|
    ensures |supported| > 1 ==> forall i :: 0 <= i < |calls| ==> calls[i] == BatchCall(storeIds[i], Ids(supported))
    ensures |supported| == 1 ==> forall i :: 0 <= i < |calls| ==> calls[i] == SingleCall(storeIds[i], supported[0].id)
  {
    storeIds := if vectorStoreIds.Some? then vectorStoreIds.value else [];
    calls := [];
    var i := 0;
    while i < |storeIds|
      invariant 0 <= i <= |storeIds|
      invariant supported == [] ==> calls == []
      invariant supported != [] ==> |calls| == i
      invariant |supported| > 1 ==> forall j :: 0 <= j < |calls| ==> calls[j] == BatchCall(storeIds[j], Ids(supported))
      invariant |supported| == 1 ==> forall j :: 0 <= j < |calls| ==> calls[j] == SingleCall(storeIds[j], supported[0].id)
    {
      if |supported| > 1 {
        calls := calls + [BatchCall(storeIds[i], Ids(supported))];
      } else if |supported| == 1 {
        calls := calls + [SingleCall(storeIds[i], supported[0].id)];
      }
      i := i + 1;
    }
  }

  /** The endpoint's JSON answer. */
  datatype UploadResponse = UploadResponse(
    uploadedFiles: seq<FileInfo>, failedFiles: seq<FailedFile>,
    supportedFiles: seq<FileInfo>, vectorStoreIds: seq<string>)

  /** The whole endpoint: the upload loop, then the store assignment. */
  method UploadFiles(files: seq<Upload>, vectorStoreIds: Option<seq<string>>)
    returns (response: UploadResponse, calls: seq<StoreCall>)
    ensures response == UploadResponse(UploadedOf(files), FailedOf(files), SupportedOf(files), vectorStoreIds.GetOr([]))
    ensures SupportedOf(files) == [] ==> calls == []
    ensures SupportedOf(files) != [] ==> |calls| == |response.vectorStoreIds|
    ensures |SupportedOf(files)| > 1 ==> forall i :: 0 <= i < |calls| ==>
      calls[i] == BatchCall(response.vectorStoreIds[i], Ids(SupportedOf(files)))
    ensures |SupportedOf(files)| == 1 ==> forall i :: 0 <= i < |calls| ==>
      calls[i] == SingleCall(response.vectorStoreIds[i], SupportedOf(files)[0].id)
  {
    var uploaded, failed, supported := UploadAll(files);
    var storeIds;
    storeIds, calls := AssignToStores(supported, vectorStoreIds);
    response := UploadResponse(uploaded, failed, supported, storeIds);
  }
}
