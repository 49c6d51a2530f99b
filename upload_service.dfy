/**
 * The path construction and the success/failure bookkeeping of
 * src/features/upload/upload.service.ts. The clock, the random suffix, the
 * storage URL from the environment and the storage calls' answers are inputs.
 */
module UploadService {
  import opened Wrappers
  import opened JsText

  const UnknownUploadError := "Unknown upload error"
  const InternalUploadFailure := "Internal upload failure"

  /** `original.replace(/\s+/g, "_")`: every run of whitespace becomes one underscore. */
  function CleanName(s: string): (r: string)
    ensures NoWhitespace(r)
    ensures |r| <= |s|
    decreases |s|
  {
    if s == [] then []
    else if IsWhitespace(s[0]) then
      assert |TrimStart(s)| < |s| by { assert TrimStart(s) == TrimStart(s[1..]); }
      "_" + CleanName(TrimStart(s))
    else [s[0]] + CleanName(s[1..])
  }

  /** A name without whitespace is left as it is. */
  lemma {:induction false} CleanNameOfClean(s: string)
    requires NoWhitespace(s)
    ensures CleanName(s) == s
  {
    if s != [] {
      CleanNameOfClean(s[1..]);
    }
  }

  /** Cleaning twice is cleaning once. */
  lemma CleanNameIdempotent(s: string)
    ensures CleanName(CleanName(s)) == CleanName(s)
  {
    CleanNameOfClean(CleanName(s));
  }

  /** Non-whitespace characters are copied through, and a run of whitespace of any length gives a single '_'. */
  lemma CleanNameOfRun(a: string, run: string, b: string)
    requires NoWhitespace(a) && run != [] && !NoWhitespace(run) && forall i :: 0 <= i < |run| ==> IsWhitespace(run[i])
    requires b == [] || !IsWhitespace(b[0])
    ensures CleanName(a + run + b) == a + "_" + CleanName(b)
  {
    CleanNameAfterClean(a, run + b);
    assert a + run + b == a + (run + b);
    RunThenRest(run, b);
  }

  lemma {:induction false} CleanNameAfterClean(a: string, rest: string)
    requires NoWhitespace(a)
    ensures CleanName(a + rest) == a + CleanName(rest)
  {
    if a != [] {
      assert (a + rest)[0] == a[0];
      assert (a + rest)[1..] == a[1..] + rest;
      CleanNameAfterClean(a[1..], rest);
    } else {
      assert a + rest == rest;
    }
  }

  lemma {:induction false} TrimStartOfRun(run: string, b: string)
    requires forall i :: 0 <= i < |run| ==> IsWhitespace(run[i])
    requires b == [] || !IsWhitespace(b[0])
    ensures TrimStart(run + b) == b
  {
    if run == [] {
      assert run + b == b;
    } else {
      assert (run + b)[1..] == run[1..] + b;
      TrimStartOfRun(run[1..], b);
    }
  }

  lemma RunThenRest(run: string, b: string)
    requires run != [] && forall i :: 0 <= i < |run| ==> IsWhitespace(run[i])
    requires b == [] || !IsWhitespace(b[0])
    ensures CleanName(run + b) == "_" + CleanName(b)
  {
    assert (run + b)[0] == run[0];
    TrimStartOfRun(run, b);
  }

  /** `${timestamp}-${random}-${cleanName}`; the timestamp and the random part are inputs. */
  function GenerateUniqueName(timestamp: string, random: string, original: string): (r: string)
    ensures |r| >= |CleanName(original)|
    ensures r[|r| - |CleanName(original)|..] == CleanName(original)
    ensures NoWhitespace(timestamp) && NoWhitespace(random) ==> NoWhitespace(r)
  {
    timestamp + "-" + random + "-" + CleanName(original)
  }

  /** `${NEXT_PUBLIC_SUPABASE_URL}/storage/v1/object/public/${bucket}/${filePath}` */
  function BuildPublicUrl(baseUrl: string, bucket: string, filePath: string): (r: string)
    ensures |r| > |filePath| && r[|r| - |filePath| - 1..] == "/" + filePath
  {
    baseUrl + "/storage/v1/object/public/" + bucket + "/" + filePath
  }

  /** `folder ? `${folder}/${fileName}` : fileName` */
  function FullPath(folder: string, fileName: string): (r: string)
    ensures |r| >= |fileName| && r[|r| - |fileName|..] == fileName
    ensures folder == "" <==> r == fileName
  {
    if folder != "" then folder + "/" + fileName else fileName
  }

  /** `UploadConfig`; `folder` defaults to "" and `makePublicUrl` to true. */
  datatype UploadConfig = UploadConfig(bucket: string, folder: Option<string>, makePublicUrl: Option<bool>)

  datatype UploadResult = UploadResult(path: string, url: string, fileName: string)

  datatype UploadError = UploadError(fileName: string, error: string)

  /** A file to upload and what the environment supplies for it: the clock, the random suffix and the storage's answer. */
  datatype FileAttempt = FileAttempt(name: string, timestamp: string, random: string, baseUrl: string, answer: StorageAnswer)

  /** The storage's answer to one upload: stored, an error, or an exception. */
  datatype StorageAnswer = Stored | StoreError | StoreThrew

  /** An awaited call either returns or throws. */
  datatype Attempt<T> = Returned(value: T) | Threw

  /** The record `uploadSingleFile` returns once the storage has accepted the file. */
  function StoredResult(file: FileAttempt, config: UploadConfig): UploadResult {
    var fileName := GenerateUniqueName(file.timestamp, file.random, file.name);
    var fullPath := FullPath(config.folder.GetOr(""), fileName);
    var url := if config.makePublicUrl.GetOr(true) then BuildPublicUrl(file.baseUrl, config.bucket, fullPath) else "";
    UploadResult(fullPath, url, fileName)
  }

  /**
   * The stored record: the generated name, the path under the folder (default ""),
   * and a public URL unless `makePublicUrl` (default true) is false.
   */
  lemma StoredResultShape(file: FileAttempt, config: UploadConfig)
    ensures var res := StoredResult(file, config);
      && res.fileName == GenerateUniqueName(file.timestamp, file.random, file.name)
      && res.path[|res.path| - |res.fileName|..] == res.fileName
      && (config.folder.GetOr("") == "" <==> res.path == res.fileName)
      && (res.url == "" <==> !config.makePublicUrl.GetOr(true))
      && (res.url != "" ==> res.url == BuildPublicUrl(file.baseUrl, config.bucket, res.path))
  {
  }

  /** `uploadSingleFile`: null when storage reports an error, otherwise the stored record. */
  function UploadSingleFile(file: FileAttempt, config: UploadConfig): (r: Attempt<Option<UploadResult>>)
    ensures r.Threw? <==> file.answer.StoreThrew?
    ensures r == Returned(None) <==> file.answer.StoreError?
    ensures file.answer.Stored? ==> r == Returned(Some(StoredResult(file, config)))
  {
    match file.answer
    case StoreThrew => Threw
    case StoreError => Returned(None)
    case Stored => Returned(Some(StoredResult(file, config)))
  }

  /** The results of the successful uploads among the first n files, in order. */
  function Uploaded(files: seq<FileAttempt>, config: UploadConfig, n: nat): seq<UploadResult>
    requires n <= |files|
  {
    if n == 0 then []
    else
      Uploaded(files, config, n - 1)
      + (if files[n - 1].answer.Stored? then [StoredResult(files[n - 1], config)] else [])
  }

  /** The failure records of the first n files, in order. */
  function FailedUploads(files: seq<FileAttempt>, config: UploadConfig, n: nat): seq<UploadError>
    requires n <= |files|
  {
    if n == 0 then []
    else
      FailedUploads(files, config, n - 1)
      + match files[n - 1].answer
        case StoreThrew => [UploadError(files[n - 1].name, InternalUploadFailure)]
        case StoreError => [UploadError(files[n - 1].name, UnknownUploadError)]
        case Stored => []
  }

  /** `uploadMultipleFiles` */
  method UploadMultipleFiles(files: seq<FileAttempt>, config: UploadConfig)
    returns (success: seq<UploadResult>, failed: seq<UploadError>)
    ensures success == Uploaded(files, config, |files|)
    ensures failed == FailedUploads(files, config, |files|)
  {
    success, failed := [], [];
    var i := 0;
    while i < |files|
      invariant 0 <= i <= |files|
      invariant success == Uploaded(files, config, i)
      invariant failed == FailedUploads(files, config, i)
    {
      var uploaded := UploadSingleFile(files[i], config);
      match uploaded {
        case Threw =>
          failed := failed + [UploadError(files[i].name, InternalUploadFailure)];
        case Returned(Some(res)) =>
          success := success + [res];
        case Returned(None) =>
          failed := failed + [UploadError(files[i].name, UnknownUploadError)];
      }
      i := i + 1;
    }
  }

  /** Every file lands in exactly one of the two lists. */
  lemma {:induction false} UploadPartition(files: seq<FileAttempt>, config: UploadConfig, n: nat)
    requires n <= |files|
    ensures |Uploaded(files, config, n)| + |FailedUploads(files, config, n)| == n
  {
    if n > 0 {
      UploadPartition(files, config, n - 1);
    }
  }

  /** A failure names the file it came from and says whether the upload returned null or threw. */
  lemma {:induction false} FailureRecords(files: seq<FileAttempt>, config: UploadConfig, n: nat)
    requires n <= |files|
    ensures forall e :: e in FailedUploads(files, config, n) ==>
      && (exists i :: 0 <= i < n && files[i].name == e.fileName && !files[i].answer.Stored?)
      && (e.error == UnknownUploadError || e.error == InternalUploadFailure)
  {
    if n > 0 {
      FailureRecords(files, config, n - 1);
      forall e | e in FailedUploads(files, config, n)
        ensures && (exists i :: 0 <= i < n && files[i].name == e.fileName && !files[i].answer.Stored?)
                && (e.error == UnknownUploadError || e.error == InternalUploadFailure)
      {
        if e !in FailedUploads(files, config, n - 1) {
          assert files[n - 1].name == e.fileName;
        }
      }
    }
  }

  /** The paths among the first n whose removal the storage confirmed (`keep`) or refused (`!keep`). */
  function PathsWhere(paths: seq<string>, ok: seq<bool>, keep: bool, n: nat): seq<string>
    requires |ok| == |paths| && n <= |paths|
  {
    if n == 0 then []
    else PathsWhere(paths, ok, keep, n - 1) + (if ok[n - 1] == keep then [paths[n - 1]] else [])
  }

  /** `deleteFiles`: `ok[i]` is what `deleteFile` answered for `paths[i]`. */
  method DeleteFiles(bucket: string, paths: seq<string>, ok: seq<bool>)
    returns (deleted: seq<string>, failed: seq<string>)
    requires |ok| == |paths|
    ensures deleted == PathsWhere(paths, ok, true, |paths|)
    ensures failed == PathsWhere(paths, ok, false, |paths|)
  {
    deleted, failed := [], [];
    var i := 0;
    while i < |paths|
      invariant 0 <= i <= |paths|
      invariant deleted == PathsWhere(paths, ok, true, i)
      invariant failed == PathsWhere(paths, ok, false, i)
    {
      if ok[i] {
        deleted := deleted + [paths[i]];
      } else {
        failed := failed + [paths[i]];
      }
      i := i + 1;
    }
  }

  /** Every path is either deleted or failed: together the two lists are the input, as a multiset. */
  lemma {:induction false} DeletePartition(paths: seq<string>, ok: seq<bool>, n: nat)
    requires |ok| == |paths| && n <= |paths|
    ensures multiset(PathsWhere(paths, ok, true, n)) + multiset(PathsWhere(paths, ok, false, n)) == multiset(paths[..n])
  {
    if n > 0 {
      DeletePartition(paths, ok, n - 1);
      assert paths[..n] == paths[..n - 1] + [paths[n - 1]];
    }
  }

  /** When the storage confirms every removal, nothing fails and the deleted list is the input. */
  lemma {:induction false} AllDeleted(paths: seq<string>, ok: seq<bool>, n: nat)
    requires |ok| == |paths| && n <= |paths|
    requires forall i :: 0 <= i < |ok| ==> ok[i]
    ensures PathsWhere(paths, ok, true, n) == paths[..n] && PathsWhere(paths, ok, false, n) == []
  {
    if n > 0 {
      AllDeleted(paths, ok, n - 1);
      assert paths[..n] == paths[..n - 1] + [paths[n - 1]];
    }
  }
}
