/** The artifact synchroniser (FilesProcessor): replace a project's bucket
    and its metadata rows by the freshly generated documents. Every step
    stops the run on its first failure, and nothing is rolled back. */
module Sync {
  import opened Wrappers
  import opened ErrorRecord
  import opened ObjectStore
  import opened MetadataStore
  import Text
  import Paths

  /** The heading each generated document is trimmed to. */
  const Marker := "# File Overview"

  /** One entry of the documents dictionary: the source path and its
      generated documentation, in enumeration order. */
  datatype Entry = Entry(key: string, documentation: string)

  /** The artifact name for a source path: its file name with every `.cs`
      replaced by `.md`. */
  function ArtifactName(key: string): string
  {
    Text.ReplaceAll(Paths.FileName(key), ".cs", ".md")
  }

  function EntryName(e: Entry): string
  {
    ArtifactName(e.key)
  }

  /** A document from the first occurrence of the marker on, or the whole
      document when the marker does not occur. */
  function Trim(doc: string): string
  {
    if Text.Contains(doc, Marker) then doc[Text.IndexOf(doc, Marker)..] else doc
  }

  /** The row recorded for entry number `k` once its artifact is uploaded;
      `ids` and `dates` stand for the Guid and the clock at that point. */
  function RowFor(ids: nat -> string, dates: nat -> int, k: nat, bucket: string, e: Entry): FileData
  {
    FileData(ids(k), Text.Utf8Length(Trim(e.documentation)), "text/markdown", ArtifactName(e.key), bucket, dates(k))
  }

  /** Both stores at one point of the run. */
  datatype Stores = Stores(objects: ObjectStore.State, rows: seq<FileData>)

  /** The per-entry loop from entry `k` on: upload the trimmed document,
      then record its row; the first failure ends the run. */
  function UploadAll(mf: ObjectStore.Faults, rf: MetadataStore.Faults, bucket: string, entries: seq<Entry>,
                     ids: nat -> string, dates: nat -> int, k: nat, st: Stores): (Outcome<Error>, Stores)
    requires k <= |entries|
    decreases |entries| - k
  {
    if k == |entries| then (Pass, st)
    else
      var e := entries[k];
      var (u, objects) := UploadOf(mf, st.objects, UploadFileData(Trim(e.documentation), bucket, ArtifactName(e.key)));
      if u.Err? then (Fail(u.error), Stores(objects, st.rows))
      else
        var (a, rows) := AddRangeOf(rf, st.rows, [RowFor(ids, dates, k, bucket, e)]);
        if a.Fail? then (a, Stores(objects, rows))
        else UploadAll(mf, rf, bucket, entries, ids, dates, k + 1, Stores(objects, rows))
  }

  /** `UploadFiles`: look up the bucket's recorded names, remove the bucket
      with those objects, delete its rows, then upload every entry. */
  function SyncOf(mf: ObjectStore.Faults, rf: MetadataStore.Faults, st: Stores, entries: seq<Entry>,
                  projectName: string, ids: nat -> string, dates: nat -> int): (Outcome<Error>, Stores)
  {
    var bucket := Paths.FileName(projectName);
    var names := NamesQueryOf(rf, st.rows, bucket);
    if names.Err? then (Fail(names.error), st)
    else
      var (removed, objects) := RemoveOf(mf, st.objects, bucket, names.value);
      if removed.Fail? then (removed, Stores(objects, st.rows))
      else
        var (deleted, rows) := DeleteOf(rf, st.rows, bucket);
        if deleted.Fail? then (deleted, Stores(objects, rows))
        else UploadAll(mf, rf, bucket, entries, ids, dates, 0, Stores(objects, rows))
  }

  class FilesProcessor {
    const fileProvider: MinioProvider
    const filesRepository: FilesRepository

    constructor(fileProvider: MinioProvider, filesRepository: FilesRepository)
      ensures this.fileProvider == fileProvider && this.filesRepository == filesRepository
    {
      this.fileProvider := fileProvider;
      this.filesRepository := filesRepository;
    }

    /** The contents of both stores. */
    function Snapshot(): Stores
      reads fileProvider, filesRepository
    {
      Stores(State(fileProvider.buckets, fileProvider.calls), filesRepository.rows)
    }

    method UploadFiles(filesDocumentation: seq<Entry>, projectName: string, ids: nat -> string, dates: nat -> int)
      returns (r: Outcome<Error>)
      modifies fileProvider, filesRepository
      ensures (r, Snapshot()) == SyncOf(fileProvider.fault, filesRepository.fault, old(Snapshot()),
                                        filesDocumentation, projectName, ids, dates)
    {
      var bucketName := Paths.FileName(projectName);
      var filesToDelete := filesRepository.GetFileNamesByBucket(bucketName);
      if filesToDelete.Err? {
        return Fail(filesToDelete.error);
      }
      var removeBucketResult := fileProvider.RemoveBucketIfExists(bucketName, filesToDelete.value);
      if removeBucketResult.Fail? {
        return removeBucketResult;
      }
      var deleteFilesResult := filesRepository.DeleteByBucket(bucketName);
      if deleteFilesResult.Fail? {
        return deleteFilesResult;
      }
      ghost var total := UploadAll(fileProvider.fault, filesRepository.fault, bucketName, filesDocumentation,
                                   ids, dates, 0, Snapshot());
      for i := 0 to |filesDocumentation|
        invariant UploadAll(fileProvider.fault, filesRepository.fault, bucketName, filesDocumentation,
                            ids, dates, i, Snapshot()) == total
      {
        var step := UploadEntry(filesDocumentation, i, bucketName, ids, dates);
        if step.Fail? {
          return step;
        }
      }
      r := Pass;
    }

    /** One pass of the upload loop: upload entry `i`'s trimmed document, then
        record its row. On failure the stores are where the loop leaves them;
        on success the rest of the loop is what remains to do. */
    method UploadEntry(filesDocumentation: seq<Entry>, i: nat, bucketName: string,
                       ids: nat -> string, dates: nat -> int)
      returns (r: Outcome<Error>)
      requires i < |filesDocumentation|
      modifies fileProvider, filesRepository
      ensures var rest := UploadAll(fileProvider.fault, filesRepository.fault, bucketName, filesDocumentation,
                                    ids, dates, i, old(Snapshot()));
        if r.Pass? then UploadAll(fileProvider.fault, filesRepository.fault, bucketName, filesDocumentation,
                                  ids, dates, i + 1, Snapshot()) == rest
        else (r, Snapshot()) == rest
    {
      var file := filesDocumentation[i];
      var fileName := Text.ReplaceAll(Paths.FileName(file.key), ".cs", ".md");
      var marker := "# File Overview";
      var documentation := if Text.Contains(file.documentation, marker)
        then file.documentation[Text.IndexOf(file.documentation, marker)..] else file.documentation;
      var uploadMinioResult := fileProvider.UploadFile(UploadFileData(documentation, bucketName, fileName));
      if uploadMinioResult.Err? {
        return Fail(uploadMinioResult.error);
      }
      var fileData := FileData(ids(i), Text.Utf8Length(documentation), "text/markdown", fileName, bucketName, dates(i));
      r := filesRepository.AddRange([fileData]);
    }
  }
}
