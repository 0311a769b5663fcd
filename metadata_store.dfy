/** The metadata store (FilesRepository) over an in-memory collection of
    file rows. A fault oracle decides which collection calls throw. */
module MetadataStore {
  import opened Wrappers
  import opened ErrorRecord
  import opened Seqs

  /** One stored row describing an uploaded artifact. `id` stands for the
      row's Guid and `uploadDate` for its timestamp. */
  datatype FileData = FileData(
    id: string, fileSize: nat, contentType: string, filePath: string, bucketName: string, uploadDate: int)

  /** The collection operations the repository issues. */
  datatype StoreCall = InsertMany(rows: seq<FileData>) | DeleteMany(bucket: string) | Find(bucket: string)

  /** Which collection calls throw. */
  type Faults = StoreCall -> bool

  function AddError(): (e: Error)
    ensures e.code == "files.upload.mongo" && e.errorType == ErrorTypes.Failure
  {
    Failure("files.upload.mongo", "Fail to upload files to mongodb")
  }

  function DeleteError(): (e: Error)
    ensures e.code == "delete.files.mongo" && e.errorType == ErrorTypes.Failure
  {
    Failure("delete.files.mongo", "Fail to delete files from mongodb")
  }

  function GetError(): (e: Error)
    ensures e.code == "get.files.mongo" && e.errorType == ErrorTypes.Failure
  {
    Failure("get.files.mongo", "Fail to get files from mongodb")
  }

  /** Whether a row belongs to bucket `b`. */
  function InBucket(b: string): FileData -> bool
  {
    (row: FileData) => row.bucketName == b
  }

  function OutsideBucket(b: string): FileData -> bool
  {
    (row: FileData) => row.bucketName != b
  }

  function PathOf(row: FileData): string
  {
    row.filePath
  }

  /** The rows of every bucket but `b`, in store order. */
  function WithoutBucket(rows: seq<FileData>, b: string): seq<FileData>
  {
    Filter(OutsideBucket(b), rows)
  }

  /** The `FilePath` of every row of bucket `b`, in store order. */
  function NamesOf(rows: seq<FileData>, b: string): seq<string>
  {
    Map(PathOf, Filter(InBucket(b), rows))
  }

  /** `AddRange` on a collection holding `rows`. */
  function AddRangeOf(fault: Faults, rows: seq<FileData>, filesData: seq<FileData>): (Outcome<Error>, seq<FileData>)
  {
    if fault(InsertMany(filesData)) then (Fail(AddError()), rows) else (Pass, rows + filesData)
  }

  /** `DeleteByBucket` on a collection holding `rows`. */
  function DeleteOf(fault: Faults, rows: seq<FileData>, b: string): (Outcome<Error>, seq<FileData>)
  {
    if fault(DeleteMany(b)) then (Fail(DeleteError()), rows) else (Pass, WithoutBucket(rows, b))
  }

  /** `GetFileNamesByBucket` on a collection holding `rows`. */
  function NamesQueryOf(fault: Faults, rows: seq<FileData>, b: string): (r: Result<seq<string>, Error>)
    ensures r.Err? <==> fault(Find(b))
    ensures r.Err? ==> r.error == GetError()
    ensures r.Ok? ==> |r.value| <= |rows|
    ensures r.Ok? ==> forall n :: n in r.value <==> exists row :: row in rows && row.bucketName == b && row.filePath == n
  {
    if fault(Find(b)) then Err(GetError())
    else
      var inBucket := Filter(InBucket(b), rows);
      assert forall row :: row in inBucket <==> row in rows && row.bucketName == b by {
        forall row ensures row in inBucket <==> row in rows && row.bucketName == b {
          FilterMembership(InBucket(b), rows, row);
        }
      }
      Ok(NamesOf(rows, b))
  }

  class FilesRepository {
    var rows: seq<FileData>
    const fault: Faults

    constructor(fault: Faults, rows: seq<FileData>)
      ensures this.fault == fault && this.rows == rows
    {
      this.fault := fault;
      this.rows := rows;
    }

    method AddRange(filesData: seq<FileData>) returns (r: Outcome<Error>)
      modifies this
      ensures (r, rows) == AddRangeOf(fault, old(rows), filesData)
    {
      if fault(InsertMany(filesData)) {
        return Fail(AddError());
      }
      rows := rows + filesData;
      r := Pass;
    }

    method DeleteByBucket(b: string) returns (r: Outcome<Error>)
      modifies this
      ensures (r, rows) == DeleteOf(fault, old(rows), b)
    {
      if fault(DeleteMany(b)) {
        return Fail(DeleteError());
      }
      rows := WithoutBucket(rows, b);
      r := Pass;
    }

    function GetFileNamesByBucket(b: string): (r: Result<seq<string>, Error>)
      reads this
      ensures r == NamesQueryOf(fault, rows, b)
    {
      NamesQueryOf(fault, rows, b)
    }
  }

  /** Deleting a bucket removes exactly its rows. */
  lemma DeleteRemovesExactly(rows: seq<FileData>, b: string, row: FileData)
    ensures row in WithoutBucket(rows, b) <==> row in rows && row.bucketName != b
  {
    FilterMembership(OutsideBucket(b), rows, row);
  }

  /** What is left of bucket `c` once bucket `b` is deleted. */
  lemma {:induction false} BucketAfterDelete(rows: seq<FileData>, b: string, c: string)
    ensures Filter(InBucket(c), WithoutBucket(rows, b)) == if c == b then [] else Filter(InBucket(c), rows)
  {
    if rows != [] {
      var init, last := rows[..|rows| - 1], rows[|rows| - 1];
      BucketAfterDelete(init, b, c);
      assert WithoutBucket(rows, b) == WithoutBucket(init, b) + (if last.bucketName != b then [last] else []);
      FilterAppend(InBucket(c), WithoutBucket(init, b), if last.bucketName != b then [last] else []);
    }
  }

  /** After deleting bucket `b`, the names query for `b` is empty, and the
      names of every other bucket are as they were. */
  lemma DeleteThenNames(rows: seq<FileData>, b: string, c: string)
    ensures NamesOf(WithoutBucket(rows, b), b) == []
    ensures c != b ==> NamesOf(WithoutBucket(rows, b), c) == NamesOf(rows, c)
  {
    BucketAfterDelete(rows, b, b);
    BucketAfterDelete(rows, b, c);
  }

  /** Appending rows appends their names for each bucket. */
  lemma NamesOfAppend(rows: seq<FileData>, more: seq<FileData>, b: string)
    ensures NamesOf(rows + more, b) == NamesOf(rows, b) + NamesOf(more, b)
  {
    FilterAppend(InBucket(b), rows, more);
    MapAppend(PathOf, Filter(InBucket(b), rows), Filter(InBucket(b), more));
  }
}
