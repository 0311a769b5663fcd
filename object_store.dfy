/** The object store (MinioProvider) over an in-memory client: buckets map
    object names to their contents, and every client call is logged. A
    fault oracle decides which client calls throw. */
module ObjectStore {
  import opened Wrappers
  import opened ErrorRecord

  /** The client operations the provider issues. */
  datatype ClientCall =
    | BucketExists(bucket: string)
    | MakeBucket(bucket: string)
    | PutObject(bucket: string, name: string, content: string)
    | RemoveObjects(bucket: string, names: seq<string>)
    | RemoveBucket(bucket: string)

  /** The objects of one bucket: object name to content. */
  type Objects = map<string, string>

  /** What `UploadFile` is given (the stream becomes its text). */
  datatype UploadFileData = UploadFileData(content: string, bucketName: string, objectName: string)

  /** The client's state: its buckets and the calls made so far. */
  datatype State = State(buckets: map<string, Objects>, calls: seq<ClientCall>)

  /** Which client calls throw. */
  type Faults = ClientCall -> bool

  function UploadError(): (e: Error)
    ensures e.code == "file.upload.minio" && e.errorType == ErrorTypes.Failure
  {
    Failure("file.upload.minio", "Fail to upload file in minio")
  }

  function RemoveError(): (e: Error)
    ensures e.code == "remove.bucket" && e.errorType == ErrorTypes.Failure
  {
    Failure("remove.bucket", "Fail to remove bucket in minio")
  }

  /** The effect of a client call that does not throw. */
  function Apply(buckets: map<string, Objects>, c: ClientCall): map<string, Objects>
  {
    match c
    case BucketExists(_) => buckets
    case MakeBucket(b) => buckets[b := map[]]
    case PutObject(b, n, content) => buckets[b := (if b in buckets then buckets[b] else map[])[n := content]]
    case RemoveObjects(b, ns) => if b in buckets then buckets[b := buckets[b] - (set n | n in ns)] else buckets
    case RemoveBucket(b) => buckets - {b}
  }

  /** A client call: logged in any case, with no effect when it throws. */
  function Perform(fault: Faults, s: State, c: ClientCall): State
  {
    State(if fault(c) then s.buckets else Apply(s.buckets, c), s.calls + [c])
  }

  /** `UploadFile`: ask whether the bucket exists, create it when it does
      not, then put the object; the first throwing call ends it. */
  function UploadOf(fault: Faults, s: State, data: UploadFileData): (Result<string, Error>, State)
  {
    var b := data.bucketName;
    var s1 := Perform(fault, s, BucketExists(b));
    if fault(BucketExists(b)) then (Err(UploadError()), s1)
    else
      var s2 := if b in s.buckets then s1 else Perform(fault, s1, MakeBucket(b));
      if b !in s.buckets && fault(MakeBucket(b)) then (Err(UploadError()), s2)
      else
        var put := PutObject(b, data.objectName, data.content);
        var s3 := Perform(fault, s2, put);
        if fault(put) then (Err(UploadError()), s3) else (Ok(data.objectName), s3)
  }

  /** `RemoveBucketIfExists`: nothing to do for an absent bucket; otherwise
      remove the listed objects (only when there are some), then the bucket. */
  function RemoveOf(fault: Faults, s: State, b: string, names: seq<string>): (Outcome<Error>, State)
  {
    var s1 := Perform(fault, s, BucketExists(b));
    if fault(BucketExists(b)) then (Fail(RemoveError()), s1)
    else if b !in s.buckets then (Pass, s1)
    else
      var s2 := if |names| > 0 then Perform(fault, s1, RemoveObjects(b, names)) else s1;
      if |names| > 0 && fault(RemoveObjects(b, names)) then (Fail(RemoveError()), s2)
      else
        var s3 := Perform(fault, s2, RemoveBucket(b));
        if fault(RemoveBucket(b)) then (Fail(RemoveError()), s3) else (Pass, s3)
  }

  class MinioProvider {
    var buckets: map<string, Objects>
    var calls: seq<ClientCall>
    const fault: Faults

    constructor(fault: Faults, buckets: map<string, Objects>)
      ensures this.fault == fault && this.buckets == buckets && calls == []
    {
      this.fault := fault;
      this.buckets := buckets;
      calls := [];
    }

    /** One call on the client; `ok` is false when it throws. */
    method Invoke(c: ClientCall) returns (ok: bool)
      modifies this
      ensures ok == !fault(c)
      ensures State(buckets, calls) == Perform(fault, old(State(buckets, calls)), c)
    {
      if !fault(c) {
        buckets := Apply(buckets, c);
      }
      calls := calls + [c];
      ok := !fault(c);
    }

    method IsBucketExists(b: string) returns (ok: bool, exists_: bool)
      modifies this
      ensures ok == !fault(BucketExists(b)) && exists_ == (b in old(buckets))
      ensures State(buckets, calls) == Perform(fault, old(State(buckets, calls)), BucketExists(b))
    {
      exists_ := b in buckets;
      ok := Invoke(BucketExists(b));
    }

    method UploadFile(data: UploadFileData) returns (r: Result<string, Error>)
      modifies this
      ensures (r, State(buckets, calls)) == UploadOf(fault, old(State(buckets, calls)), data)
    {
      var ok, bucketExists := IsBucketExists(data.bucketName);
      if !ok {
        return Err(UploadError());
      }
      if !bucketExists {
        ok := Invoke(MakeBucket(data.bucketName));
        if !ok {
          return Err(UploadError());
        }
      }
      ok := Invoke(PutObject(data.bucketName, data.objectName, data.content));
      if !ok {
        return Err(UploadError());
      }
      r := Ok(data.objectName);
    }

    method RemoveBucketIfExists(b: string, filesToDelete: seq<string>) returns (r: Outcome<Error>)
      modifies this
      ensures (r, State(buckets, calls)) == RemoveOf(fault, old(State(buckets, calls)), b, filesToDelete)
    {
      var ok, bucketExists := IsBucketExists(b);
      if !ok {
        return Fail(RemoveError());
      }
      if !bucketExists {
        return Pass;
      }
      if |filesToDelete| > 0 {
        ok := Invoke(RemoveObjects(b, filesToDelete));
        if !ok {
          return Fail(RemoveError());
        }
      }
      ok := Invoke(RemoveBucket(b));
      if !ok {
        return Fail(RemoveError());
      }
      r := Pass;
    }
  }

  /** Buckets other than `b` are the same in `t` as in `s`. */
  ghost predicate OthersUnchanged(s: map<string, Objects>, t: map<string, Objects>, b: string)
  {
    forall c :: c != b ==> (c in t <==> c in s) && (c in s ==> t[c] == s[c])
  }

  /** An upload touches only its own bucket, logs its calls after the earlier
      ones, and can only fail with the upload error. */
  lemma UploadTouchesOnlyItsBucket(fault: Faults, s: State, data: UploadFileData)
    ensures var (r, t) := UploadOf(fault, s, data);
      && OthersUnchanged(s.buckets, t.buckets, data.bucketName)
      && t.calls[..|s.calls|] == s.calls
      && (r.Err? ==> r.error == UploadError())
  {
  }

  /** A successful upload asked whether the bucket exists, created it iff it
      was absent, then put the object, whose name it returns. */
  lemma UploadSucceeds(fault: Faults, s: State, data: UploadFileData)
    ensures var (r, t) := UploadOf(fault, s, data); var b := data.bucketName;
      r.Ok? ==>
        && r.value == data.objectName
        && t.calls == s.calls + [BucketExists(b)] + (if b in s.buckets then [] else [MakeBucket(b)])
                      + [PutObject(b, data.objectName, data.content)]
        && t.buckets.Keys == s.buckets.Keys + {b}
        && t.buckets[b] == (if b in s.buckets then s.buckets[b] else map[])[data.objectName := data.content]
  {
  }

  /** An upload into a bucket that exists keeps the bucket and every name in
      it, whether or not the upload succeeds: nothing is rolled back. */
  lemma UploadKeepsNames(fault: Faults, s: State, data: UploadFileData)
    requires data.bucketName in s.buckets
    ensures var t := UploadOf(fault, s, data).1; var b := data.bucketName;
      b in t.buckets && s.buckets[b].Keys <= t.buckets[b].Keys
  {
  }

  /** An upload succeeds exactly when none of the calls it makes throws. */
  lemma UploadFailsIffSomeCallThrows(fault: Faults, s: State, data: UploadFileData)
    ensures var (r, _) := UploadOf(fault, s, data); var b := data.bucketName;
      r.Ok? <==> !fault(BucketExists(b)) && (b !in s.buckets ==> !fault(MakeBucket(b)))
                 && !fault(PutObject(b, data.objectName, data.content))
  {
  }

  /** Removing an absent bucket succeeds and changes no bucket. */
  lemma RemoveAbsentIsNoop(fault: Faults, s: State, b: string, names: seq<string>)
    requires b !in s.buckets && !fault(BucketExists(b))
    ensures RemoveOf(fault, s, b, names) == (Pass, State(s.buckets, s.calls + [BucketExists(b)]))
  {
  }

  /** Removing a present bucket lists its objects for removal only when
      there are some, then removes the bucket; it fails only with the
      removal error and touches no other bucket. */
  lemma RemovePresent(fault: Faults, s: State, b: string, names: seq<string>)
    ensures var (r, t) := RemoveOf(fault, s, b, names);
      && OthersUnchanged(s.buckets, t.buckets, b)
      && (r.Fail? ==> r.error == RemoveError())
      && (r.Pass? ==> b !in t.buckets)
      && (r.Pass? && b in s.buckets ==>
            t.calls == s.calls + [BucketExists(b)] + (if |names| > 0 then [RemoveObjects(b, names)] else [])
                       + [RemoveBucket(b)])
  {
  }
}
