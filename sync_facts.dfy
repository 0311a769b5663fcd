/** Properties of the synchroniser: the trim and the artifact names, which
    step stops a run, what a run leaves in both stores. */
module SyncFacts {
  import opened Wrappers
  import opened ErrorRecord
  import opened ObjectStore
  import opened MetadataStore
  import opened Seqs
  import opened Sync
  import Text
  import Paths
  import DocTemplate

  /** The synchroniser trims at the very marker the template asks for. */
  lemma TrimMarkerIsTemplateMarker()
    ensures Sync.Marker == DocTemplate.Marker
    ensures Text.Contains(DocTemplate.GetTemplate(), Sync.Marker)
  {
    DocTemplate.TemplateContainsMarker();
  }

  /** With the marker present, the trimmed document is the suffix that
      starts at its first occurrence; without it, the document is unchanged.
      Trimming twice is trimming once. */
  lemma TrimFacts(doc: string)
    ensures !Text.Contains(doc, Sync.Marker) ==> Trim(doc) == doc
    ensures Text.Contains(doc, Sync.Marker) ==>
      var start := |doc| - |Trim(doc)|;
      && Text.StartsWith(Trim(doc), Sync.Marker)
      && doc[start..] == Trim(doc)
      && forall j: nat :: j < start ==> !Text.OccursAt(doc, Sync.Marker, j)
    ensures Trim(Trim(doc)) == Trim(doc)
  {
    if Text.Contains(doc, Sync.Marker) {
      var i := Text.IndexOf(doc, Sync.Marker);
      var t := doc[i..];
      assert t[..|Sync.Marker|] == doc[i..i + |Sync.Marker|];
      assert Text.StartsWith(t, Sync.Marker);
      assert Text.OccursAt(t, Sync.Marker, 0);
      Text.IndexOfAtStart(t, Sync.Marker);
      assert t[0..] == t;
    }
  }

  /** Replacing `.cs` by `.md` keeps the length and the first character,
      except that a leading `.cs` becomes `.md`. */
  lemma ReplacedHead(s: string)
    requires |s| > 0
    ensures |Text.ReplaceAll(s, ".cs", ".md")| == |s|
    ensures Text.ReplaceAll(s, ".cs", ".md")[0] == if |s| >= 3 && s[..3] == ".cs" then '.' else s[0]
    ensures |s| >= 3 && s[..3] == ".cs" ==> Text.ReplaceAll(s, ".cs", ".md")[..3] == ".md"
  {
  }

  /** An occurrence after a prefix is an occurrence in what follows it. */
  lemma OccursAfter(x: string, y: string, p: string, i: nat)
    ensures Text.OccursAt(x + y, p, |x| + i) <==> Text.OccursAt(y, p, i)
  {
    if |x| + i + |p| <= |x + y| {
      assert (x + y)[|x| + i..|x| + i + |p|] == y[i..i + |p|];
    }
  }

  /** A character kept in front of the replaced rest does not start a `.cs`. */
  lemma KeptHead(s: string)
    requires |s| >= 3 && s[..3] != ".cs"
    ensures !Text.OccursAt([s[0]] + Text.ReplaceAll(s[1..], ".cs", ".md"), ".cs", 0)
  {
    var rest := Text.ReplaceAll(s[1..], ".cs", ".md");
    ReplacedHead(s[1..]);
    if |s| > 3 && s[0] == '.' && rest[0] == 'c' {
      assert s[1..][..3] != ".cs";
      assert rest == [s[1]] + Text.ReplaceAll(s[2..], ".cs", ".md");
      assert s[1..][1..] == s[2..];
      ReplacedHead(s[2..]);
    }
  }

  /** After the replacement no `.cs` is left, even one that the replacement
      could have formed with its neighbours. */
  lemma {:induction false} NoSourceExtensionLeft(s: string)
    ensures !Text.Contains(Text.ReplaceAll(s, ".cs", ".md"), ".cs")
    decreases |s|
  {
    var r := Text.ReplaceAll(s, ".cs", ".md");
    if |s| < 3 {
      assert r == s;
    } else if s[..3] == ".cs" {
      var rest := Text.ReplaceAll(s[3..], ".cs", ".md");
      NoSourceExtensionLeft(s[3..]);
      assert r == ".md" + rest;
      assert r[0] == '.' && r[1] == 'm' && r[2] == 'd';
      forall i: nat | i <= |r| ensures !Text.OccursAt(r, ".cs", i) {
        if i >= 3 {
          OccursAfter(".md", rest, ".cs", i - 3);
        }
      }
    } else {
      var rest := Text.ReplaceAll(s[1..], ".cs", ".md");
      NoSourceExtensionLeft(s[1..]);
      assert r == [s[0]] + rest;
      forall i: nat | i <= |r| ensures !Text.OccursAt(r, ".cs", i) {
        if i == 0 {
          KeptHead(s);
        } else {
          OccursAfter([s[0]], rest, ".cs", i - 1);
        }
      }
    }
  }

  /** An artifact name never keeps a `.cs`, and has as many characters as
      the source file name. */
  lemma ArtifactNameShape(key: string)
    ensures !Text.Contains(ArtifactName(key), ".cs")
    ensures |ArtifactName(key)| == |Paths.FileName(key)|
  {
    NoSourceExtensionLeft(Paths.FileName(key));
  }

  /** The first failing step before the uploads decides the result, and no
      later step runs: a failed names query changes nothing, a failed
      removal or delete leaves the rows as they were. */
  lemma SyncStopsEarly(mf: ObjectStore.Faults, rf: MetadataStore.Faults, st: Stores, entries: seq<Entry>,
                       projectName: string, ids: nat -> string, dates: nat -> int)
    ensures var b := Paths.FileName(projectName); var (r, t) := SyncOf(mf, rf, st, entries, projectName, ids, dates);
      && (rf(Find(b)) ==> r == Fail(GetError()) && t == st)
      && (!rf(Find(b)) && RemoveOf(mf, st.objects, b, NamesOf(st.rows, b)).0.Fail? ==>
            r == Fail(RemoveError()) && t == Stores(RemoveOf(mf, st.objects, b, NamesOf(st.rows, b)).1, st.rows))
      && (!rf(Find(b)) && RemoveOf(mf, st.objects, b, NamesOf(st.rows, b)).0.Pass? && rf(DeleteMany(b)) ==>
            r == Fail(DeleteError()) && t == Stores(RemoveOf(mf, st.objects, b, NamesOf(st.rows, b)).1, st.rows))
  {
    RemovePresent(mf, st.objects, Paths.FileName(projectName), NamesOf(st.rows, Paths.FileName(projectName)));
  }

  /** The rows recorded for entries `k` up to `n`, in order. */
  function RowsFor(ids: nat -> string, dates: nat -> int, bucket: string, entries: seq<Entry>, k: nat, n: nat)
    : (rows: seq<FileData>)
    requires k <= n <= |entries|
    ensures |rows| == n - k
  {
    seq(n - k, j requires 0 <= j < n - k => RowFor(ids, dates, k + j, bucket, entries[k + j]))
  }

  /** One pass of the loop, with the upload taken as a whole. */
  lemma UploadAllUnfold(mf: ObjectStore.Faults, rf: MetadataStore.Faults, bucket: string,
                        entries: seq<Entry>, ids: nat -> string, dates: nat -> int, k: nat, st: Stores)
    requires k < |entries|
    ensures var e := entries[k];
      var up := UploadOf(mf, st.objects, UploadFileData(Trim(e.documentation), bucket, ArtifactName(e.key)));
      var row := RowFor(ids, dates, k, bucket, e);
      UploadAll(mf, rf, bucket, entries, ids, dates, k, st)
        == if up.0.Err? then (Fail(up.0.error), Stores(up.1, st.rows))
           else if rf(InsertMany([row])) then (Fail(AddError()), Stores(up.1, st.rows))
           else UploadAll(mf, rf, bucket, entries, ids, dates, k + 1, Stores(up.1, st.rows + [row]))
  {
  }

  lemma RowsForCons(ids: nat -> string, dates: nat -> int, bucket: string, entries: seq<Entry>, k: nat, n: nat)
    requires k < n <= |entries|
    ensures [RowFor(ids, dates, k, bucket, entries[k])] + RowsFor(ids, dates, bucket, entries, k + 1, n)
         == RowsFor(ids, dates, bucket, entries, k, n)
  {
  }

  /** The loop completes some number of entries, each adding exactly its one
      row after the rows already there, and succeeds iff it completes all of
      them. Rows of completed entries stay when a later one fails. */
  lemma {:induction false} UploadAllProgress(mf: ObjectStore.Faults, rf: MetadataStore.Faults, bucket: string,
                                             entries: seq<Entry>, ids: nat -> string, dates: nat -> int,
                                             k: nat, st: Stores)
    returns (n: nat)
    requires k <= |entries|
    ensures k <= n <= |entries|
    ensures UploadAll(mf, rf, bucket, entries, ids, dates, k, st).1.rows == st.rows + RowsFor(ids, dates, bucket, entries, k, n)
    ensures UploadAll(mf, rf, bucket, entries, ids, dates, k, st).0.Pass? <==> n == |entries|
    decreases |entries| - k
  {
    n := k;
    if k < |entries| {
      var row := RowFor(ids, dates, k, bucket, entries[k]);
      UploadAllStep(mf, rf, bucket, entries, ids, dates, k, st);
      if Advances(mf, rf, bucket, entries, ids, dates, k, st) {
        var next := Stores(NextObjects(mf, bucket, entries[k], st), st.rows + [row]);
        n := UploadAllProgress(mf, rf, bucket, entries, ids, dates, k + 1, next);
        RowsForCons(ids, dates, bucket, entries, k, n);
        var rest := RowsFor(ids, dates, bucket, entries, k + 1, n);
        assert st.rows + [row] + rest == st.rows + ([row] + rest);
      }
    }
  }

  /** The loop never takes an object away: the bucket keeps every name it
      held, and each entry that completes, adding its one row, leaves its
      object in the bucket. */
  lemma {:induction false} UploadAllKeepsObjects(mf: ObjectStore.Faults, rf: MetadataStore.Faults, bucket: string,
                                                 entries: seq<Entry>, ids: nat -> string, dates: nat -> int,
                                                 k: nat, st: Stores)
    returns (n: nat)
    requires k <= |entries|
    ensures k <= n <= |entries|
    ensures |UploadAll(mf, rf, bucket, entries, ids, dates, k, st).1.rows| == |st.rows| + (n - k)
    ensures var t := UploadAll(mf, rf, bucket, entries, ids, dates, k, st).1;
      bucket in st.objects.buckets ==>
        bucket in t.objects.buckets && st.objects.buckets[bucket].Keys <= t.objects.buckets[bucket].Keys
    ensures NamesStored(UploadAll(mf, rf, bucket, entries, ids, dates, k, st).1.objects.buckets, bucket, entries, k, n)
    decreases |entries| - k
  {
    n := k;
    if k < |entries| {
      var row := RowFor(ids, dates, k, bucket, entries[k]);
      UploadAllStep(mf, rf, bucket, entries, ids, dates, k, st);
      StepKeepsObjects(mf, rf, bucket, entries, ids, dates, k, st);
      if Advances(mf, rf, bucket, entries, ids, dates, k, st) {
        var next := Stores(NextObjects(mf, bucket, entries[k], st), st.rows + [row]);
        n := UploadAllKeepsObjects(mf, rf, bucket, entries, ids, dates, k + 1, next);
        var t := UploadAll(mf, rf, bucket, entries, ids, dates, k + 1, next).1;
        CarryNames(st.objects.buckets, next.objects.buckets, t.objects.buckets, bucket, entries, k, n);
      }
    }
  }

  /** Nothing is rolled back when an entry fails: the rows of the entries
      completed before it stay, in order, the bucket keeps every object name
      it held, and each completed entry's object stays in the bucket. */
  lemma UploadAllNoRollback(mf: ObjectStore.Faults, rf: MetadataStore.Faults, bucket: string,
                            entries: seq<Entry>, ids: nat -> string, dates: nat -> int, k: nat, st: Stores)
    returns (n: nat)
    requires k <= |entries|
    requires bucket in st.objects.buckets
    ensures k <= n <= |entries|
    ensures var (r, t) := UploadAll(mf, rf, bucket, entries, ids, dates, k, st);
      && (r.Pass? <==> n == |entries|)
      && t.rows == st.rows + RowsFor(ids, dates, bucket, entries, k, n)
      && bucket in t.objects.buckets
      && st.objects.buckets[bucket].Keys <= t.objects.buckets[bucket].Keys
      && (forall j :: k <= j < n ==> EntryName(entries[j]) in t.objects.buckets[bucket])
  {
    n := UploadAllProgress(mf, rf, bucket, entries, ids, dates, k, st);
    var m := UploadAllKeepsObjects(mf, rf, bucket, entries, ids, dates, k, st);
    assert m == n;
  }

  /** One pass keeps the bucket's names, and adds entry `k`'s name when it
      goes on; when it stops, what the failed pass left is the loop's end. */
  lemma StepKeepsObjects(mf: ObjectStore.Faults, rf: MetadataStore.Faults, bucket: string,
                         entries: seq<Entry>, ids: nat -> string, dates: nat -> int, k: nat, st: Stores)
    requires k < |entries|
    ensures var next := NextObjects(mf, bucket, entries[k], st);
      Advances(mf, rf, bucket, entries, ids, dates, k, st) ==>
        && bucket in next.buckets && EntryName(entries[k]) in next.buckets[bucket]
        && (bucket in st.objects.buckets ==> st.objects.buckets[bucket].Keys <= next.buckets[bucket].Keys)
    ensures var t := UploadAll(mf, rf, bucket, entries, ids, dates, k, st).1;
      !Advances(mf, rf, bucket, entries, ids, dates, k, st) && bucket in st.objects.buckets ==>
        bucket in t.objects.buckets && st.objects.buckets[bucket].Keys <= t.objects.buckets[bucket].Keys
  {
    var e := entries[k];
    var data := UploadFileData(Trim(e.documentation), bucket, ArtifactName(e.key));
    UploadAllUnfold(mf, rf, bucket, entries, ids, dates, k, st);
    UploadSucceeds(mf, st.objects, data);
    if bucket in st.objects.buckets {
      UploadKeepsNames(mf, st.objects, data);
    }
  }

  /** The objects of entries `k` to `n` are in the bucket. */
  predicate NamesStored(buckets: map<string, Objects>, bucket: string, entries: seq<Entry>, k: nat, n: nat)
    requires n <= |entries|
  {
    forall j :: k <= j < n ==> bucket in buckets && EntryName(entries[j]) in buckets[bucket]
  }

  /** Names kept from `s0` to `s1` (which adds entry `k`'s) and from `s1` to
      `s2` (which holds entries `k + 1` to `n`) are kept from `s0` to `s2`,
      which then holds entries `k` to `n`. */
  lemma CarryNames(s0: map<string, Objects>, s1: map<string, Objects>, s2: map<string, Objects>,
                   bucket: string, entries: seq<Entry>, k: nat, n: nat)
    requires k < n <= |entries|
    requires bucket in s1 && EntryName(entries[k]) in s1[bucket]
    requires bucket in s0 ==> s0[bucket].Keys <= s1[bucket].Keys
    requires bucket in s2 && s1[bucket].Keys <= s2[bucket].Keys
    requires NamesStored(s2, bucket, entries, k + 1, n)
    ensures bucket in s0 ==> s0[bucket].Keys <= s2[bucket].Keys
    ensures NamesStored(s2, bucket, entries, k, n)
  {
  }

  /** The objects after uploading entry `e`'s trimmed document. */
  function NextObjects(mf: ObjectStore.Faults, bucket: string, e: Entry, st: Stores): ObjectStore.State
  {
    UploadOf(mf, st.objects, UploadFileData(Trim(e.documentation), bucket, ArtifactName(e.key))).1
  }

  /** Entry `k` is uploaded and its row inserted, so the loop goes on. */
  predicate Advances(mf: ObjectStore.Faults, rf: MetadataStore.Faults, bucket: string,
                     entries: seq<Entry>, ids: nat -> string, dates: nat -> int, k: nat, st: Stores)
    requires k < |entries|
  {
    var e := entries[k];
    UploadOf(mf, st.objects, UploadFileData(Trim(e.documentation), bucket, ArtifactName(e.key))).0.Ok?
      && !rf(InsertMany([RowFor(ids, dates, k, bucket, e)]))
  }

  /** One pass of the loop: it either goes on with one more row, or fails
      with the rows as they were. */
  lemma UploadAllStep(mf: ObjectStore.Faults, rf: MetadataStore.Faults, bucket: string,
                      entries: seq<Entry>, ids: nat -> string, dates: nat -> int, k: nat, st: Stores)
    requires k < |entries|
    ensures var res := UploadAll(mf, rf, bucket, entries, ids, dates, k, st);
      if Advances(mf, rf, bucket, entries, ids, dates, k, st) then
        res == UploadAll(mf, rf, bucket, entries, ids, dates, k + 1,
                         Stores(NextObjects(mf, bucket, entries[k], st), st.rows + [RowFor(ids, dates, k, bucket, entries[k])]))
      else res.0.Fail? && res.1.rows == st.rows
  {
    UploadAllUnfold(mf, rf, bucket, entries, ids, dates, k, st);
  }

  /** A failing loop fails with the upload error or the insert error. */
  lemma {:induction false} UploadAllErrors(mf: ObjectStore.Faults, rf: MetadataStore.Faults, bucket: string,
                                           entries: seq<Entry>, ids: nat -> string, dates: nat -> int,
                                           k: nat, st: Stores)
    requires k <= |entries|
    ensures var r := UploadAll(mf, rf, bucket, entries, ids, dates, k, st).0;
      r.Fail? ==> r.error == UploadError() || r.error == AddError()
    decreases |entries| - k
  {
    if k < |entries| {
      var e := entries[k];
      var data := UploadFileData(Trim(e.documentation), bucket, ArtifactName(e.key));
      var up := UploadOf(mf, st.objects, data);
      UploadTouchesOnlyItsBucket(mf, st.objects, data);
      var row := RowFor(ids, dates, k, bucket, e);
      UploadAllUnfold(mf, rf, bucket, entries, ids, dates, k, st);
      if up.0.Ok? && !rf(InsertMany([row])) {
        UploadAllErrors(mf, rf, bucket, entries, ids, dates, k + 1, Stores(up.1, st.rows + [row]));
      }
    }
  }

  /** The loop writes only to its own bucket, in both stores. */
  lemma {:induction false} UploadAllOthers(mf: ObjectStore.Faults, rf: MetadataStore.Faults, bucket: string,
                                           entries: seq<Entry>, ids: nat -> string, dates: nat -> int,
                                           k: nat, st: Stores, c: string)
    requires k <= |entries|
    ensures var t := UploadAll(mf, rf, bucket, entries, ids, dates, k, st).1;
      && OthersUnchanged(st.objects.buckets, t.objects.buckets, bucket)
      && (c != bucket ==> NamesOf(t.rows, c) == NamesOf(st.rows, c))
    decreases |entries| - k
  {
    if k < |entries| {
      var e := entries[k];
      var data := UploadFileData(Trim(e.documentation), bucket, ArtifactName(e.key));
      var up := UploadOf(mf, st.objects, data);
      UploadTouchesOnlyItsBucket(mf, st.objects, data);
      UploadAllUnfold(mf, rf, bucket, entries, ids, dates, k, st);
      var row := RowFor(ids, dates, k, bucket, e);
      if up.0.Ok? && !rf(InsertMany([row])) {
        var next := Stores(up.1, st.rows + [row]);
        UploadAllOthers(mf, rf, bucket, entries, ids, dates, k + 1, next, c);
        NamesOfAppend(st.rows, [row], c);
        if c != bucket {
          assert Filter(InBucket(c), [row]) == [];
        }
      }
    }
  }

  /** A run, whatever its outcome, leaves every other bucket of the object
      store and the rows of every other bucket as they were. */
  lemma SyncTouchesOnlyBucket(mf: ObjectStore.Faults, rf: MetadataStore.Faults, st: Stores, entries: seq<Entry>,
                              projectName: string, ids: nat -> string, dates: nat -> int, c: string)
    ensures var b := Paths.FileName(projectName); var t := SyncOf(mf, rf, st, entries, projectName, ids, dates).1;
      && OthersUnchanged(st.objects.buckets, t.objects.buckets, b)
      && (c != b ==> NamesOf(t.rows, c) == NamesOf(st.rows, c))
  {
    var b := Paths.FileName(projectName);
    var names := NamesOf(st.rows, b);
    RemovePresent(mf, st.objects, b, names);
    DeleteThenNames(st.rows, b, c);
    var removed := RemoveOf(mf, st.objects, b, names).1;
    UploadAllOthers(mf, rf, b, entries, ids, dates, 0, Stores(removed, WithoutBucket(st.rows, b)), c);
  }

  /** The artifact names of the first `k` entries. */
  function NameSet(entries: seq<Entry>, k: nat): set<string>
    requires k <= |entries|
  {
    set j | 0 <= j < k :: EntryName(entries[j])
  }

  /** Recording entry `k`'s row extends the bucket's names by its artifact. */
  lemma RowsStep(ids: nat -> string, dates: nat -> int, bucket: string, entries: seq<Entry>, k: nat, rows: seq<FileData>)
    requires k < |entries|
    requires NamesOf(rows, bucket) == Map(EntryName, entries[..k])
    ensures NamesOf(rows + [RowFor(ids, dates, k, bucket, entries[k])], bucket) == Map(EntryName, entries[..k + 1])
  {
    var row := RowFor(ids, dates, k, bucket, entries[k]);
    NamesOfAppend(rows, [row], bucket);
    assert Filter(InBucket(bucket), [row]) == [row];
    assert entries[..k + 1] == entries[..k] + [entries[k]];
    MapAppend(EntryName, entries[..k], [entries[k]]);
  }

  /** Uploading entry `k`'s artifact extends the bucket's object names by it. */
  lemma ObjectsStep(mf: ObjectStore.Faults, bucket: string, entries: seq<Entry>, k: nat, s: ObjectStore.State)
    requires k < |entries|
    requires bucket in s.buckets <==> k > 0
    requires k > 0 ==> s.buckets[bucket].Keys == NameSet(entries, k)
    ensures var e := entries[k];
      var up := UploadOf(mf, s, UploadFileData(Trim(e.documentation), bucket, ArtifactName(e.key)));
      up.0.Ok? ==> bucket in up.1.buckets && up.1.buckets[bucket].Keys == NameSet(entries, k + 1)
  {
    var e := entries[k];
    UploadSucceeds(mf, s, UploadFileData(Trim(e.documentation), bucket, ArtifactName(e.key)));
    assert NameSet(entries, k + 1) == NameSet(entries, k) + {EntryName(e)};
  }

  /** No entry after `j` among the first `k` has `j`'s artifact name, so
      entry `j`'s upload is the last one under that name. */
  predicate LastWithName(entries: seq<Entry>, j: nat, k: nat)
    requires j < k <= |entries|
  {
    forall i :: j < i < k ==> EntryName(entries[i]) != EntryName(entries[j])
  }

  /** Every entry among the first `k` that no later one overwrites is stored
      under its artifact name as its trimmed document. */
  predicate HoldsLatest(objs: Objects, entries: seq<Entry>, k: nat)
    requires k <= |entries|
  {
    forall j :: 0 <= j < k && LastWithName(entries, j, k) ==>
      EntryName(entries[j]) in objs && objs[EntryName(entries[j])] == Trim(entries[j].documentation)
  }

  /** Uploading entry `k` stores its trimmed document under its name and
      keeps every other name's content. */
  lemma ContentsStep(mf: ObjectStore.Faults, bucket: string, entries: seq<Entry>, k: nat, s: ObjectStore.State)
    requires k < |entries|
    requires bucket in s.buckets <==> k > 0
    requires k > 0 ==> HoldsLatest(s.buckets[bucket], entries, k)
    ensures var e := entries[k];
      var up := UploadOf(mf, s, UploadFileData(Trim(e.documentation), bucket, ArtifactName(e.key)));
      up.0.Ok? ==> bucket in up.1.buckets && HoldsLatest(up.1.buckets[bucket], entries, k + 1)
  {
    var e := entries[k];
    var data := UploadFileData(Trim(e.documentation), bucket, ArtifactName(e.key));
    UploadSucceeds(mf, s, data);
    var up := UploadOf(mf, s, data);
    if up.0.Ok? {
      var objs := up.1.buckets[bucket];
      forall j | 0 <= j < k + 1 && LastWithName(entries, j, k + 1)
        ensures EntryName(entries[j]) in objs && objs[EntryName(entries[j])] == Trim(entries[j].documentation)
      {
        if j < k {
          assert EntryName(entries[k]) != EntryName(entries[j]);
          assert LastWithName(entries, j, k);
        }
      }
    }
  }

  /** A loop that completes holds exactly the artifacts of all entries, in
      both stores, each stored object being the trimmed document of the last
      entry with its name, given that it starts on what the earlier entries
      left. */
  lemma {:induction false} UploadAllComplete(mf: ObjectStore.Faults, rf: MetadataStore.Faults, bucket: string,
                                             entries: seq<Entry>, ids: nat -> string, dates: nat -> int,
                                             k: nat, st: Stores)
    requires k <= |entries|
    requires NamesOf(st.rows, bucket) == Map(EntryName, entries[..k])
    requires bucket in st.objects.buckets <==> k > 0
    requires k > 0 ==> st.objects.buckets[bucket].Keys == NameSet(entries, k)
    requires k > 0 ==> HoldsLatest(st.objects.buckets[bucket], entries, k)
    ensures UploadAll(mf, rf, bucket, entries, ids, dates, k, st).0.Pass? ==>
      var t := UploadAll(mf, rf, bucket, entries, ids, dates, k, st).1;
      && NamesOf(t.rows, bucket) == Map(EntryName, entries)
      && (bucket in t.objects.buckets <==> |entries| > 0)
      && (|entries| > 0 ==> t.objects.buckets[bucket].Keys == NameSet(entries, |entries|))
      && (|entries| > 0 ==> HoldsLatest(t.objects.buckets[bucket], entries, |entries|))
    decreases |entries| - k
  {
    if k == |entries| {
      assert entries[..k] == entries;
    } else {
      var e := entries[k];
      var up := UploadOf(mf, st.objects, UploadFileData(Trim(e.documentation), bucket, ArtifactName(e.key)));
      UploadAllUnfold(mf, rf, bucket, entries, ids, dates, k, st);
      var row := RowFor(ids, dates, k, bucket, e);
      if up.0.Ok? && !rf(InsertMany([row])) {
        RowsStep(ids, dates, bucket, entries, k, st.rows);
        ObjectsStep(mf, bucket, entries, k, st.objects);
        ContentsStep(mf, bucket, entries, k, st.objects);
        UploadAllComplete(mf, rf, bucket, entries, ids, dates, k + 1, Stores(up.1, st.rows + [row]));
      }
    }
  }

  /** On full success the project's bucket holds exactly the new artifact
      names, each object being the trimmed document of the last entry with
      that name, and its rows name exactly those artifacts, one per entry in
      order: nothing of the previous run is left. With no entries the bucket
      is gone. */
  lemma SyncFullSuccess(mf: ObjectStore.Faults, rf: MetadataStore.Faults, st: Stores, entries: seq<Entry>,
                        projectName: string, ids: nat -> string, dates: nat -> int)
    ensures var b := Paths.FileName(projectName); var (r, t) := SyncOf(mf, rf, st, entries, projectName, ids, dates);
      r.Pass? ==>
        && NamesOf(t.rows, b) == Map(EntryName, entries)
        && (b in t.objects.buckets <==> |entries| > 0)
        && (|entries| > 0 ==> t.objects.buckets[b].Keys == NameSet(entries, |entries|))
        && (|entries| > 0 ==> HoldsLatest(t.objects.buckets[b], entries, |entries|))
  {
    var b := Paths.FileName(projectName);
    var names := NamesOf(st.rows, b);
    RemovePresent(mf, st.objects, b, names);
    DeleteThenNames(st.rows, b, b);
    var removed := RemoveOf(mf, st.objects, b, names);
    if !rf(Find(b)) && removed.0.Pass? && !rf(DeleteMany(b)) {
      assert removed.0.Pass? ==> b !in removed.1.buckets;
      assert entries[..0] == [];
      UploadAllComplete(mf, rf, b, entries, ids, dates, 0, Stores(removed.1, WithoutBucket(st.rows, b)));
    }
  }
}
