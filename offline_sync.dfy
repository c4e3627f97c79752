/**
 * The offline queue (lib/offline-sync.ts): posts and images made without a
 * connection are kept in two stored lists, each record carrying a `synced`
 * flag and a retry count. A sync pass tries every record that is neither
 * synced nor out of retries, marks it synced or counts one more failed try,
 * and writes the whole list back.
 */
module OfflineSync {
  import opened Wrappers

  const MaxRetryCount := 3

  /** A queued record: the saved fields, plus the two flags the queue adds. */
  datatype Queued<T> = Queued(id: string, item: T, synced: bool, retry_count: int)

  /** The fields of an offline post besides its id and flags. */
  datatype Post = Post(
    user_id: string,
    caption: string,
    image_url: string,
    location: Option<string>,
    waste_type: seq<string>,
    estimated_weight: Option<real>,
    points_earned: int,
    created_at: string)

  /** The stored metadata of an offline image; its blob lives in IndexedDB under the same id. */
  datatype ImageFile = ImageFile(filename: string, user_id: string, created_at: string)

  /** A record a sync pass tries. */
  predicate Eligible<T>(x: Queued<T>) {
    !x.synced && x.retry_count < MaxRetryCount
  }

  /** The list after a pass, the number newly synced, the error lines, and the number of tries made. */
  datatype PassResult<T> = PassResult(records: seq<Queued<T>>, synced: nat, errors: seq<string>, attempts: nat)

  /** How many records went from unsynced in `before` to synced in `after`. */
  function NewlySynced<T>(before: seq<Queued<T>>, after: seq<Queued<T>>): (n: nat)
    requires |before| == |after|
    ensures n <= |before|
  {
    if before == [] then 0
    else
      var last := if !before[|before| - 1].synced && after[|after| - 1].synced then 1 else 0;
      NewlySynced(before[..|before| - 1], after[..|after| - 1]) + last
  }

  /** The number of eligible records. */
  function EligibleCount<T>(q: seq<Queued<T>>): (n: nat)
    ensures n <= |q|
  {
    if q == [] then 0 else EligibleCount(q[..|q| - 1]) + (if Eligible(q[|q| - 1]) then 1 else 0)
  }

  /**
   * One sync pass over `q`, written on its prefixes. `attempt(k, x)` is the
   * backend's answer to the k-th try of the pass, made for record `x`: `None`
   * on success, or the text of the error raised. `kind` starts each error line.
   */
  function Pass<T>(q: seq<Queued<T>>, attempt: (nat, Queued<T>) -> Option<string>, kind: string): (r: PassResult<T>)
    ensures |r.records| == |q|
    ensures r.synced + |r.errors| == r.attempts
  {
    if q == [] then PassResult([], 0, [], 0)
    else Step(Pass(q[..|q| - 1], attempt, kind), q[|q| - 1], attempt, kind)
  }

  /** The pass extended by one more record `x`. */
  function Step<T>(p: PassResult<T>, x: Queued<T>, attempt: (nat, Queued<T>) -> Option<string>, kind: string): (r: PassResult<T>)
  {
    if !Eligible(x) then PassResult(p.records + [x], p.synced, p.errors, p.attempts)
    else match attempt(p.attempts, x)
      case None => PassResult(p.records + [x.(synced := true)], p.synced + 1, p.errors, p.attempts + 1)
      case Some(e) =>
        PassResult(p.records + [x.(retry_count := x.retry_count + 1)], p.synced,
          p.errors + [kind + " " + x.id + ": " + e], p.attempts + 1)
  }

  lemma PassPrefix<T>(q: seq<Queued<T>>, attempt: (nat, Queued<T>) -> Option<string>, kind: string, i: int)
    requires 0 <= i < |q|
    ensures Pass(q[..i + 1], attempt, kind) == Step(Pass(q[..i], attempt, kind), q[i], attempt, kind)
  {
    assert q[..i + 1][..i] == q[..i];
  }

  /**
   * The loop both sync methods run: each eligible record is tried once, in
   * order, and updated in place to synced or to one more failed try.
   */
  method RunPass<T>(q: seq<Queued<T>>, attempt: (nat, Queued<T>) -> Option<string>, kind: string)
    returns (recs: seq<Queued<T>>, synced: nat, errors: seq<string>)
    ensures var r := Pass(q, attempt, kind);
      recs == r.records && synced == r.synced && errors == r.errors
  {
    recs := q;
    var attempts: nat := 0;
    synced, errors := 0, [];
    var i := 0;
    while i < |q|
      invariant 0 <= i <= |q| == |recs|
      invariant recs[i..] == q[i..]
      invariant Pass(q[..i], attempt, kind) == PassResult(recs[..i], synced, errors, attempts)
    {
      var x := q[i];
      assert x == recs[i..][0];
      ghost var rest, done := recs[i + 1..], recs[..i];
      assert rest == q[i + 1..];
      PassPrefix(q, attempt, kind, i);
      if !x.synced && x.retry_count < MaxRetryCount {
        var outcome := attempt(attempts, x);
        attempts := attempts + 1;
        if outcome.None? {
          recs := recs[i := x.(synced := true)];
          synced := synced + 1;
        } else {
          recs := recs[i := x.(retry_count := x.retry_count + 1)];
          errors := errors + [kind + " " + x.id + ": " + outcome.value];
        }
      }
      assert recs[i + 1..] == rest && recs[..i] == done;
      assert recs[..i + 1] == recs[..i] + [recs[i]];
      i := i + 1;
    }
    assert q[..i] == q && recs[..i] == recs;
  }

  /**
   * Each record a pass leaves alone stays as it was; each record it tries ends
   * up synced or with one more failed try, and nothing else about it changes.
   */
  lemma {:induction false} PassRecords<T>(q: seq<Queued<T>>, attempt: (nat, Queued<T>) -> Option<string>, kind: string)
    ensures var r := Pass(q, attempt, kind).records;
      && (forall i :: 0 <= i < |q| && !Eligible(q[i]) ==> r[i] == q[i])
      && (forall i :: 0 <= i < |q| && Eligible(q[i]) ==>
            r[i] == q[i].(synced := true) || r[i] == q[i].(retry_count := q[i].retry_count + 1))
  {
    if q != [] {
      PassRecords(q[..|q| - 1], attempt, kind);
    }
  }

  /**
   * A pass tries exactly the eligible records, and its synced count is the
   * number of records it turned from unsynced to synced.
   */
  lemma {:induction false} PassCounts<T>(q: seq<Queued<T>>, attempt: (nat, Queued<T>) -> Option<string>, kind: string)
    ensures var r := Pass(q, attempt, kind);
      r.attempts == EligibleCount(q) && r.synced == NewlySynced(q, r.records)
  {
    if q != [] {
      var init := q[..|q| - 1];
      PassCounts(init, attempt, kind);
      var r := Pass(q, attempt, kind);
      var p := Pass(init, attempt, kind);
      assert r.records[..|q| - 1] == p.records;
    }
  }

  /** `filter(r => !r.synced)`. */
  function Unsynced<T>(q: seq<Queued<T>>): (r: seq<Queued<T>>)
    ensures |r| <= |q|
  {
    if q == [] then []
    else Unsynced(q[..|q| - 1]) + (if q[|q| - 1].synced then [] else [q[|q| - 1]])
  }

  /** The image list `saveImageOffline` writes, as written: the new image's metadata appears twice. */
  function SavedImagesAsWritten(images: seq<Queued<ImageFile>>, id: string, image: ImageFile): (r: seq<Queued<ImageFile>>)
    ensures |r| == |images| + 2
  {
    var entry := Queued(id, image, false, 0);
    (images + [entry]) + [entry]
  }

  /** The image list `saveImageOffline` is meant to write: the new image once, at the end. */
  function SavedImages(images: seq<Queued<ImageFile>>, id: string, image: ImageFile): (r: seq<Queued<ImageFile>>)
    ensures |r| == |images| + 1 && r[..|images|] == images
    ensures r[|images|] == Queued(id, image, false, 0)
  {
    images + [Queued(id, image, false, 0)]
  }

  class OfflineSyncService {
    /** The lists kept under "offline_posts" and "offline_images". */
    var posts: seq<Queued<Post>>
    var images: seq<Queued<ImageFile>>
    /** The ids whose blobs are in the "images" object store of IndexedDB. */
    var storedBlobs: set<string>

    constructor()
      ensures posts == [] && images == [] && storedBlobs == {}
    {
      posts := [];
      images := [];
      storedBlobs := {};
    }

    /** `savePostOffline`: the post joins the end of the queue, unsynced and untried. */
    method SavePostOffline(id: string, post: Post)
      modifies this
      ensures posts == old(posts) + [Queued(id, post, false, 0)]
      ensures images == old(images) && storedBlobs == old(storedBlobs)
    {
      posts := posts + [Queued(id, post, false, 0)];
    }

    /**
     * `saveImageOffline`: the blob goes to IndexedDB, then the metadata to the
     * list. When the IndexedDB write fails, the list is not written.
     */
    method SaveImageOffline(id: string, image: ImageFile, indexedDbFails: bool)
      modifies this
      ensures posts == old(posts)
      ensures indexedDbFails ==> images == old(images) && storedBlobs == old(storedBlobs)
      ensures !indexedDbFails ==> images == SavedImages(old(images), id, image) && storedBlobs == old(storedBlobs) + {id}
    {
      if indexedDbFails {
        return;
      }
      storedBlobs := storedBlobs + {id};
      images := SavedImages(images, id, image);
    }

    /** `syncOfflinePosts`: one pass over the posts; `insert` is the backend's answer to each try. */
    method SyncOfflinePosts(insert: (nat, Queued<Post>) -> Option<string>) returns (synced: nat, errors: seq<string>)
      modifies this
      ensures var r := Pass(old(posts), insert, "Post");
        posts == r.records && synced == r.synced && errors == r.errors
      ensures images == old(images) && storedBlobs == old(storedBlobs)
    {
      var recs;
      recs, synced, errors := RunPass(posts, insert, "Post");
      posts := recs;
    }

    /**
     * `syncOfflineImages`: one pass over the images. A record whose blob is not
     * in IndexedDB fails without an upload; `upload` is the storage's answer to
     * each upload tried.
     */
    method SyncOfflineImages(upload: (nat, Queued<ImageFile>) -> Option<string>) returns (synced: nat, errors: seq<string>)
      modifies this
      ensures var r := Pass(old(images), ImageAttempt(old(storedBlobs), upload), "Image");
        images == r.records && synced == r.synced && errors == r.errors
      ensures posts == old(posts) && storedBlobs == old(storedBlobs)
    {
      var recs;
      recs, synced, errors := RunPass(images, ImageAttempt(storedBlobs, upload), "Image");
      images := recs;
    }

    /** `syncOfflineData`: images first, then posts; image errors come before post errors. */
    method SyncOfflineData(upload: (nat, Queued<ImageFile>) -> Option<string>, insert: (nat, Queued<Post>) -> Option<string>)
      returns (postCount: nat, imageCount: nat, errors: seq<string>)
      modifies this
      ensures var ri := Pass(old(images), ImageAttempt(old(storedBlobs), upload), "Image");
        var rp := Pass(old(posts), insert, "Post");
        && images == ri.records && posts == rp.records && storedBlobs == old(storedBlobs)
        && imageCount == ri.synced && postCount == rp.synced
        && errors == ri.errors + rp.errors
    {
      var imageErrors, postErrors;
      imageCount, imageErrors := SyncOfflineImages(upload);
      postCount, postErrors := SyncOfflinePosts(insert);
      errors := imageErrors + postErrors;
    }

    /** `getPendingSyncCount`: every unsynced record, including those out of retries. */
    function PendingSyncCount(): (counts: (nat, nat))
      reads this
      ensures counts.0 == |Unsynced(posts)| && counts.1 == |Unsynced(images)|
    {
      (|Unsynced(posts)|, |Unsynced(images)|)
    }

    /** `clearSyncedData`: keep only the unsynced records, in order. */
    method ClearSyncedData()
      modifies this
      ensures posts == Unsynced(old(posts)) && images == Unsynced(old(images))
      ensures storedBlobs == old(storedBlobs)
    {
      posts := Unsynced(posts);
      images := Unsynced(images);
    }
  }

  /** The outcome of trying to sync an image: its blob must be stored before it can be uploaded. */
  function ImageAttempt(storedBlobs: set<string>, upload: (nat, Queued<ImageFile>) -> Option<string>): (f: (nat, Queued<ImageFile>) -> Option<string>)
    ensures forall k: nat, x: Queued<ImageFile> :: x.id !in storedBlobs ==> f(k, x) == Some("Error: Image blob not found in IndexedDB")
    ensures forall k: nat, x: Queued<ImageFile> :: x.id in storedBlobs ==> f(k, x) == upload(k, x)
  {
    (k: nat, x: Queued<ImageFile>) =>
      if x.id !in storedBlobs then Some("Error: Image blob not found in IndexedDB") else upload(k, x)
  }

  /** A pass never lifts a retry count to more than three, when none was above three before. */
  lemma PassKeepsRetryBound<T>(q: seq<Queued<T>>, attempt: (nat, Queued<T>) -> Option<string>, kind: string)
    requires forall i :: 0 <= i < |q| ==> q[i].retry_count <= MaxRetryCount
    ensures var r := Pass(q, attempt, kind).records;
      forall i :: 0 <= i < |r| ==> r[i].retry_count <= MaxRetryCount
  {
    PassRecords(q, attempt, kind);
  }

  /** A synced record, or one out of retries, is never tried, so it never changes again. */
  lemma PassSkipsFinished<T>(q: seq<Queued<T>>, attempt: (nat, Queued<T>) -> Option<string>, kind: string, i: int)
    requires 0 <= i < |q| && (q[i].synced || q[i].retry_count >= MaxRetryCount)
    ensures Pass(q, attempt, kind).records[i] == q[i]
  {
    PassRecords(q, attempt, kind);
  }

  /** Clearing twice is clearing once. */
  lemma UnsyncedAppend<T>(q: seq<Queued<T>>, x: Queued<T>)
    ensures Unsynced(q + [x]) == Unsynced(q) + (if x.synced then [] else [x])
  {
    assert (q + [x])[..|q|] == q;
  }

  lemma {:induction false} UnsyncedIdempotent<T>(q: seq<Queued<T>>)
    ensures Unsynced(Unsynced(q)) == Unsynced(q)
  {
    if q != [] {
      var init, x := q[..|q| - 1], q[|q| - 1];
      assert q == init + [x];
      UnsyncedAppend(init, x);
      UnsyncedIdempotent(init);
      if x.synced {
        assert Unsynced(q) == Unsynced(init) + [] == Unsynced(init);
      } else {
        UnsyncedAppend(Unsynced(init), x);
      }
    }
  }

  /** Clearing keeps every pending record, so the pending count is unchanged by it. */
  lemma ClearKeepsPending<T>(q: seq<Queued<T>>)
    ensures |Unsynced(Unsynced(q))| == |Unsynced(q)|
  {
    UnsyncedIdempotent(q);
  }

  /** The records kept by the filter are exactly the unsynced ones. */
  lemma {:induction false} UnsyncedMembers<T>(q: seq<Queued<T>>)
    ensures forall i :: 0 <= i < |Unsynced(q)| ==> Unsynced(q)[i] in q && !Unsynced(q)[i].synced
    ensures forall i :: 0 <= i < |q| && !q[i].synced ==> q[i] in Unsynced(q)
  {
    if q != [] {
      var init, x := q[..|q| - 1], q[|q| - 1];
      assert q == init + [x];
      UnsyncedAppend(init, x);
      UnsyncedMembers(init);
    }
  }

  /** A record that has used up its retries is still counted as pending. */
  lemma ExhaustedStillPending<T>(q: seq<Queued<T>>, i: int)
    requires 0 <= i < |q| && !q[i].synced && q[i].retry_count >= MaxRetryCount
    ensures q[i] in Unsynced(q)
  {
    UnsyncedMembers(q);
  }

  /**
   * As written, saving one image offline queues its metadata twice, so the
   * pending count rises by two and the next pass uploads the same image twice.
   */
  lemma DuplicateImageMetadata(images: seq<Queued<ImageFile>>, id: string, image: ImageFile)
    ensures var r := SavedImagesAsWritten(images, id, image);
      && r[|images|] == r[|images| + 1] == Queued(id, image, false, 0)
      && |Unsynced(r)| == |Unsynced(images)| + 2
    ensures |Unsynced(SavedImages(images, id, image))| == |Unsynced(images)| + 1
  {
    var entry := Queued(id, image, false, 0);
    assert (images + [entry] + [entry])[..|images| + 1] == images + [entry];
    assert (images + [entry])[..|images|] == images;
  }
}
