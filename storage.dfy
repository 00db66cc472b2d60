/** The thumbnail store of the `storage` package: `backend/internal/storage/
    storage.go` and its near-copy `service.go`. Both address a thumbnail by
    the key `thumbnails/<user>/<id>.jpg` and publish it at
    `https://<bucket>.s3.amazonaws.com/<key>`. The S3 bucket is the map
    `objects`; each S3 request's success is an input, and a listing is the
    object summaries S3 returns. */
module Storage {
  import opened Base
  import opened Models

  /** `fmt.Sprintf("thumbnails/%s/", userID)`: the listing prefix of a user. */
  function ListPrefix(userId: string): (prefix: string)
    ensures |prefix| == |userId| + 12
    ensures HasPrefix(prefix, "thumbnails/") && prefix[|prefix| - 1] == '/'
  {
    "thumbnails/" + userId + "/"
  }

  /** `fmt.Sprintf("thumbnails/%s/%s.jpg", userID, id)`: the one key that
      save, get and delete all use for a thumbnail. */
  function ThumbnailKey(userId: string, thumbnailId: string): (key: string)
    ensures HasPrefix(key, ListPrefix(userId)) && HasSuffix(key, ".jpg")
    ensures |key| == |ListPrefix(userId)| + |thumbnailId| + 4
  {
    var key := "thumbnails/" + userId + "/" + thumbnailId + ".jpg";
    assert key == ListPrefix(userId) + thumbnailId + ".jpg";
    key
  }

  /** `fmt.Sprintf("https://%s.s3.amazonaws.com/%s", bucket, key)`. */
  function PublicUrl(bucket: string, key: string): (url: string)
    ensures HasSuffix(url, key) && |url| == |bucket| + |key| + 26
  {
    var url := "https://" + bucket + ".s3.amazonaws.com/" + key;
    assert url[|url| - |key|..] == key;
    url
  }

  /** `key[len(prefix) : len(key)-4]`: the id between the prefix and the
      four-character extension. None where Go's bounds check fails (a key
      shorter than the prefix plus four), which panics. */
  function IdFromKey(key: string, prefix: string): (id: Option<string>)
    ensures id.Some? <==> |key| >= |prefix| + 4
    ensures id.Some? ==> |id.value| == |key| - |prefix| - 4
    ensures id.Some? ==> key == key[..|prefix|] + id.value + key[|key| - 4..]
  {
    if |key| >= |prefix| + 4 then Some(key[|prefix|..|key| - 4]) else None
  }

  /** Slicing a key built for a user with that user's prefix gives back
      exactly the id the key was built from. */
  lemma IdFromKeyRoundTrip(userId: string, thumbnailId: string)
    ensures IdFromKey(ThumbnailKey(userId, thumbnailId), ListPrefix(userId)) == Some(thumbnailId)
  {
  }

  /** Splitting at the first '/': a segment without '/' followed by "/"
      is determined by the string it begins. */
  lemma FirstSegmentUnique(a: string, s: string, b: string, t: string)
    requires '/' !in a && '/' !in b
    requires a + "/" + s == b + "/" + t
    ensures a == b && s == t
  {
    var x := a + "/" + s;
    assert x == b + "/" + t;
    assert x[|a|] == '/' && x[|b|] == '/';
    assert forall i :: 0 <= i < |a| ==> x[i] == a[i] != '/';
    assert forall i :: 0 <= i < |b| ==> x[i] == b[i] != '/';
    assert |a| == |b|;
    assert a == x[..|a|] == b;
    assert s == x[|a| + 1..] == t;
  }

  /** For user ids without '/', distinct (user, id) pairs get distinct keys. */
  lemma ThumbnailKeyInjective(u1: string, id1: string, u2: string, id2: string)
    requires '/' !in u1 && '/' !in u2
    requires ThumbnailKey(u1, id1) == ThumbnailKey(u2, id2)
    ensures u1 == u2 && id1 == id2
  {
    var k := ThumbnailKey(u1, id1);
    assert k == "thumbnails/" + (u1 + "/" + id1) + ".jpg";
    assert k == "thumbnails/" + (u2 + "/" + id2) + ".jpg";
    assert k[11..|k| - 4] == u1 + "/" + id1 == u2 + "/" + id2;
    FirstSegmentUnique(u1, id1, u2, id2);
  }

  /** With a '/' in the user id the scheme is ambiguous: user "a/b" with id
      "c" and user "a" with id "b/c" share a key, and listing user "a" sees
      that object, slicing out the id "b/c". */
  lemma SlashInUserIdCollides()
    ensures ThumbnailKey("a/b", "c") == ThumbnailKey("a", "b/c")
    ensures HasPrefix(ThumbnailKey("a/b", "c"), ListPrefix("a"))
    ensures IdFromKey(ThumbnailKey("a/b", "c"), ListPrefix("a")) == Some("b/c")
  {
  }

  /** An id as `service.go` lists it (the full key), passed back to get or
      delete, addresses a different object from the one listed. */
  lemma FullKeyIdMissesObject(userId: string, thumbnailId: string)
    ensures ThumbnailKey(userId, ThumbnailKey(userId, thumbnailId)) != ThumbnailKey(userId, thumbnailId)
  {
  }

  datatype StoredObject = StoredObject(data: seq<Byte>, contentType: string)

  /** One entry of a `ListObjectsV2` response. */
  datatype ObjectSummary = ObjectSummary(key: string, lastModified: Time)

  /** Errors of the storage code: those made with `fmt.Errorf`, by message,
      and the runtime panic of an out-of-range slice. */
  datatype StorageError = Failed(message: string) | SliceOutOfRange

  /** Every listed key is long enough for the slice of storage.go: the id
      can be sliced out of each one. */
  predicate AllSliceable(contents: seq<ObjectSummary>, userId: string)
    ensures AllSliceable(contents, userId) <==>
              forall k :: 0 <= k < |contents| ==> IdFromKey(contents[k].key, ListPrefix(userId)).Some?
  {
    forall k :: 0 <= k < |contents| ==> |contents[k].key| >= |ListPrefix(userId)| + 4
  }

  /** A listed object as storage.go turns it into a thumbnail: the id sliced
      from the key, the queried user, the URL of the full key. */
  function ListedThumbnail(bucket: string, userId: string, obj: ObjectSummary): (t: Thumbnail)
    requires |obj.key| >= |ListPrefix(userId)| + 4
    ensures IdFromKey(obj.key, ListPrefix(userId)) == Some(t.id)
    ensures t.userId == userId && t.url == PublicUrl(bucket, obj.key) && t.createdAt == obj.lastModified
    ensures t.videoTitle == "" && t.description == "" && t.style == ""
  {
    Thumbnail(obj.key[|ListPrefix(userId)|..|obj.key| - 4], userId, PublicUrl(bucket, obj.key), "", "", "", obj.lastModified)
  }

  /** The thumbnails storage.go returns for a listing it can slice
      throughout: one per object, in order. */
  function Listing(bucket: string, userId: string, contents: seq<ObjectSummary>): (ts: seq<Thumbnail>)
    requires AllSliceable(contents, userId)
    ensures |ts| == |contents|
    ensures forall k :: 0 <= k < |ts| ==> ts[k] == ListedThumbnail(bucket, userId, contents[k])
  {
    seq(|contents|, k requires 0 <= k < |contents| => ListedThumbnail(bucket, userId, contents[k]))
  }

  /** A listed object as service.go turns it into a thumbnail: the id is the
      full key. */
  function ListedByKey(bucket: string, userId: string, obj: ObjectSummary): (t: Thumbnail)
    ensures t.id == obj.key && t.userId == userId && t.url == PublicUrl(bucket, obj.key)
    ensures t.createdAt == obj.lastModified
  {
    Thumbnail(obj.key, userId, PublicUrl(bucket, obj.key), "", "", "", obj.lastModified)
  }

  /** A thumbnail saved under its user and id lists back (storage.go) with
      the same user and id, and with the URL the save set. */
  lemma SavedThumbnailListsBack(bucket: string, t: Thumbnail, lastModified: Time)
    ensures var obj := ObjectSummary(ThumbnailKey(t.userId, t.id), lastModified);
      |obj.key| >= |ListPrefix(t.userId)| + 4
      && ListedThumbnail(bucket, t.userId, obj).id == t.id
      && ListedThumbnail(bucket, t.userId, obj).url == PublicUrl(bucket, ThumbnailKey(t.userId, t.id))
  {
  }

  class StorageService {
    /** The bucket name (`THUMBNAIL_BUCKET`). */
    const bucket: string
    /** The bucket's contents, by key. */
    var objects: map<string, StoredObject>

    constructor (bucket: string, objects: map<string, StoredObject>)
      ensures this.bucket == bucket && this.objects == objects
    {
      this.bucket := bucket;
      this.objects := objects;
    }

    /** `SaveThumbnail`: put the data under the thumbnail's key (outcome
        `putOk`); only after a successful put is `thumbnail.URL` set. */
    method SaveThumbnail(thumbnail: ThumbnailRef, data: seq<Byte>, putOk: bool) returns (err: Option<StorageError>)
      modifies this, thumbnail
      ensures putOk ==> err == None
      ensures putOk ==> objects == old(objects)[ThumbnailKey(old(thumbnail.val).userId, old(thumbnail.val).id)
                                               := StoredObject(data, "image/jpeg")]
      ensures putOk ==> thumbnail.val == old(thumbnail.val).(
                          url := PublicUrl(bucket, ThumbnailKey(old(thumbnail.val).userId, old(thumbnail.val).id)))
      ensures !putOk ==> err == Some(Failed("failed to upload thumbnail"))
      ensures !putOk ==> objects == old(objects) && thumbnail.val == old(thumbnail.val)
    {
      var key := ThumbnailKey(thumbnail.val.userId, thumbnail.val.id);
      if !putOk {
        return Some(Failed("failed to upload thumbnail"));
      }
      objects := objects[key := StoredObject(data, "image/jpeg")];
      thumbnail.val := thumbnail.val.(url := PublicUrl(bucket, key));
      err := None;
    }

    /** `GetThumbnail`: the object under the thumbnail's key; a failed
        request or a missing key is an error. */
    method GetThumbnail(userId: string, thumbnailId: string, getOk: bool) returns (r: Result<seq<Byte>, StorageError>)
      ensures (getOk && ThumbnailKey(userId, thumbnailId) in objects) ==>
                r == Ok(objects[ThumbnailKey(userId, thumbnailId)].data)
      ensures !(getOk && ThumbnailKey(userId, thumbnailId) in objects) ==>
                r == Err(Failed("failed to get thumbnail"))
    {
      var key := ThumbnailKey(userId, thumbnailId);
      if !getOk || key !in objects {
        return Err(Failed("failed to get thumbnail"));
      }
      return Ok(objects[key].data);
    }

    /** `DeleteThumbnail`: remove the thumbnail's key (S3 accepts deleting
        a key that is absent). */
    method DeleteThumbnail(userId: string, thumbnailId: string, deleteOk: bool) returns (err: Option<StorageError>)
      modifies this
      ensures deleteOk ==> err == None && objects == old(objects) - {ThumbnailKey(userId, thumbnailId)}
      ensures !deleteOk ==> err == Some(Failed("failed to delete thumbnail")) && objects == old(objects)
    {
      if !deleteOk {
        return Some(Failed("failed to delete thumbnail"));
      }
      objects := objects - {ThumbnailKey(userId, thumbnailId)};
      err := None;
    }

    /** `ListUserThumbnails` of storage.go over the response `listing` to
        a prefix query (None when the request fails): one thumbnail per
        listed object, in order, unless some key is too short to slice. */
    method ListUserThumbnails(userId: string, listing: Option<seq<ObjectSummary>>)
      returns (r: Result<seq<Thumbnail>, StorageError>)
      ensures listing.None? ==> r == Err(Failed("failed to list thumbnails"))
      ensures listing.Some? && !AllSliceable(listing.value, userId) ==> r == Err(SliceOutOfRange)
      ensures listing.Some? && AllSliceable(listing.value, userId) ==>
                r == Ok(Listing(bucket, userId, listing.value))
    {
      if listing.None? {
        return Err(Failed("failed to list thumbnails"));
      }
      var contents := listing.value;
      var prefix := ListPrefix(userId);
      var thumbnails: seq<Thumbnail> := [];
      var i := 0;
      while i < |contents|
        invariant 0 <= i <= |contents|
        invariant |thumbnails| == i
        invariant forall k :: 0 <= k < i ==> |contents[k].key| >= |prefix| + 4
        invariant forall k :: 0 <= k < i ==> thumbnails[k] == ListedThumbnail(bucket, userId, contents[k])
      {
        var key := contents[i].key;
        if |key| < |prefix| + 4 {
          return Err(SliceOutOfRange);
        }
        var id := key[|prefix|..|key| - 4];
        thumbnails := thumbnails + [Thumbnail(id, userId, PublicUrl(bucket, key), "", "", "", contents[i].lastModified)];
        i := i + 1;
      }
      assert thumbnails == Listing(bucket, userId, contents);
      return Ok(thumbnails);
    }

    /** `ListUserThumbnails` of service.go: the same walk, keeping each full
        key as the thumbnail's id; it cannot panic. */
    method ListUserThumbnailsByKey(userId: string, listing: Option<seq<ObjectSummary>>)
      returns (r: Result<seq<Thumbnail>, StorageError>)
      ensures listing.None? ==> r == Err(Failed("failed to list thumbnails"))
      ensures listing.Some? ==>
                r.Ok? && |r.value| == |listing.value|
                && forall k :: 0 <= k < |r.value| ==> r.value[k] == ListedByKey(bucket, userId, listing.value[k])
    {
      if listing.None? {
        return Err(Failed("failed to list thumbnails"));
      }
      var contents := listing.value;
      var thumbnails: seq<Thumbnail> := [];
      var i := 0;
      while i < |contents|
        invariant 0 <= i <= |contents|
        invariant |thumbnails| == i
        invariant forall k :: 0 <= k < i ==> thumbnails[k] == ListedByKey(bucket, userId, contents[k])
      {
        var key := contents[i].key;
        thumbnails := thumbnails + [Thumbnail(key, userId, PublicUrl(bucket, key), "", "", "", contents[i].lastModified)];
        i := i + 1;
      }
      return Ok(thumbnails);
    }
  }
}
