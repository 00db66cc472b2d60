/** The record shapes of `internal/models/thumbnail.go`: the generation
    request, the thumbnail, and the user record the credits ledger stores,
    plus `NewThumbnail`. The Go code passes thumbnails and users around by
    pointer and updates their fields in place; `ThumbnailRef` and `UserRef`
    are those pointers. */
module Models {
  import opened Base

  datatype ThumbnailRequest = ThumbnailRequest(
    userId: string,
    videoTitle: string,
    description: string,
    style: string,
    createdAt: Time)

  datatype Thumbnail = Thumbnail(
    id: string,
    userId: string,
    url: string,
    videoTitle: string,
    description: string,
    style: string,
    createdAt: Time)

  /** One row of the users table. `credits` is a DynamoDB number, so the
      table itself may hold values outside Go's `int`; readers check. */
  datatype User = User(
    id: string,
    email: string,
    plan: string,
    credits: int,
    createdAt: Time)

  /** The request fields a thumbnail carries, with the given request time. */
  function RequestOf(t: Thumbnail, at: Time): ThumbnailRequest {
    ThumbnailRequest(t.userId, t.videoTitle, t.description, t.style, at)
  }

  /** `NewThumbnail`: the id comes from a fresh UUID and the creation time
      from the clock (both passed in here); the request's own `createdAt`
      is not used and the URL starts empty. */
  function NewThumbnail(req: ThumbnailRequest, freshId: string, now: Time): (t: Thumbnail)
    ensures RequestOf(t, req.createdAt) == req
    ensures t.id == freshId && t.createdAt == now && t.url == ""
  {
    Thumbnail(freshId, req.userId, "", req.videoTitle, req.description, req.style, now)
  }

  /** Two requests that differ only in `createdAt` make the same thumbnail. */
  lemma NewThumbnailIgnoresRequestTime(req: ThumbnailRequest, other: Time, freshId: string, now: Time)
    ensures NewThumbnail(req.(createdAt := other), freshId, now) == NewThumbnail(req, freshId, now)
  {
  }

  /** A `*models.Thumbnail`: a thumbnail value that callees overwrite in place. */
  class ThumbnailRef {
    var val: Thumbnail

    constructor (t: Thumbnail)
      ensures val == t
    {
      val := t;
    }
  }

  /** A `*models.User`: a user value that callees overwrite in place. */
  class UserRef {
    var val: User

    constructor (u: User)
      ensures val == u
    {
      val := u;
    }
  }
}
