/**
 * The three tables behind `UserRepository`, `ImageRepository` and
 * `UserSaveImagesRepository`, their derived finder queries, and the invariant
 * the services keep on them.
 */
module Repositories {
  import opened Wrappers
  import opened Entities
  import opened FavoriteRows

  /** `findByEmail`: the user with that email, if any. */
  function FindByEmail(users: seq<User>, email: string): (r: Option<User>)
    ensures r.Some? <==> User(email) in users
    ensures r.Some? ==> r.value == User(email)
  {
    if User(email) in users then Some(User(email)) else None
  }

  /** `findByS3Key`: the first image stored under that object key, if any. */
  function FindByS3Key(images: seq<ImageRow>, s3Key: string): (r: Option<ImageRow>)
    ensures r.Some? <==> exists i | 0 <= i < |images| :: images[i].s3Key == s3Key
    ensures r.Some? ==> r.value in images && r.value.s3Key == s3Key
  {
    if images == [] then None
    else if images[0].s3Key == s3Key then Some(images[0])
    else FindByS3Key(images[1..], s3Key)
  }

  /** The favourite rows that point at `image` (the entity's `userSaveImages`). */
  function RowsOfImage(favorites: seq<Favorite>, image: ImageRow): seq<Favorite> {
    Filter(favorites, (g: Favorite) => g.image == image)
  }

  /** The favourite rows of the user with `email` (the entity's `userSaveImagesList`). */
  function RowsOfUser(favorites: seq<Favorite>, email: string): seq<Favorite> {
    Filter(favorites, (g: Favorite) => g.user.email == email)
  }

  /** `findAll` on the images table: every row, each with its loaded list of favourite rows. */
  function FindAll(images: seq<ImageRow>, favorites: seq<Favorite>): (r: seq<ImageEntity>)
    ensures |r| == |images|
    ensures forall i | 0 <= i < |r| :: r[i].row == images[i]
    ensures forall i | 0 <= i < |r| :: r[i].userSaveImages == Some(RowsOfImage(favorites, images[i]))
  {
    seq(|images|, i requires 0 <= i < |images| => ImageEntity(images[i], Some(RowsOfImage(favorites, images[i]))))
  }

  class Database {
    var users: seq<User>
    var images: seq<ImageRow>
    var favorites: seq<Favorite>

    /**
     * Emails and object keys identify their rows, no (user, image) pair has two
     * favourite rows, and every favourite row points at a stored user and image.
     */
    ghost predicate Valid()
      reads this
    {
      && (forall i, j | 0 <= i < j < |users| :: users[i] != users[j])
      && (forall i, j | 0 <= i < j < |images| :: images[i].s3Key != images[j].s3Key)
      && AtMostOnce(favorites)
      && (forall g | g in favorites :: g.user in users && g.image in images)
    }

    constructor ()
      ensures Valid()
      ensures users == [] && images == [] && favorites == []
    {
      users, images, favorites := [], [], [];
    }
  }
}
