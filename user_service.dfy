/**
 * `UserService`: find-or-create of users, the favourite toggle, the favourite
 * delete, and the listing of one user's favourites with display URLs.
 */
module FavoriteService {
  import opened Wrappers
  import opened Strings
  import opened Sequences
  import opened Entities
  import opened FavoriteRows
  import opened Repositories
  import opened ImageService

  const DownloadRoute: string := "/download/"

  /** `generatePresignedUrl`: the presigned URL, or the download route for the key when signing gave null. */
  function DisplayUrl(presigned: Option<string>, s3Key: string): (url: string)
    ensures presigned.Some? ==> url == presigned.value
    ensures presigned.None? ==> StartsWith(url, DownloadRoute) && url[|DownloadRoute|..] == s3Key
  {
    if presigned.Some? then presigned.value else DownloadRoute + s3Key
  }

  /** One entry of the favourites page: always marked favourited, counted over the image's rows. */
  function FavoriteEntry(g: Favorite, favorites: seq<Favorite>, presign: string -> Option<string>): ImageListResponse {
    var key := g.image.s3Key;
    ImageListResponse(Some(DisplayUrl(presign(key), key)), key, g.image.prompt,
                      |RowsOfImage(favorites, g.image)|, g.image.creatorEmail, true)
  }

  function FavoriteEntryFor(favorites: seq<Favorite>, presign: string -> Option<string>): Favorite -> ImageListResponse {
    g => FavoriteEntry(g, favorites, presign)
  }

  /**
   * `getUserFavorites`: nothing for an unknown email; otherwise one entry per
   * favourite row of the user, in the order of the rows, each marked favourited,
   * with the image's fields, its favourite count and its display URL.
   */
  function FavoritesListing(users: seq<User>, favorites: seq<Favorite>, email: string, presign: string -> Option<string>)
    : (r: seq<ImageListResponse>)
    ensures User(email) !in users ==> r == []
    ensures User(email) in users ==> |r| == |RowsOfUser(favorites, email)|
    ensures User(email) in users ==>
              forall i | 0 <= i < |r| ::
                var image := RowsOfUser(favorites, email)[i].image;
                && r[i].isFavorited
                && r[i].s3Key == image.s3Key
                && r[i].prompt == image.prompt
                && r[i].creatorEmail == image.creatorEmail
                && r[i].saveCount == |RowsOfImage(favorites, image)|
                && r[i].imageUrl == Some(DisplayUrl(presign(image.s3Key), image.s3Key))
  {
    match FindByEmail(users, email)
    case None => []
    case Some(user) =>
      MapAll(RowsOfUser(favorites, user.email), FavoriteEntryFor(favorites, presign));
      Map(RowsOfUser(favorites, user.email), FavoriteEntryFor(favorites, presign))
  }

  /**
   * The favourites page of a known user lists exactly the object keys of the
   * images that user has a favourite row for.
   */
  lemma FavoritesAreTheUsersImages(users: seq<User>, favorites: seq<Favorite>, email: string,
                                   presign: string -> Option<string>, key: string)
    requires User(email) in users
    ensures (exists i | 0 <= i < |FavoritesListing(users, favorites, email, presign)| ::
               FavoritesListing(users, favorites, email, presign)[i].s3Key == key)
            <==> (exists image: ImageRow | image.s3Key == key :: Favorite(User(email), image) in favorites)
  {
    var r := FavoritesListing(users, favorites, email, presign);
    var rows := RowsOfUser(favorites, email);
    if exists i | 0 <= i < |r| :: r[i].s3Key == key {
      var i :| 0 <= i < |r| && r[i].s3Key == key;
      assert rows[i] in rows;
      assert rows[i] == Favorite(User(email), rows[i].image);
    }
    if exists image: ImageRow | image.s3Key == key :: Favorite(User(email), image) in favorites {
      var image: ImageRow :| image.s3Key == key && Favorite(User(email), image) in favorites;
      assert Favorite(User(email), image) in rows;
      var i :| 0 <= i < |rows| && rows[i] == Favorite(User(email), image);
      assert r[i].s3Key == key;
    }
  }

  /**
   * The favourites page and the full listing agree: every image on a user's
   * favourites page shows as favourited, with the same count, when that user
   * views the full listing.
   */
  lemma FavoritesAgreeWithListing(users: seq<User>, images: seq<ImageRow>, favorites: seq<Favorite>, email: string,
                                  presign: string -> Option<string>, i: nat, j: nat)
    requires User(email) in users && !IsBlankAfterTrim(email)
    requires i < |RowsOfUser(favorites, email)| && j < |images|
    requires images[j] == RowsOfUser(favorites, email)[i].image
    ensures ListEntry(FindAll(images, favorites)[j], Some(email), presign).isFavorited
    ensures ListEntry(FindAll(images, favorites)[j], Some(email), presign).saveCount
            == FavoritesListing(users, favorites, email, presign)[i].saveCount
  {
    var rows := RowsOfUser(favorites, email);
    assert rows[i] in rows;
    assert rows[i] == Favorite(User(email), images[j]);
    FavoritedIffRow(images, favorites, j, Some(email));
  }

  class UserService {
    const db: Database
    const imgService: ImgService

    constructor (imgService: ImgService)
      ensures this.imgService == imgService && db == imgService.db
    {
      this.imgService := imgService;
      db := imgService.db;
    }

    /**
     * `createUser`: find the user by email, or save a new one; either way the
     * email is returned and exactly one user has it afterwards.
     */
    method CreateUser(email: string) returns (userEmail: string)
      requires db.Valid()
      modifies db`users
      ensures db.Valid()
      ensures userEmail == email
      ensures db.users == if User(email) in old(db.users) then old(db.users) else old(db.users) + [User(email)]
    {
      var found := FindByEmail(db.users, email);
      var user: User;
      if found.Some? {
        user := found.value;
      } else {
        user := User(email);
        db.users := db.users + [user];
      }
      return user.email;
    }

    /**
     * `saveImage`: when both the image (by key) and the user (by email) exist,
     * delete the pair's rows if it has one and insert one row otherwise, and
     * return the image; when either is missing, change nothing and return null.
     */
    method SaveImage(s3Key: string, email: string) returns (r: Option<ImageRow>)
      requires db.Valid()
      modifies db`favorites
      ensures db.Valid()
      ensures r == if User(email) in db.users then FindByS3Key(db.images, s3Key) else None
      ensures r.None? ==> db.favorites == old(db.favorites)
      ensures r.Some? ==> db.favorites == Toggle(old(db.favorites), Favorite(User(email), r.value))
    {
      var image := FindByS3Key(db.images, s3Key);
      var user := FindByEmail(db.users, email);
      if image.Some? && user.Some? {
        var pair := Favorite(user.value, image.value);
        ToggleKeepsOthers(db.favorites, pair);
        if pair in db.favorites {
          db.favorites := RemovePair(db.favorites, pair);
        } else {
          db.favorites := db.favorites + [pair];
        }
        return image;
      }
      return None;
    }

    /**
     * `removeFavorite`: when both the image and the user exist, delete every row
     * of their pair; otherwise do nothing.
     */
    method RemoveFavorite(s3Key: string, email: string)
      requires db.Valid()
      modifies db`favorites
      ensures db.Valid()
      ensures FindByS3Key(db.images, s3Key).Some? && User(email) in db.users ==>
                db.favorites == RemovePair(old(db.favorites), Favorite(User(email), FindByS3Key(db.images, s3Key).value))
      ensures FindByS3Key(db.images, s3Key).None? || User(email) !in db.users ==> db.favorites == old(db.favorites)
    {
      var image := FindByS3Key(db.images, s3Key);
      var user := FindByEmail(db.users, email);
      if image.Some? && user.Some? {
        RemovePairKeepsOthers(db.favorites, Favorite(user.value, image.value));
        db.favorites := RemovePair(db.favorites, Favorite(user.value, image.value));
      }
    }

    /**
     * `getUserFavorites` over the current tables: nothing for an unknown email,
     * otherwise the user's favourite rows in order, each with the image's key
     * and the URL `generatePresignedUrl` gives for it.
     */
    function GetUserFavorites(email: string): (r: seq<ImageListResponse>)
      reads db
      ensures User(email) !in db.users ==> r == []
      ensures User(email) in db.users ==> |r| == |RowsOfUser(db.favorites, email)|
      ensures User(email) in db.users ==>
                forall i | 0 <= i < |r| ::
                  var key := RowsOfUser(db.favorites, email)[i].image.s3Key;
                  && r[i].isFavorited
                  && r[i].s3Key == key
                  && r[i].imageUrl == Some(DisplayUrl(imgService.GenerateS3Url(key), key))
    {
      FavoritesListing(db.users, db.favorites, email, imgService.Presign())
    }
  }

  /**
   * A `saveImage` toggle moves the toggled image's favourite count, and the
   * user's number of favourites, by exactly one: up when the pair was absent,
   * down when it was present. Every other image keeps its count.
   */
  lemma SaveImageCountsMoveByOne(favorites: seq<Favorite>, user: User, image: ImageRow, other: ImageRow)
    requires AtMostOnce(favorites)
    requires other != image
    ensures |RowsOfImage(Toggle(favorites, Favorite(user, image)), image)|
            == (if Favorite(user, image) in favorites then |RowsOfImage(favorites, image)| - 1
                else |RowsOfImage(favorites, image)| + 1)
    ensures |RowsOfUser(Toggle(favorites, Favorite(user, image)), user.email)|
            == (if Favorite(user, image) in favorites then |RowsOfUser(favorites, user.email)| - 1
                else |RowsOfUser(favorites, user.email)| + 1)
    ensures |RowsOfImage(Toggle(favorites, Favorite(user, image)), other)| == |RowsOfImage(favorites, other)|
  {
    var f := Favorite(user, image);
    ToggleCount(favorites, f, (g: Favorite) => g.image == image);
    ToggleCount(favorites, f, (g: Favorite) => g.user.email == user.email);
    ToggleCount(favorites, f, (g: Favorite) => g.image == other);
  }
}
