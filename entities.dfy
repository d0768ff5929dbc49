/**
 * The persistent entities (users, images, favourite rows) and the list-entry value
 * the services hand to the views. Only the fields the core reads are kept; the
 * surrogate ids are left out because, under the repository invariant, a user is
 * identified by its email and an image by its object key.
 */
module Entities {
  import opened Wrappers

  newtype byte = x: int | 0 <= x < 256

  /** A row of the `users` table. */
  datatype User = User(email: string)

  /** A row of the `images` table: the object key in the bucket, the prompt and the creator. */
  datatype ImageRow = ImageRow(s3Key: string, prompt: string, creatorEmail: string)

  /** A row of the `user_save_images` table: one user has favourited one image. */
  datatype Favorite = Favorite(user: User, image: ImageRow)

  /**
   * An `Image` entity as loaded by the repository, with its one-to-many list of
   * favourite rows, which may be null on an entity that was never loaded.
   */
  datatype ImageEntity = ImageEntity(row: ImageRow, userSaveImages: Option<seq<Favorite>>)

  /** One entry of an image listing (`ImageListResponse`). */
  datatype ImageListResponse = ImageListResponse(
    imageUrl: Option<string>,
    s3Key: string,
    prompt: string,
    saveCount: nat,
    creatorEmail: string,
    isFavorited: bool)

  /** The number of favourite rows of an entity; a null list counts as zero. */
  function SaveCount(e: ImageEntity): nat {
    match e.userSaveImages
    case None => 0
    case Some(rows) => |rows|
  }
}
