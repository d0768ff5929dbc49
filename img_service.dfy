/**
 * `ImgService`: asks Gemini for an image, walks the response envelope, stores the
 * first image in the S3 bucket and records an `Image` row; and lists all images,
 * most-favourited first. The outside world is given to each method as an oracle
 * value: the outcome of the Gemini call, the UUID drawn for the object key, and
 * whether the S3 put succeeds. The presigner is a function the service holds.
 */
module ImageService {
  import opened Wrappers
  import opened Strings
  import opened Entities
  import opened FavoriteRows
  import opened Repositories
  import opened GeminiEnvelope
  import opened ApiErrors
  import opened Sequences

  const ModelName: string := "gemini-3-pro-image-preview"
  const FileBaseName: string := "generated_image"
  const DefaultAttachmentMimeType: string := "image/jpeg"

  /**
   * The fixed brand-styling system instruction. The two generate methods send
   * different texts (the attachment one has one more sentence); the text itself
   * is not modelled.
   */
  datatype SystemInstruction = TextPromptInstruction | AttachmentInstruction

  datatype RequestPart = TextPart(text: string) | BytesPart(bytes: seq<byte>, mimeType: string)

  /** One `generateContent` call: the model, the parts of the single user turn, the system instruction. */
  datatype ProviderRequest = ProviderRequest(model: string, userParts: seq<RequestPart>, instruction: SystemInstruction)

  /** What `generateContent` did: returned an envelope, threw an `ApiException` with a message, or threw anything else. */
  datatype ProviderOutcome =
    | Responded(response: GenerateContentResponse)
    | ApiFailure(message: Option<string>)
    | OtherFailure

  /** How long a presigned URL stays valid: one hour, in seconds. */
  const SignatureDurationSeconds: nat := 3600

  /** A `GetObjectPresignRequest`: the object's bucket and key, and how long the signature lasts. */
  datatype PresignRequest = PresignRequest(bucket: string, key: string, signatureDurationSeconds: nat)

  /** Whether the provider's answer carries an image, so that a put is attempted. */
  predicate PutAttempted(outcome: ProviderOutcome) {
    outcome.Responded? && ImagePayload(outcome.response).Some?
  }

  /** An uploaded `MultipartFile`: its bytes and its (nullable) content type. */
  datatype Attachment = Attachment(bytes: seq<byte>, contentType: Option<string>)

  /** The object key `saveBinaryFile` stores a file under: the UUID, "_", the file name. */
  function ObjectKey(uuid: string, fileName: string): (key: string)
    ensures StartsWith(key, uuid + "_")
    ensures |key| == |uuid| + 1 + |fileName|
    ensures key[|uuid| + 1..] == fileName
  {
    assert (uuid + "_" + fileName)[..|uuid + "_"|] == uuid + "_";
    uuid + "_" + fileName
  }

  /** The object key of a stored payload: "<uuid>_generated_image" and the extension. */
  function PayloadKey(uuid: string, payload: Payload): string {
    ObjectKey(uuid, FileBaseName + payload.extension)
  }

  /**
   * The key the generate methods return once the provider has answered: the
   * payload's key when the response holds an image and the put succeeds, null
   * otherwise (an `ApiException` or any other failure also gives null).
   */
  function StoredKey(outcome: ProviderOutcome, uuid: string, putSucceeds: bool): (r: Option<string>)
    ensures r.Some? <==> outcome.Responded? && ImagePayload(outcome.response).Some? && putSucceeds
    ensures r.Some? ==> r == Some(PayloadKey(uuid, ImagePayload(outcome.response).value))
  {
    match outcome
    case Responded(response) =>
      (match ImagePayload(response)
       case Some(payload) => if putSucceeds then Some(PayloadKey(uuid, payload)) else None
       case None => None)
    case ApiFailure(message) => None
    case OtherFailure => None
  }

  /** An entry of the listing; the URL is the presigned one, which may be null. */
  function ListEntry(e: ImageEntity, userEmail: Option<string>, presign: string -> Option<string>): (r: ImageListResponse)
    ensures e.userSaveImages.None? ==> r.saveCount == 0 && !r.isFavorited
    ensures r.isFavorited ==> userEmail.Some? && !IsBlankAfterTrim(userEmail.value)
  {
    ImageListResponse(presign(e.row.s3Key), e.row.s3Key, e.row.prompt, SaveCount(e), e.row.creatorEmail,
                      IsFavoritedBy(e, userEmail))
  }

  /**
   * Whether the viewer has favourited the image: never for a null or blank email,
   * otherwise exactly when one of the image's favourite rows belongs to that email.
   */
  predicate IsFavoritedBy(e: ImageEntity, userEmail: Option<string>) {
    if userEmail.None? || IsBlankAfterTrim(userEmail.value) then false
    else e.userSaveImages.Some? &&
         exists k | 0 <= k < |e.userSaveImages.value| :: e.userSaveImages.value[k].user.email == userEmail.value
  }

  /**
   * In the listing of `findAll`, an image shows as favourited exactly when the
   * viewer's email is present and not blank and the (viewer, image) pair has a
   * favourite row.
   */
  lemma FavoritedIffRow(images: seq<ImageRow>, favorites: seq<Favorite>, i: nat, userEmail: Option<string>)
    requires i < |images|
    ensures IsFavoritedBy(FindAll(images, favorites)[i], userEmail)
            <==> userEmail.Some? && !IsBlankAfterTrim(userEmail.value) && Favorite(User(userEmail.value), images[i]) in favorites
  {
    if userEmail.Some? && !IsBlankAfterTrim(userEmail.value) {
      var rows := RowsOfImage(favorites, images[i]);
      var f := Favorite(User(userEmail.value), images[i]);
      if f in favorites {
        assert f in rows;
        var k :| 0 <= k < |rows| && rows[k] == f;
        assert rows[k].user.email == userEmail.value;
      }
      if exists k | 0 <= k < |rows| :: rows[k].user.email == userEmail.value {
        var k :| 0 <= k < |rows| && rows[k].user.email == userEmail.value;
        assert rows[k] in rows;
        assert rows[k] == f;
      }
    }
  }

  /** The stream `map` of `getAllImages`, applied to one entity. */
  function EntryFor(userEmail: Option<string>, presign: string -> Option<string>): ImageEntity -> ImageListResponse {
    e => ListEntry(e, userEmail, presign)
  }

  /** Listing a permutation of the entities gives a permutation of the entries. */
  lemma ListingOfPermutation(xs: seq<ImageEntity>, ys: seq<ImageEntity>, userEmail: Option<string>, presign: string -> Option<string>)
    requires multiset(xs) == multiset(ys)
    ensures multiset(Map(xs, EntryFor(userEmail, presign))) == multiset(Map(ys, EntryFor(userEmail, presign)))
  {
    MapPermutation(xs, ys, EntryFor(userEmail, presign));
  }

  /** Entries in non-increasing order of favourite count. */
  predicate SortedBySaveCount(es: seq<ImageEntity>) {
    forall i, j | 0 <= i < j < |es| :: SaveCount(es[i]) >= SaveCount(es[j])
  }

  /** Swap two cells of the array. */
  method Swap(a: array<ImageEntity>, i: nat, j: nat)
    requires i < a.Length && j < a.Length
    modifies a
    ensures a[i] == old(a[j]) && a[j] == old(a[i])
    ensures forall k | 0 <= k < a.Length && k != i && k != j :: a[k] == old(a[k])
    ensures multiset(a[..]) == old(multiset(a[..]))
  {
    a[i], a[j] := a[j], a[i];
  }

  /**
   * `images.sort(...)` with the comparator `countB.compareTo(countA)`: sorts in
   * place by favourite count, highest first (an insertion sort that only moves
   * an entry past a strictly smaller one).
   */
  method SortBySaveCountDesc(a: array<ImageEntity>)
    modifies a
    ensures SortedBySaveCount(a[..])
    ensures multiset(a[..]) == old(multiset(a[..]))
  {
    var i := 0;
    while i < a.Length
      invariant 0 <= i <= a.Length
      invariant forall p, q | 0 <= p < q < i :: SaveCount(a[p]) >= SaveCount(a[q])
      invariant multiset(a[..]) == old(multiset(a[..]))
    {
      var j := i;
      while j > 0 && SaveCount(a[j - 1]) < SaveCount(a[j])
        invariant 0 <= j <= i
        invariant forall p, q | 0 <= p < q <= i && p != j && q != j :: SaveCount(a[p]) >= SaveCount(a[q])
        invariant forall q | j < q <= i :: SaveCount(a[j]) > SaveCount(a[q])
        invariant multiset(a[..]) == old(multiset(a[..]))
      {
        Swap(a, j - 1, j);
        j := j - 1;
      }
      i := i + 1;
    }
  }

  /** Copy the entities into an array, sort it in place, and return its contents. */
  method SortedBySaveCountDesc(images: seq<ImageEntity>) returns (sorted: seq<ImageEntity>)
    ensures |sorted| == |images|
    ensures SortedBySaveCount(sorted)
    ensures multiset(sorted) == multiset(images)
  {
    var a := new ImageEntity[|images|](i requires 0 <= i < |images| => images[i]);
    assert a[..] == images;
    SortBySaveCountDesc(a);
    sorted := a[..];
  }

  /** Sort the entities by favourite count, highest first, and list them. */
  method SortedListing(images: seq<ImageEntity>, userEmail: Option<string>, presign: string -> Option<string>)
    returns (r: seq<ImageListResponse>)
    ensures |r| == |images|
    ensures forall i, j | 0 <= i < j < |r| :: r[i].saveCount >= r[j].saveCount
    ensures multiset(r) == multiset(Map(images, EntryFor(userEmail, presign)))
  {
    var sorted := SortedBySaveCountDesc(images);
    r := Map(sorted, EntryFor(userEmail, presign));
    ListingOfPermutation(sorted, images, userEmail, presign);
    forall i | 0 <= i < |r|
      ensures r[i].saveCount == SaveCount(sorted[i])
    {
      MapAt(sorted, EntryFor(userEmail, presign), i);
    }
  }

  class ImgService {
    const db: Database
    /** The bucket the service stores into and signs URLs for. */
    const bucketName: string
    /** The S3 presigner: a signed URL for the request, or None when signing throws. */
    const presigner: PresignRequest -> Option<string>
    var bucket: map<string, seq<byte>>
    var requests: seq<ProviderRequest>
    /** How many puts the service has attempted, successful or not. */
    var putAttempts: nat

    /** The repository invariant, and every image row has its object in the bucket. */
    ghost predicate Valid()
      reads this, db
    {
      db.Valid() && forall i | 0 <= i < |db.images| :: db.images[i].s3Key in bucket
    }

    /** What the UUID oracle promises: no stored object key starts with "<uuid>_". */
    ghost predicate FreshUuid(uuid: string)
      reads this
    {
      forall k | k in bucket :: !StartsWith(k, uuid + "_")
    }

    /** A service over the tables and a bucket that already holds every image row's object. */
    constructor (db: Database, bucketName: string, presigner: PresignRequest -> Option<string>,
                 bucket: map<string, seq<byte>>)
      requires db.Valid()
      requires forall i | 0 <= i < |db.images| :: db.images[i].s3Key in bucket
      ensures this.db == db && this.bucketName == bucketName && this.presigner == presigner
      ensures this.bucket == bucket && requests == [] && putAttempts == 0
      ensures Valid()
    {
      this.db := db;
      this.bucketName := bucketName;
      this.presigner := presigner;
      this.bucket := bucket;
      requests := [];
      putAttempts := 0;
    }

    /**
     * `generateS3Url`: ask the presigner for a one-hour signature on the key's
     * object in the service's bucket; null when signing fails.
     */
    function GenerateS3Url(s3Key: string): (url: Option<string>)
      ensures url == presigner(PresignRequest(bucketName, s3Key, SignatureDurationSeconds))
    {
      presigner(PresignRequest(bucketName, s3Key, SignatureDurationSeconds))
    }

    /** `generateS3Url` as a function value, for the listings. */
    function Presign(): string -> Option<string> {
      s3Key => GenerateS3Url(s3Key)
    }

    /**
     * `saveBinaryFile`: put the bytes under "<uuid>_<fileName>" and return that
     * key, or return null and store nothing when the put fails.
     */
    method SaveBinaryFile(fileName: string, fileContent: seq<byte>, uuid: string, putSucceeds: bool)
      returns (s3Key: Option<string>)
      modifies this`bucket, this`putAttempts
      ensures s3Key == if putSucceeds then Some(ObjectKey(uuid, fileName)) else None
      ensures bucket == if putSucceeds then old(bucket)[ObjectKey(uuid, fileName) := fileContent] else old(bucket)
      ensures putAttempts == old(putAttempts) + 1
    {
      var key := ObjectKey(uuid, fileName);
      putAttempts := putAttempts + 1;
      if putSucceeds {
        bucket := bucket[key := fileContent];
        s3Key := Some(key);
      } else {
        s3Key := None;
      }
    }

    /**
     * `processResponse`: walk the envelope level by level, returning null at the
     * first missing level; scan the first candidate's parts in order and store
     * the first one with inline bytes, returning its key (or null if the put
     * fails, without trying later parts).
     */
    method ProcessResponse(response: GenerateContentResponse, uuid: string, putSucceeds: bool)
      returns (s3Key: Option<string>)
      modifies this`bucket, this`putAttempts
      ensures s3Key == StoredKey(Responded(response), uuid, putSucceeds)
      ensures putAttempts == old(putAttempts) + if ImagePayload(response).Some? then 1 else 0
      ensures match ImagePayload(response)
                case None => bucket == old(bucket)
                case Some(payload) =>
                  bucket == if putSucceeds then old(bucket)[PayloadKey(uuid, payload) := payload.data] else old(bucket)
    {
      if response.candidates.None? {
        return None;
      }
      var candidates := response.candidates.value;
      if |candidates| == 0 {
        return None;
      }
      var candidate := candidates[0];
      if candidate.content.None? {
        return None;
      }
      var content := candidate.content.value;
      if content.parts.None? {
        return None;
      }
      var parts := content.parts.value;
      var i := 0;
      while i < |parts|
        invariant 0 <= i <= |parts|
        invariant FirstImage(parts) == FirstImage(parts[i..])
        invariant bucket == old(bucket) && putAttempts == old(putAttempts)
      {
        var part := parts[i];
        assert parts[i..] == [part] + parts[i + 1..];
        if part.inlineData.Some? {
          var blob := part.inlineData.value;
          var fileExtension := ".png";
          if blob.mimeType.Some? {
            var mimeType := blob.mimeType.value;
            if Contains(mimeType, "jpeg") {
              fileExtension := ".jpg";
            } else if Contains(mimeType, "webp") {
              fileExtension := ".webp";
            }
          }
          if blob.data.Some? {
            var fileName := FileBaseName + fileExtension;
            s3Key := SaveBinaryFile(fileName, blob.data.value, uuid, putSucceeds);
            if s3Key.Some? {
              return s3Key;
            } else {
              return None;
            }
          }
        }
        i := i + 1;
      }
      return None;
    }

    /**
     * The common tail of both generate methods: send the request, and when a key
     * comes back record an `Image` row for it. An `ApiException` is classified and
     * logged only; it, and any other failure, gives null.
     */
    method RequestAndRecord(request: ProviderRequest, prompt: string, creatorEmail: string,
                            outcome: ProviderOutcome, uuid: string, putSucceeds: bool)
      returns (s3Key: Option<string>)
      requires Valid() && FreshUuid(uuid)
      modifies this, db`images
      ensures Valid()
      ensures requests == old(requests) + [request]
      ensures s3Key == StoredKey(outcome, uuid, putSucceeds)
      ensures s3Key.Some? ==> s3Key.value !in old(bucket)
      ensures s3Key.Some? ==> bucket == old(bucket)[s3Key.value := ImagePayload(outcome.response).value.data]
      ensures s3Key.None? ==> bucket == old(bucket)
      ensures putAttempts == old(putAttempts) + if PutAttempted(outcome) then 1 else 0
      ensures db.images == if s3Key.Some? then old(db.images) + [ImageRow(s3Key.value, prompt, creatorEmail)] else old(db.images)
    {
      requests := requests + [request];
      match outcome {
        case Responded(response) =>
          s3Key := ProcessResponse(response, uuid, putSucceeds);
          if s3Key.Some? {
            assert s3Key.value !in old(bucket);
            db.images := db.images + [ImageRow(s3Key.value, prompt, creatorEmail)];
          }
        case ApiFailure(message) =>
          var report := HandleApiException(message);
          s3Key := None;
        case OtherFailure =>
          s3Key := None;
      }
    }

    /**
     * `generateImage`: a null prompt gives null without calling the provider;
     * otherwise one request with the prompt as the only user part.
     */
    method GenerateImage(prompt: Option<string>, creatorEmail: string,
                         outcome: ProviderOutcome, uuid: string, putSucceeds: bool)
      returns (s3Key: Option<string>)
      requires Valid() && FreshUuid(uuid)
      modifies this, db`images
      ensures Valid()
      ensures prompt.None? ==> s3Key.None? && requests == old(requests) && putAttempts == old(putAttempts)
      ensures prompt.Some? ==>
                && requests == old(requests) + [ProviderRequest(ModelName, [TextPart(prompt.value)], TextPromptInstruction)]
                && s3Key == StoredKey(outcome, uuid, putSucceeds)
                && putAttempts == old(putAttempts) + if PutAttempted(outcome) then 1 else 0
      ensures s3Key.Some? ==> s3Key.value !in old(bucket)
      ensures s3Key.Some? ==> outcome.Responded? && ImagePayload(outcome.response).Some?
                              && bucket == old(bucket)[s3Key.value := ImagePayload(outcome.response).value.data]
      ensures s3Key.None? ==> bucket == old(bucket)
      ensures db.images == if s3Key.Some? then old(db.images) + [ImageRow(s3Key.value, prompt.value, creatorEmail)] else old(db.images)
    {
      if prompt.None? {
        return None;
      }
      var request := ProviderRequest(ModelName, [TextPart(prompt.value)], TextPromptInstruction);
      s3Key := RequestAndRecord(request, prompt.value, creatorEmail, outcome, uuid, putSucceeds);
    }

    /**
     * `generateImageWithAttachment`: a null prompt or a null or empty attachment
     * gives null without calling the provider; otherwise one request with the
     * prompt and the attachment's bytes, typed "image/jpeg" when the upload has
     * no content type.
     */
    method GenerateImageWithAttachment(prompt: Option<string>, creatorEmail: string, attachImage: Option<Attachment>,
                                       outcome: ProviderOutcome, uuid: string, putSucceeds: bool)
      returns (s3Key: Option<string>)
      requires Valid() && FreshUuid(uuid)
      modifies this, db`images
      ensures Valid()
      ensures prompt.None? || attachImage.None? || |attachImage.value.bytes| == 0 ==>
                s3Key.None? && requests == old(requests) && putAttempts == old(putAttempts)
      ensures prompt.Some? && attachImage.Some? && |attachImage.value.bytes| > 0 ==>
                && requests == old(requests) + [ProviderRequest(ModelName,
                     [TextPart(prompt.value),
                      BytesPart(attachImage.value.bytes, attachImage.value.contentType.GetOr(DefaultAttachmentMimeType))],
                     AttachmentInstruction)]
                && s3Key == StoredKey(outcome, uuid, putSucceeds)
                && putAttempts == old(putAttempts) + if PutAttempted(outcome) then 1 else 0
      ensures s3Key.Some? ==> s3Key.value !in old(bucket)
      ensures s3Key.Some? ==> outcome.Responded? && ImagePayload(outcome.response).Some?
                              && bucket == old(bucket)[s3Key.value := ImagePayload(outcome.response).value.data]
      ensures s3Key.None? ==> bucket == old(bucket)
      ensures db.images == if s3Key.Some? then old(db.images) + [ImageRow(s3Key.value, prompt.value, creatorEmail)] else old(db.images)
    {
      if prompt.None? || attachImage.None? || |attachImage.value.bytes| == 0 {
        return None;
      }
      var imageBytes := attachImage.value.bytes;
      var mimeType := if attachImage.value.contentType.Some? then attachImage.value.contentType.value else DefaultAttachmentMimeType;
      var request := ProviderRequest(ModelName, [TextPart(prompt.value), BytesPart(imageBytes, mimeType)], AttachmentInstruction);
      s3Key := RequestAndRecord(request, prompt.value, creatorEmail, outcome, uuid, putSucceeds);
    }

    /**
     * `getAllImages`: every image, sorted by favourite count, highest first, each
     * listed with its presigned URL and whether the viewer has favourited it.
     */
    method GetAllImages(userEmail: Option<string>) returns (r: seq<ImageListResponse>)
      ensures |r| == |db.images|
      ensures forall i, j | 0 <= i < j < |r| :: r[i].saveCount >= r[j].saveCount
      ensures multiset(r) == multiset(Map(FindAll(db.images, db.favorites), EntryFor(userEmail, Presign())))
    {
      r := SortedListing(FindAll(db.images, db.favorites), userEmail, Presign());
    }
  }
}
