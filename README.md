# Brand image generator: a verified model of its core

The backend takes a text prompt, and optionally a reference image, to Google's
Gemini image model. It stores the returned image in an S3 bucket and records it
in an `images` table. Users can then list all images, most favourited first, and
toggle favourites. This project models that core in Dafny and proves what the
code promises:

- `ImgService`: walking the optional-heavy `GenerateContentResponse` envelope,
  mapping the MIME type to a file extension, the object key format, the
  quota-error test and retry-hint extraction of `handleApiException`, the input
  guards and save-on-success of the two generate methods, and `getAllImages`
  (in-place sort by favourite count, per-viewer `isFavorited`).
- `UserService`: find-or-create of users, the favourite toggle `saveImage`, the
  delete `removeFavorite`, and the favourites page with its URL fallback.
- `ImageController`: the window of at most five page buttons in `showImageList`,
  and the view attributes of `generateImage`.

The outside world enters as values:

- the outcome of the Gemini call is a `ProviderOutcome` parameter (an envelope,
  an `ApiException` message, or any other failure);
- `UUID.randomUUID()` is a `uuid` parameter, required to be fresh for the bucket;
- whether the S3 put succeeds is a `putSucceeds` parameter;
- the S3 presigner is a function `presigner: PresignRequest -> Option<string>`
  that the service holds, from a bucket, a key and a signature duration to the
  signed URL, where `None` is the null a failed signing returns.

Java `null` and an empty `Optional` are both `Option.None`. The three tables are
sequence fields of a `Database` object. The favourite table is a sequence of rows
(`Favorite(user, image)`), because the entity declares no unique constraint on
the pair. "At most one row per pair" (`FavoriteRows.AtMostOnce`) is therefore an
invariant the toggle keeps, not a property of the storage.

Modules, in dependency order: `Wrappers` (Option), `Strings` (substring and
whitespace predicates), `Sequences` (stream `map`), `Entities`, `FavoriteRows`,
`Repositories` (the tables and finder queries), `GeminiEnvelope`, `ApiErrors`,
`ImageService`, `FavoriteService`, `Controller`.

Some behaviours of the code that the model keeps as written:

- `handleApiException` only classifies and logs. `QuotaExceededException` is
  declared but never thrown, and an `ApiException` makes both generate methods
  return null. The retry hint is never converted to milliseconds; the
  source's `-1` for "no hint" becomes `None`.
- The generate methods reject only a null prompt (plus a null or empty
  attachment); an empty prompt is sent to the provider.
- The two generate methods send different system instructions: the attachment
  one has an extra sentence.
- `saveImage` is a toggle: calling it on a favourited image removes the
  favourite. Nothing enforces one row per (user, image) pair other than the
  sequential toggle itself.

## Model

| member | source | states |
|---|---|---|
| GeminiEnvelope.StandardMimeTypeRoundTrip | backend/src/main/java/com/example/backend/service/ImgService.java:384-394 | the MIME types image/jpeg, image/webp and image/png map back to ".jpg", ".webp" and ".png" |
| GeminiEnvelope.JpegTakesPrecedence | backend/src/main/java/com/example/backend/service/ImgService.java:389-393 | a MIME type containing both "jpeg" and "webp" gets ".jpg": the jpeg test comes first |
| GeminiEnvelope.FirstImage | backend/src/main/java/com/example/backend/service/ImgService.java:374-421 | there is no payload exactly when no part has inline data with bytes |
| GeminiEnvelope.FirstImageIsFirstCarrier | backend/src/main/java/com/example/backend/service/ImgService.java:374-418 | the payload is that of the first part with inline data and bytes; earlier parts, including inline data without bytes, are skipped |
| GeminiEnvelope.ImagePayload | backend/src/main/java/com/example/backend/service/ImgService.java:338-368 | no payload when candidates are absent or empty, or the first candidate has no content, or the content has no parts |
| GeminiEnvelope.OnlyFirstCandidateMatters | backend/src/main/java/com/example/backend/service/ImgService.java:352 | candidates after the first never change the stored payload |
| GeminiEnvelope.JpegInSecondPart | backend/src/main/java/com/example/backend/service/ImgService.java:374-402 | a text part followed by a JPEG part gives that part's bytes with ".jpg" |
| ApiErrors.PatternMatchIsGreedyRun | backend/src/main/java/com/example/backend/service/ImgService.java:128 | a match of `Please retry in ([\d.]+)s` at a given offset is unique and ends after the longest run of digits and dots |
| ApiErrors.FindRetryFrom | backend/src/main/java/com/example/backend/service/ImgService.java:129-131 | `find()` gives nothing exactly when no offset matches, else the capture of the leftmost match |
| ApiErrors.ExtractRetryAfterSeconds | backend/src/main/java/com/example/backend/service/ImgService.java:126-134 | no delay (-1) for a null message or one without the pattern; otherwise the leftmost match's digits and dots |
| ApiErrors.HandleApiException | backend/src/main/java/com/example/backend/service/ImgService.java:438-448 | a quota error exactly when the message is non-null and contains "429", "quota" or "Quota exceeded"; it then carries the extracted delay |
| ApiErrors.NoRetryHintWithoutP | backend/src/main/java/com/example/backend/service/ImgService.java:126-134 | a message without the letter P has no retry hint |
| ApiErrors.RetryHintOfQuotaMessage | backend/src/main/java/com/example/backend/service/ImgService.java:126-134 | the hint of "…Please retry in <digits>s" is those digits, when the text before the pattern has no letter P (so no earlier offset can match) |
| ApiErrors.QuotaReportWithHint | backend/src/main/java/com/example/backend/service/ImgService.java:442-446 | a message "429", then text without the letter P, then a retry hint is a quota error with that hint |
| ApiErrors.QuotaErrorWithRetryHint | backend/src/main/java/com/example/backend/service/ImgService.java:442-446 | "429 Quota exceeded. Please retry in 12.5s" is a quota error with delay "12.5" |
| ApiErrors.QuotaErrorWithoutRetryHint | backend/src/main/java/com/example/backend/service/ImgService.java:442-446 | "Quota exceeded" is a quota error without a delay |
| ApiErrors.ServerErrorIsNotQuota | backend/src/main/java/com/example/backend/service/ImgService.java:442-445 | "500 internal error" is not a quota error |
| ImageService.ObjectKey | backend/src/main/java/com/example/backend/service/ImgService.java:67 | the object key is the UUID, then "_", then the file name: it starts with "<uuid>_" and the rest is exactly the file name |
| ImageService.StoredKey | backend/src/main/java/com/example/backend/service/ImgService.java:193-210 | a key comes back exactly when the provider answered with an image and the put succeeded; an ApiException or other failure gives null |
| ImageService.ImgService.SaveBinaryFile | backend/src/main/java/com/example/backend/service/ImgService.java:63-87 | stores the bytes under "<uuid>_<fileName>" and returns that key, or stores nothing and returns null when the put fails; one put attempt either way |
| ImageService.ImgService.ProcessResponse | backend/src/main/java/com/example/backend/service/ImgService.java:333-428 | returns the key of the payload `ImagePayload` picks, stores exactly that object, and attempts one put when there is a payload and none otherwise |
| ImageService.ImgService.RequestAndRecord | backend/src/main/java/com/example/backend/service/ImgService.java:193-210 | records the provider request; returns the key `StoredKey` gives; stores the payload under that fresh key and nothing else, attempting one put exactly when the answer carries an image; appends an image row (key, prompt, creator) exactly when a key came back; keeps the repository invariant |
| ImageService.ImgService.GenerateImage | backend/src/main/java/com/example/backend/service/ImgService.java:143-220 | a null prompt gives null with no request and no put; otherwise one text request, the key `StoredKey` gives, one put attempt exactly when the answer carries an image; the payload is stored under the fresh key, and a row saved, exactly when the key is non-null, and the bucket is unchanged otherwise |
| ImageService.ImgService.GenerateImageWithAttachment | backend/src/main/java/com/example/backend/service/ImgService.java:230-319 | a null prompt or a null or empty attachment gives null with no request and no put; the MIME type defaults to image/jpeg; the payload is stored under the fresh key, and a row saved, exactly when the key is non-null, and the bucket is unchanged otherwise |
| ImageService.ImgService.GenerateS3Url | backend/src/main/java/com/example/backend/service/ImgService.java:96-121 | the URL is what the presigner gives for the key's object in the service's bucket with a one-hour signature; null when signing fails |
| ImageService.ListEntry | backend/src/main/java/com/example/backend/service/ImgService.java:489-503 | a null favourite list counts 0 and is never favourited; favourited only for a non-blank viewer |
| ImageService.FavoritedIffRow | backend/src/main/java/com/example/backend/service/ImgService.java:489-494 | an image is shown favourited exactly when the viewer is non-null and non-blank and has a favourite row for it |
| ImageService.ListingOfPermutation | backend/src/main/java/com/example/backend/service/ImgService.java:486-505 | mapping a permutation of the images gives a permutation of the entries |
| ImageService.SortBySaveCountDesc | backend/src/main/java/com/example/backend/service/ImgService.java:479-483 | sorts the array in place by favourite count, highest first, as a permutation of its contents |
| ImageService.SortedListing | backend/src/main/java/com/example/backend/service/ImgService.java:478-505 | the entries are a permutation of the mapped images with non-increasing save counts |
| ImageService.ImgService.GetAllImages | backend/src/main/java/com/example/backend/service/ImgService.java:475-506 | one entry per image row, save counts non-increasing, a permutation of the entries of `findAll` |
| Repositories.FindByS3Key | backend/src/main/java/com/example/backend/service/UserService.java:48 | finds an image exactly when one has the key; the result is a stored image with that key |
| Repositories.FindByEmail | backend/src/main/java/com/example/backend/service/UserService.java:49 | finds a user exactly when one has the email |
| FavoriteRows.RemovePair | backend/src/main/java/com/example/backend/service/UserService.java:113 | after the delete the pair has no row |
| FavoriteRows.RemovePairKeepsOthers | backend/src/main/java/com/example/backend/service/UserService.java:113 | the delete keeps every other pair's rows and at most one row per pair |
| FavoriteRows.RemoveAbsentPair | backend/src/main/java/com/example/backend/service/UserService.java:113 | deleting a pair without rows changes nothing |
| FavoriteRows.RemovePairIdempotent | backend/src/main/java/com/example/backend/service/UserService.java:108-115 | deleting twice is deleting once |
| FavoriteRows.Toggle | backend/src/main/java/com/example/backend/service/UserService.java:51-59 | the pair is present afterwards exactly when it was absent before |
| FavoriteRows.ToggleKeepsOthers | backend/src/main/java/com/example/backend/service/UserService.java:51-58 | a toggle keeps every other pair's rows and at most one row per pair |
| FavoriteRows.ToggleTwiceFromAbsent | backend/src/main/java/com/example/backend/service/UserService.java:51-59 | two toggles of an absent pair restore the exact rows |
| FavoriteRows.ToggleTwiceRestores | backend/src/main/java/com/example/backend/service/UserService.java:51-59 | with at most one row per pair, two toggles restore the same rows (as a multiset) |
| FavoriteRows.RemoveSingleRowCount | backend/src/main/java/com/example/backend/service/UserService.java:52 | deleting a pair with one row removes one row from each selection containing it and none from any other |
| FavoriteRows.ToggleCount | backend/src/main/java/com/example/backend/service/UserService.java:51-59 | a toggle moves every count that includes the pair by exactly one, up or down, and leaves other counts alone |
| FavoriteRows.ToggleParity | backend/src/main/java/com/example/backend/service/UserService.java:51-59 | after n toggles the pair is present exactly when it started present and n is even, or started absent and n is odd |
| FavoriteRows.ToggleTimesKeepsOthers | backend/src/main/java/com/example/backend/service/UserService.java:51-58 | any number of toggles keeps other pairs' rows and at most one row per pair |
| FavoriteService.DisplayUrl | backend/src/main/java/com/example/backend/service/UserService.java:96-99 | the presigned URL when there is one, else "/download/" followed by the key |
| FavoriteService.FavoritesListing | backend/src/main/java/com/example/backend/service/UserService.java:71-91 | nothing for an unknown email; otherwise one favourited entry per row of the user, in order, with the image's fields, count and display URL |
| FavoriteService.UserService.GetUserFavorites | backend/src/main/java/com/example/backend/service/UserService.java:71-91 | nothing for an unknown email; otherwise one favourited entry per favourite row of the user, in order, with the image's key and its presigned URL or the download route |
| FavoriteService.FavoritesAreTheUsersImages | backend/src/main/java/com/example/backend/service/UserService.java:78-90 | the keys on a user's favourites page are exactly those of the images the user has a row for |
| FavoriteService.FavoritesAgreeWithListing | backend/src/main/java/com/example/backend/service/UserService.java:80-87 | each favourite also shows as favourited, with the same count, in the full listing seen by that user |
| FavoriteService.UserService.CreateUser | backend/src/main/java/com/example/backend/service/UserService.java:27-37 | returns the email; adds a user only when none has that email; emails stay unique |
| FavoriteService.UserService.SaveImage | backend/src/main/java/com/example/backend/service/UserService.java:47-63 | with both image and user found, toggles their pair and returns the image; otherwise changes nothing and returns null; keeps the invariant |
| FavoriteService.UserService.RemoveFavorite | backend/src/main/java/com/example/backend/service/UserService.java:108-115 | with both found, deletes the pair's rows; otherwise changes nothing; keeps the invariant |
| FavoriteService.SaveImageCountsMoveByOne | backend/src/main/java/com/example/backend/service/UserService.java:51-59 | a toggle moves the image's count and the user's count of favourites by exactly one, and leaves other images' counts alone |
| Controller.ButtonsFor | backend/src/main/java/com/example/backend/controller/ImageController.java:159-165 | one button per page of the window, numbered from its start, each linking to its page number less one |
| Controller.WindowBounds | backend/src/main/java/com/example/backend/controller/ImageController.java:151-157 | the window starts at page 1 or later, ends at the last page or earlier, and spans at most five pages |
| Controller.ButtonCount | backend/src/main/java/com/example/backend/controller/ImageController.java:151-165 | there are min(totalPages, 5) buttons for any page index; with fewer than five pages they are 1 through totalPages; none for no pages |
| Controller.ButtonsConsecutive | backend/src/main/java/com/example/backend/controller/ImageController.java:159-165 | the buttons are consecutive and ascending, and each page number is the display number less one |
| Controller.CurrentPageMarkedOnce | backend/src/main/java/com/example/backend/controller/ImageController.java:159-164 | an existing current page lies in the window and is the only button marked current |
| Controller.PageNumbers | backend/src/main/java/com/example/backend/controller/ImageController.java:150-165 | the clamp, the re-adjustment and the loop produce exactly the buttons of the closed-form window |
| Controller.PageContentAttributes | backend/src/main/java/com/example/backend/controller/ImageController.java:167-180 | the page's entries, the 1-based current page, the totals, and hasPagination exactly when there is more than one page |
| Controller.NavigationAttributes | backend/src/main/java/com/example/backend/controller/ImageController.java:173-179 | previous and next page are the index minus and plus one, first page 0, last page totalPages - 1, and the page buttons |
| Controller.ShowImageList | backend/src/main/java/com/example/backend/controller/ImageController.java:134-183 | exactly the fourteen list attributes, with the window's buttons and the derived page numbers |
| Controller.CreatorEmail | backend/src/main/java/com/example/backend/controller/ImageController.java:63 | the form's email when it has text, otherwise the guest label; the recorded creator always has text |
| Controller.ImageController.GenerateImage | backend/src/main/java/com/example/backend/controller/ImageController.java:50-103 | uses the attachment variant exactly when a non-empty attachment came; success exactly when a key came back, then the key, the display URL and the success message; else the failure message; always the prompt; the bucket gains exactly the payload under the new key, or is unchanged |

## Left out

- The Gemini `Client` construction, the `generateContent` call and the system-instruction text: the call is the `ProviderOutcome` parameter, and the instruction is a tag that tells the two texts apart.
- S3 `putObject`, `presignGetObject` and `downloadImage`: AWS SDK input and output. They are a put outcome flag and a presigning function of the request, and downloading is not modelled.
- `UUID.randomUUID()`: the model takes the UUID as a parameter and requires that no stored key already starts with it.
- `ApiErrors.ExtractRetryAfterSeconds`: returns the captured digits and dots instead of `Double.parseDouble` of them. Floating point is not modelled, and neither is the exception a capture such as "1.2.3" would raise.
- `getPagedImages`: it is not in the modelled service. Its `Page` result is the `ImagePage` parameter of `ShowImageList`, so `images`, `totalCount`, `hasPrevious` and `hasNext` are copied from it as given.
- `ImageService.ImgService.GenerateImageWithAttachment`: the `IOException` of `getBytes()` is not modelled. The bytes are part of the `Attachment` value.
- `ImageService.ImgService.GetAllImages`: states a permutation sorted by count, not the stability of Java's `List.sort`. The insertion sort moves an entry only past strictly smaller ones, but stability is not proved.
- Exceptions from `imageRepository.save` and the other repository calls: the tables never fail in the model.
- Controller.ImageController.GenerateImage: does not model the exceptions that escape the generate methods and reach the controller's `catch (Exception)` (ImageController.java:94-98), which sets success to false and the message to "오류 발생: " plus the exception's message. Two paths lead there: the `NumberFormatException` of `Double.parseDouble` (ImgService.java:131), which `handleApiException` raises from inside the `catch (ApiException)` block for a capture such as "1.2.3", and an exception of `Client.builder()` (ImgService.java:147-149, 234-236), which runs outside the `try`. The model reports `FailureMessage` for an `ApiException` whatever its capture. The `QuotaExceededException` catch (ImageController.java:87-92) is unreachable, because nothing throws that exception.
- Controller.ShowImageList: the key set it states leaves out the "User" attribute that `authHelper.checkLogin` adds for a logged-in viewer (AuthHelper.java:44).
- Controller.ImageController.GenerateImage: the key set it states likewise leaves out the "User" attribute that `authHelper.checkLogin` adds for a logged-in viewer.
- Java `int` and `long` overflow of page numbers and counts: integers are unbounded.
- `@Transactional` and concurrent requests: calls are modelled one at a time.
- Logging, OAuth2 and the security configuration: they do not affect the modelled results.
- Surrogate ids: users are identified by email and images by key, which the repository invariant makes unique.

