/**
 * `ImageController`: the page-number window of the image list, and the view
 * attributes the generate form is answered with.
 */
module Controller {
  import opened Wrappers
  import opened Strings
  import opened Entities
  import opened Repositories
  import opened GeminiEnvelope
  import opened ImageService
  import opened FavoriteService

  const GuestEmail: string := "비회원"
  const SuccessMessage: string := "이미지 생성 성공!"
  const FailureMessage: string := "이미지 생성에 실패했습니다."
  const WindowSize: nat := 5

  /** The names the view model's attributes are added under, spelled as in the templates. */
  datatype AttrName =
    | images | currentPage | totalPages | totalCount | hasPrevious | hasNext | previousPage | nextPage
    | firstPage | lastPage | showFirstPage | showLastPage | pageNumbers | hasPagination
    | success | s3Key | imageUrl | message | prompt

  /** A value put into the view model by `model.addAttribute`. */
  datatype Attr =
    | Flag(flag: bool)
    | Number(number: int)
    | Text(text: string)
    | Buttons(buttons: seq<PageButton>)
    | Entries(entries: seq<ImageListResponse>)

  /** One page-number button: the 0-based page for the URL, the 1-based number shown, whether it is the current page. */
  datatype PageButton = PageButton(pageNumber: int, displayNumber: int, isCurrentPage: bool)

  /** The `Page` that `getPagedImages` answers with, taken as given. */
  datatype ImagePage = ImagePage(
    content: seq<ImageListResponse>,
    number: nat,
    totalPages: nat,
    totalElements: nat,
    hasPrevious: bool,
    hasNext: bool)

  /**
   * Where the window of page buttons starts, stated without the clamp-and-retry
   * of the controller: at page 1 when there are fewer than five pages, otherwise
   * two before the current page, but no earlier than page 1 and no later than
   * the fifth-to-last page.
   */
  function WindowStart(currentPageDisplay: int, totalPages: nat): int {
    if totalPages < WindowSize then 1
    else Min(Max(1, currentPageDisplay - 2), totalPages - 4)
  }

  /** Where the window ends: at the last page when there are fewer than five pages, otherwise four after its start. */
  function WindowEnd(currentPageDisplay: int, totalPages: nat): int {
    if totalPages < WindowSize then totalPages else WindowStart(currentPageDisplay, totalPages) + 4
  }

  function Max(a: int, b: int): int { if a >= b then a else b }
  function Min(a: int, b: int): int { if a <= b then a else b }

  /** The buttons for the pages `start` through `end`, marking `currentPageDisplay`. */
  function ButtonsFor(start: int, end: int, currentPageDisplay: int): (r: seq<PageButton>)
    ensures |r| == if end < start then 0 else end - start + 1
    ensures forall k | 0 <= k < |r| ::
              r[k] == PageButton(start + k - 1, start + k, start + k == currentPageDisplay)
    decreases end - start
  {
    if end < start then [] else ButtonsFor(start, end - 1, currentPageDisplay) + [PageButton(end - 1, end, end == currentPageDisplay)]
  }

  /** The buttons `showImageList` puts under AttrName.pageNumbers. */
  function PageButtons(currentPageDisplay: int, totalPages: nat): seq<PageButton> {
    ButtonsFor(WindowStart(currentPageDisplay, totalPages), WindowEnd(currentPageDisplay, totalPages), currentPageDisplay)
  }

  /** The window lies within the pages that exist and spans at most five pages. */
  lemma WindowBounds(currentPageIndex: nat, totalPages: nat)
    ensures WindowStart(currentPageIndex + 1, totalPages) >= 1
    ensures WindowEnd(currentPageIndex + 1, totalPages) <= totalPages
    ensures WindowEnd(currentPageIndex + 1, totalPages) - WindowStart(currentPageIndex + 1, totalPages) <= 4
  {
  }

  /**
   * There are always as many buttons as pages, up to five, whatever the page
   * index; with fewer than five pages the buttons are pages 1 through the last,
   * and with none there are no buttons.
   */
  lemma ButtonCount(currentPageIndex: nat, totalPages: nat)
    ensures |PageButtons(currentPageIndex + 1, totalPages)| == Min(totalPages, WindowSize)
    ensures var b := PageButtons(currentPageIndex + 1, totalPages);
            totalPages < WindowSize ==> forall k | 0 <= k < |b| :: b[k].displayNumber == k + 1
    ensures totalPages == 0 ==> PageButtons(currentPageIndex + 1, totalPages) == []
  {
  }

  /** The buttons are consecutive, ascending, and each links to its own page number less one. */
  lemma ButtonsConsecutive(currentPageIndex: nat, totalPages: nat)
    ensures var b := PageButtons(currentPageIndex + 1, totalPages);
            && (forall k | 0 <= k < |b| :: b[k].pageNumber == b[k].displayNumber - 1)
            && (forall k | 0 <= k < |b| - 1 :: b[k + 1].displayNumber == b[k].displayNumber + 1)
  {
  }

  /**
   * When the current page exists, its button is in the window and it is the only
   * button marked current.
   */
  lemma {:induction false} CurrentPageMarkedOnce(currentPageIndex: nat, totalPages: nat)
    requires currentPageIndex < totalPages
    ensures var b := PageButtons(currentPageIndex + 1, totalPages);
            exists k | 0 <= k < |b| :: b[k].isCurrentPage && b[k].displayNumber == currentPageIndex + 1
              && forall m | 0 <= m < |b| && b[m].isCurrentPage :: m == k
  {
    var d := currentPageIndex + 1;
    var b := PageButtons(d, totalPages);
    var start := WindowStart(d, totalPages);
    assert start <= d <= WindowEnd(d, totalPages);
    var k := d - start;
    assert b[k].isCurrentPage && b[k].displayNumber == d;
  }

  /**
   * The page-button loop of `showImageList`: clamp the window to the pages that
   * exist, widen it back to five at the end of the range, and list its buttons.
   */
  method PageNumbers(currentPageDisplay: int, totalPages: nat) returns (pageNumbers: seq<PageButton>)
    ensures pageNumbers == PageButtons(currentPageDisplay, totalPages)
  {
    pageNumbers := [];
    var startPage := Max(1, currentPageDisplay - 2);
    var endPage := Min(totalPages, startPage + 4);
    if endPage - startPage < 4 {
      startPage := Max(1, endPage - 4);
    }
    assert startPage == WindowStart(currentPageDisplay, totalPages);
    assert endPage == WindowEnd(currentPageDisplay, totalPages);

    var i := startPage;
    while i <= endPage
      invariant startPage <= i <= Max(startPage, endPage + 1)
      invariant pageNumbers == ButtonsFor(startPage, i - 1, currentPageDisplay)
      decreases endPage - i
    {
      pageNumbers := pageNumbers + [PageButton(i - 1, i, i == currentPageDisplay)];
      i := i + 1;
    }
  }

  /** The attributes of `showImageList` that copy the page: its entries, its number and its sizes. */
  method PageContentAttributes(imagePage: ImagePage) returns (model: map<AttrName, Attr>)
    ensures {AttrName.images, AttrName.currentPage, AttrName.totalPages, AttrName.totalCount,
             AttrName.hasPrevious, AttrName.hasNext, AttrName.hasPagination} == model.Keys
    ensures model[AttrName.images] == Entries(imagePage.content)
    ensures model[AttrName.currentPage] == Number(imagePage.number + 1)
    ensures model[AttrName.totalPages] == Number(imagePage.totalPages)
    ensures model[AttrName.totalCount] == Number(imagePage.totalElements)
    ensures model[AttrName.hasPrevious] == Flag(imagePage.hasPrevious) && model[AttrName.hasNext] == Flag(imagePage.hasNext)
    ensures model[AttrName.hasPagination] == Flag(imagePage.totalPages > 1)
  {
    var totalPages: int := imagePage.totalPages;
    model := map[];
    model := model[AttrName.images := Entries(imagePage.content)];
    model := model[AttrName.currentPage := Number(imagePage.number + 1)];
    model := model[AttrName.totalPages := Number(totalPages)];
    model := model[AttrName.totalCount := Number(imagePage.totalElements)];
    model := model[AttrName.hasPrevious := Flag(imagePage.hasPrevious)];
    model := model[AttrName.hasNext := Flag(imagePage.hasNext)];
    model := model[AttrName.hasPagination := Flag(totalPages > 1)];
  }

  /** The navigation attributes of `showImageList`: the 0-based page links and the page buttons. */
  method NavigationAttributes(imagePage: ImagePage) returns (model: map<AttrName, Attr>)
    ensures {AttrName.previousPage, AttrName.nextPage, AttrName.firstPage, AttrName.lastPage,
             AttrName.showFirstPage, AttrName.showLastPage, AttrName.pageNumbers} == model.Keys
    ensures model[AttrName.pageNumbers] == Buttons(PageButtons(imagePage.number + 1, imagePage.totalPages))
    ensures model[AttrName.previousPage] == Number(imagePage.number - 1) && model[AttrName.nextPage] == Number(imagePage.number + 1)
    ensures model[AttrName.firstPage] == Number(0) && model[AttrName.lastPage] == Number(imagePage.totalPages - 1)
    ensures model[AttrName.showFirstPage] == Flag(true) && model[AttrName.showLastPage] == Flag(true)
  {
    var currentPageIndex: int := imagePage.number;
    var pageNumbers := PageNumbers(currentPageIndex + 1, imagePage.totalPages);
    model := map[];
    model := model[AttrName.previousPage := Number(currentPageIndex - 1)];
    model := model[AttrName.nextPage := Number(currentPageIndex + 1)];
    model := model[AttrName.firstPage := Number(0)];
    model := model[AttrName.lastPage := Number(imagePage.totalPages - 1)];
    model := model[AttrName.showFirstPage := Flag(true)];
    model := model[AttrName.showLastPage := Flag(true)];
    model := model[AttrName.pageNumbers := Buttons(pageNumbers)];
  }

  /**
   * `showImageList` for the page `getPagedImages` returned: the page buttons and
   * the derived page attributes.
   */
  method ShowImageList(imagePage: ImagePage) returns (model: map<AttrName, Attr>)
    ensures model.Keys == {AttrName.images, AttrName.currentPage, AttrName.totalPages, AttrName.totalCount,
                           AttrName.hasPrevious, AttrName.hasNext, AttrName.hasPagination,
                           AttrName.previousPage, AttrName.nextPage, AttrName.firstPage, AttrName.lastPage,
                           AttrName.showFirstPage, AttrName.showLastPage, AttrName.pageNumbers}
    ensures model[AttrName.pageNumbers] == Buttons(PageButtons(imagePage.number + 1, imagePage.totalPages))
    ensures model[AttrName.images] == Entries(imagePage.content)
    ensures model[AttrName.currentPage] == Number(imagePage.number + 1)
    ensures model[AttrName.totalPages] == Number(imagePage.totalPages)
    ensures model[AttrName.totalCount] == Number(imagePage.totalElements)
    ensures model[AttrName.hasPrevious] == Flag(imagePage.hasPrevious) && model[AttrName.hasNext] == Flag(imagePage.hasNext)
    ensures model[AttrName.previousPage] == Number(imagePage.number - 1) && model[AttrName.nextPage] == Number(imagePage.number + 1)
    ensures model[AttrName.firstPage] == Number(0) && model[AttrName.lastPage] == Number(imagePage.totalPages - 1)
    ensures model[AttrName.showFirstPage] == Flag(true) && model[AttrName.showLastPage] == Flag(true)
    ensures model[AttrName.hasPagination] == Flag(imagePage.totalPages > 1)
  {
    var content := PageContentAttributes(imagePage);
    var navigation := NavigationAttributes(imagePage);
    model := content + navigation;
  }

  /** The creator email of a generated image: the form's email when it has text, otherwise the guest label. */
  function CreatorEmail(email: string): (r: string)
    ensures HasText(email) ==> r == email
    ensures HasText(r)
  {
    if HasText(email) then email
    else
      assert !IsJavaWhitespace(GuestEmail[0]);
      GuestEmail
  }

  class ImageController {
    const imgService: ImgService

    constructor (imgService: ImgService)
      ensures this.imgService == imgService
    {
      this.imgService := imgService;
    }

    /**
     * `generateImage` (POST /generate): generate from the prompt, with the
     * attachment when one with content was uploaded, under the form's email or
     * the guest label; report success with the key and the display URL, or
     * failure; always echo the prompt.
     */
    method GenerateImage(prompt: string, email: string, attachImage: Option<Attachment>,
                         outcome: ProviderOutcome, uuid: string, putSucceeds: bool)
      returns (model: map<AttrName, Attr>)
      requires imgService.Valid() && imgService.FreshUuid(uuid)
      modifies imgService, imgService.db`images
      ensures imgService.Valid()
      ensures var withAttachment := attachImage.Some? && |attachImage.value.bytes| > 0;
              imgService.requests == old(imgService.requests) + [
                if withAttachment then
                  ProviderRequest(ModelName,
                    [TextPart(prompt),
                     BytesPart(attachImage.value.bytes, attachImage.value.contentType.GetOr(DefaultAttachmentMimeType))],
                    AttachmentInstruction)
                else ProviderRequest(ModelName, [TextPart(prompt)], TextPromptInstruction)]
      ensures {AttrName.success, AttrName.message, AttrName.prompt} <= model.Keys
      ensures var key := StoredKey(outcome, uuid, putSucceeds);
              && model[AttrName.success] == Flag(key.Some?)
              && model[AttrName.prompt] == Text(prompt)
              && (key.Some? ==>
                    && model.Keys == {AttrName.success, AttrName.s3Key, AttrName.imageUrl, AttrName.message, AttrName.prompt}
                    && model[AttrName.s3Key] == Text(key.value)
                    && model[AttrName.imageUrl] == Text(DisplayUrl(imgService.GenerateS3Url(key.value), key.value))
                    && model[AttrName.message] == Text(SuccessMessage)
                    && imgService.db.images == old(imgService.db.images) + [ImageRow(key.value, prompt, CreatorEmail(email))])
              && (key.None? ==>
                    && model.Keys == {AttrName.success, AttrName.message, AttrName.prompt}
                    && model[AttrName.message] == Text(FailureMessage)
                    && imgService.db.images == old(imgService.db.images))
      ensures imgService.putAttempts == old(imgService.putAttempts) + if PutAttempted(outcome) then 1 else 0
      ensures var key := StoredKey(outcome, uuid, putSucceeds);
              key.Some? ==> && key.value !in old(imgService.bucket)
                            && imgService.bucket == old(imgService.bucket)[key.value := ImagePayload(outcome.response).value.data]
      ensures StoredKey(outcome, uuid, putSucceeds).None? ==> imgService.bucket == old(imgService.bucket)
    {
      var s3Key: Option<string>;
      var userEmail := if HasText(email) then email else GuestEmail;
      assert userEmail == CreatorEmail(email);
      if attachImage.Some? && |attachImage.value.bytes| > 0 {
        s3Key := imgService.GenerateImageWithAttachment(Some(prompt), userEmail, attachImage, outcome, uuid, putSucceeds);
      } else {
        s3Key := imgService.GenerateImage(Some(prompt), userEmail, outcome, uuid, putSucceeds);
      }

      model := map[];
      if s3Key.Some? {
        var presignedUrl := imgService.GenerateS3Url(s3Key.value);
        model := model[AttrName.success := Flag(true)];
        model := model[AttrName.s3Key := Text(s3Key.value)];
        model := model[AttrName.imageUrl := Text(if presignedUrl.Some? then presignedUrl.value else DownloadRoute + s3Key.value)];
        model := model[AttrName.message := Text(SuccessMessage)];
      } else {
        model := model[AttrName.success := Flag(false)];
        model := model[AttrName.message := Text(FailureMessage)];
      }
      model := model[AttrName.prompt := Text(prompt)];
    }
  }
}
