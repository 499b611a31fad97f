/** Gallery pagination (script.js:129, 178-231) as functions of the image
    list's length and the current page. */
module Gallery {

  /** `IMAGES_PER_PAGE` */
  const ImagesPerPage: nat := 20

  /** `Math.ceil(allImages.length / IMAGES_PER_PAGE)`: the fewest pages of 20
      that hold n images, so 0 for an empty list. */
  function TotalPages(n: nat): (t: nat)
    ensures n <= t * ImagesPerPage
    ensures t > 0 ==> (t - 1) * ImagesPerPage < n
    ensures t == 0 <==> n == 0
  {
    (n + ImagesPerPage - 1) / ImagesPerPage
  }

  /** Whether `changePage(page)` moves: it returns early when
      `page < 1 || page > totalPages`. */
  predicate Accepts(n: nat, page: int) {
    !(page < 1 || page > TotalPages(n))
  }

  /** `allImages.slice(start, start + IMAGES_PER_PAGE)` with
      `start = (page - 1) * IMAGES_PER_PAGE`: at most 20 images, those of the
      list from `start` on, cut off at the list's end. */
  function PageImages(images: seq<string>, page: nat): (p: seq<string>)
    requires page >= 1
    ensures |p| <= ImagesPerPage
    ensures |p| == if (page - 1) * ImagesPerPage >= |images| then 0
                   else if page * ImagesPerPage >= |images| then |images| - (page - 1) * ImagesPerPage
                   else ImagesPerPage
    ensures forall j :: 0 <= j < |p| ==> p[j] == images[(page - 1) * ImagesPerPage + j]
  {
    var start := (page - 1) * ImagesPerPage;
    var end := start + ImagesPerPage;
    if start >= |images| then [] else if end >= |images| then images[start..] else images[start..end]
  }

  /** Pages 1 to k, one after the other. */
  function PagesThrough(images: seq<string>, k: nat): seq<string> {
    if k == 0 then [] else PagesThrough(images, k - 1) + PageImages(images, k)
  }

  function Min(a: nat, b: nat): nat {
    if a <= b then a else b
  }

  /** The first k pages are the first 20k images, or all of them. */
  lemma {:induction false} PagesThroughPrefix(images: seq<string>, k: nat)
    ensures PagesThrough(images, k) == images[..Min(k * ImagesPerPage, |images|)]
  {
    if k > 0 {
      PagesThroughPrefix(images, k - 1);
      var start := Min((k - 1) * ImagesPerPage, |images|);
      var end := Min(k * ImagesPerPage, |images|);
      assert images[..end] == images[..start] + images[start..end];
    }
  }

  /** Pages 1 to `TotalPages` laid end to end give back the image list: every
      image is on some page, and no page repeats or skips one. */
  lemma PagesCoverImages(images: seq<string>)
    ensures PagesThrough(images, TotalPages(|images|)) == images
  {
    PagesThroughPrefix(images, TotalPages(|images|));
    assert images[..|images|] == images;
  }

  /** The list index of place j on a page. */
  function Position(page: nat, j: nat): int {
    (page - 1) * ImagesPerPage + j
  }

  /** Image i sits on exactly one page, at exactly one place: page
      `i / 20 + 1`, which `changePage` accepts, at place `i % 20`. */
  lemma ImageOnOnePage(images: seq<string>, i: nat)
    requires i < |images|
    ensures var page := i / ImagesPerPage + 1;
            && Accepts(|images|, page)
            && i % ImagesPerPage < |PageImages(images, page)|
            && PageImages(images, page)[i % ImagesPerPage] == images[i]
    ensures forall page: nat, j: nat :: page >= 1 && j < ImagesPerPage && Position(page, j) == i
              ==> page == i / ImagesPerPage + 1 && j == i % ImagesPerPage
  {
  }

  /** The state of the pagination controls `updatePaginationControls` sets:
      the "Page x of y" label and the two buttons. */
  datatype Controls = Controls(page: int, totalPages: nat, prevDisabled: bool, nextDisabled: bool)

  /** What the buttons promise, for a current page the gallery can be on
      (page 1, or a page of the list). Previous is disabled exactly when
      going back would be refused. Next is disabled exactly when going on
      would be refused, as long as there is an image; with no image there
      are no pages, Next stays enabled, and every request is refused. */
  lemma ButtonsMatchNavigation(n: nat, current: int)
    requires 1 <= current && (current == 1 || current <= TotalPages(n))
    ensures (current == 1) <==> !Accepts(n, current - 1)
    ensures TotalPages(n) > 0 ==> ((current == TotalPages(n)) <==> !Accepts(n, current + 1))
    ensures n == 0 ==> current != TotalPages(n) && forall page :: !Accepts(n, page)
  {
  }
}
