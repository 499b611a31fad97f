/** The page's module-level state (script.js:126-128) and the operations
    that change it: `loadContent` fills the catalog and the gallery list,
    `changePage` moves through the gallery, `displayImageGallery` and
    `updatePaginationControls` show the current page. */
module Session {
  import opened Wrappers
  import opened Content
  import opened Gallery

  class ContentEngine {
    /** `allBangers` */
    var allBangers: seq<Banger>
    /** `allImages` */
    var allImages: seq<string>
    /** `currentPage` */
    var currentPage: int

    /** The gallery list is empty until a load succeeds and is the known
        image list afterwards; the current page is page 1 or a page of that
        list. */
    ghost predicate Valid()
      reads this
    {
      && (allImages == [] || allImages == KnownImageFiles)
      && 1 <= currentPage
      && (currentPage == 1 || currentPage <= TotalPages(|allImages|))
    }

    /** The state when the script starts. */
    constructor ()
      ensures Valid()
      ensures allBangers == [] && allImages == [] && currentPage == 1
    {
      allBangers := [];
      allImages := [];
      currentPage := 1;
    }

    /** `loadContent` given how fetching and parsing the feed ended. A
        failure caught before the reset leaves the state as it was; a `null`
        feed throws just after the reset, leaving the catalog empty and the
        gallery list as it was. Otherwise the catalog is rebuilt category by
        category and the gallery list becomes the known image list. The
        current page is left alone. */
    method LoadContent(feed: FeedLoad)
      requires Valid()
      modifies this
      ensures Valid()
      ensures feed.LoadFailed? ==> allBangers == old(allBangers) && allImages == old(allImages)
      ensures feed.NullFeed? ==> allBangers == [] && allImages == old(allImages)
      ensures feed.Loaded? ==> allBangers == Catalog(feed.data) && allImages == KnownImageFiles
      ensures currentPage == old(currentPage)
    {
      if feed.LoadFailed? {
        return;
      }
      allBangers := [];
      if feed.NullFeed? {
        return;
      }
      var data := feed.data;
      // The pushes go to a local sequence. After each category, an assert
      // records the catalog assembled so far; these keep the proof of the
      // final equation small and stable.
      var bangers: seq<Banger> := [];
      if data.quotes.Some? {
        bangers := bangers + Quotes(data.quotes);
      }
      assert bangers == Quotes(data.quotes);
      if data.memes.Some? {
        bangers := bangers + Category("meme", data.memes);
      }
      assert bangers == Quotes(data.quotes) + Category("meme", data.memes);
      if data.videos.Some? {
        bangers := bangers + Category("video", data.videos);
      }
      assert bangers == Quotes(data.quotes) + Category("meme", data.memes) + Category("video", data.videos);
      if data.doubleImages.Some? {
        bangers := bangers + Category("double-image", data.doubleImages);
      }
      assert bangers == Quotes(data.quotes) + Category("meme", data.memes) + Category("video", data.videos)
                        + Category("double-image", data.doubleImages);
      if data.quadImages.Some? {
        bangers := bangers + Category("quad-image", data.quadImages);
      }
      assert bangers == Quotes(data.quotes) + Category("meme", data.memes) + Category("video", data.videos)
                        + Category("double-image", data.doubleImages) + Category("quad-image", data.quadImages);
      bangers := bangers + Images(KnownImageFiles);
      bangers := bangers + Gifs(KnownGifFiles);
      allBangers := bangers;
      allImages := KnownImageFiles;
    }

    /** `displayImageGallery`: the slice of the gallery list for the current
        page, then one tile per image of it, in order, each showing and
        selecting that image. */
    method DisplayImageGallery() returns (tiles: seq<string>)
      requires 1 <= currentPage
      ensures tiles == PageImages(allImages, currentPage)
    {
      var start := (currentPage - 1) * ImagesPerPage;
      var end := start + ImagesPerPage;
      var pageImages := if start >= |allImages| then [] else allImages[start..Min(end, |allImages|)];
      tiles := [];
      for k := 0 to |pageImages|
        invariant tiles == pageImages[..k]
      {
        tiles := tiles + [pageImages[k]];
      }
    }

    /** `updatePaginationControls`: the label shows the current page and the
        page count; Previous is disabled exactly when going back would be
        refused, Next exactly on the last page, and so whenever going on
        would be refused, except on an empty gallery, where Next stays
        enabled although no page is accepted. */
    method UpdatePaginationControls() returns (c: Controls)
      requires Valid()
      ensures c.page == currentPage && c.totalPages == TotalPages(|allImages|)
      ensures c.prevDisabled <==> !Accepts(|allImages|, currentPage - 1)
      ensures allImages != [] ==> (c.nextDisabled <==> !Accepts(|allImages|, currentPage + 1))
      ensures allImages == [] ==> !c.nextDisabled
    {
      var totalPages := TotalPages(|allImages|);
      ButtonsMatchNavigation(|allImages|, currentPage);
      c := Controls(currentPage, totalPages, currentPage == 1, currentPage == totalPages);
    }

    /** `changePage(page)`: a page outside 1..totalPages changes nothing and
        redraws nothing; any other page becomes the current one and is
        shown. With no images every request is refused. */
    method ChangePage(page: int) returns (shown: Option<seq<string>>)
      requires Valid()
      modifies this`currentPage
      ensures Valid()
      ensures Accepts(|allImages|, page) ==> currentPage == page && shown == Some(PageImages(allImages, page))
      ensures !Accepts(|allImages|, page) ==> currentPage == old(currentPage) && shown == None
    {
      var totalPages := TotalPages(|allImages|);
      if page < 1 || page > totalPages {
        return None;
      }
      currentPage := page;
      var tiles := DisplayImageGallery();
      var _ := UpdatePaginationControls();
      shown := Some(tiles);
    }
  }
}
