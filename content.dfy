/** The catalog that `loadContent` assembles (script.js:241-386): the
    entries ("bangers") of the bangers feed, tagged with their variant, then
    the hard-coded image files and GIF files. */
module Content {
  import opened Wrappers

  /** A JSON object of the feed, restricted to its string-valued properties. */
  type Record = map<string, string>

  /** An entry of the catalog: a JavaScript object whose `type` property names
      its variant and whose other properties carry its content. */
  type Banger = Record

  /** The `type` property of an entry, if it has one. */
  function TypeOf(b: Banger): Option<string> {
    if "type" in b then Some(b["type"]) else None
  }

  /** A property as a template literal shows it: an absent property reads as
      the text "undefined". */
  function Field(b: Banger, key: string): string {
    if key in b then b[key] else "undefined"
  }

  /** The parsed bangers feed. A category is `None` when the feed lacks it
      (or holds a falsy value there), `Some` of its array otherwise. */
  datatype BangersData = BangersData(
    quotes: Option<seq<string>>,
    memes: Option<seq<Record>>,
    videos: Option<seq<Record>>,
    doubleImages: Option<seq<Record>>,
    quadImages: Option<seq<Record>>)

  /** How fetching and parsing the feed ends. `LoadFailed`: a fetch fails,
      `bangers.json` answers with a status that is not ok, or a body is not
      JSON; each throws before the catalog is reset. `NullFeed`: the feed is
      the JSON value `null`; the catalog is reset, then reading its first
      category throws. `Loaded`: any other JSON value; a category it does not
      have (every one, for a value that is not an object) is `None`. */
  datatype FeedLoad = LoadFailed | NullFeed | Loaded(data: BangersData)

  /** `{ type: tag, ...item }`: the item's own properties are spread after the
      tag, so a `type` the item carries itself replaces the tag. */
  function Tagged(tag: string, item: Record): (b: Banger)
    ensures b.Keys == item.Keys + {"type"}
    ensures forall k :: k in item ==> b[k] == item[k]
    ensures TypeOf(b) == Some(if "type" in item then item["type"] else tag)
  {
    map["type" := tag] + item
  }

  /** `{ type: 'quote', content }` */
  function QuoteEntry(text: string): Banger {
    map["type" := "quote", "content" := text]
  }

  /** `{ type: 'image', image: filename }` */
  function ImageEntry(file: string): (b: Banger)
    ensures TypeOf(b) == Some("image") && Field(b, "image") == file
  {
    assert "type" != "image";
    map["type" := "image", "image" := file]
  }

  /** `{ type: 'gif', image: `gifs/${filename}` }` */
  function GifEntry(file: string): (b: Banger)
    ensures TypeOf(b) == Some("gif") && Field(b, "image") == "gifs/" + file
  {
    assert "type" != "image";
    map["type" := "gif", "image" := "gifs/" + file]
  }

  /** The entries one optional category contributes: nothing when it is
      absent, one entry per element, in order, otherwise. */
  function Quotes(quotes: Option<seq<string>>): (r: seq<Banger>)
    ensures |r| == Count(quotes)
    ensures forall i :: 0 <= i < |r| ==> r[i] == QuoteEntry(quotes.value[i])
  {
    if quotes.None? then [] else seq(|quotes.value|, i requires 0 <= i < |quotes.value| => QuoteEntry(quotes.value[i]))
  }

  function Category(tag: string, items: Option<seq<Record>>): (r: seq<Banger>)
    ensures |r| == Count(items)
    ensures forall i :: 0 <= i < |r| ==> r[i] == Tagged(tag, items.value[i])
  {
    if items.None? then [] else seq(|items.value|, i requires 0 <= i < |items.value| => Tagged(tag, items.value[i]))
  }

  function Images(files: seq<string>): (r: seq<Banger>)
    ensures |r| == |files|
    ensures forall i :: 0 <= i < |r| ==> r[i] == ImageEntry(files[i])
  {
    seq(|files|, i requires 0 <= i < |files| => ImageEntry(files[i]))
  }

  function Gifs(files: seq<string>): (r: seq<Banger>)
    ensures |r| == |files|
    ensures forall i :: 0 <= i < |r| ==> r[i] == GifEntry(files[i])
  {
    seq(|files|, i requires 0 <= i < |files| => GifEntry(files[i]))
  }

  function Count<T>(category: Option<seq<T>>): nat {
    if category.None? then 0 else |category.value|
  }

  /** The catalog a successful load leaves in `allBangers`: quotes, memes,
      videos, double images, quad images, the known image files, then the
      known GIF files. */
  function Catalog(data: BangersData): (c: seq<Banger>)
    ensures |c| == Count(data.quotes) + Count(data.memes) + Count(data.videos)
                   + Count(data.doubleImages) + Count(data.quadImages)
                   + |KnownImageFiles| + |KnownGifFiles|
  {
    FeedEntries(data) + Images(KnownImageFiles) + Gifs(KnownGifFiles)
  }

  /** The entries the feed contributes: quotes, memes, videos, double images,
      then quad images. */
  function FeedEntries(data: BangersData): (r: seq<Banger>)
    ensures |r| == Count(data.quotes) + Count(data.memes) + Count(data.videos)
                   + Count(data.doubleImages) + Count(data.quadImages)
  {
    Quotes(data.quotes) + Category("meme", data.memes) + Category("video", data.videos)
    + Category("double-image", data.doubleImages) + Category("quad-image", data.quadImages)
  }

  /** Every item of a category that carries a `type` property of its own
      carries the category's tag there. */
  predicate KeepsTag(tag: string, items: Option<seq<Record>>) {
    items.Some? ==> forall i :: 0 <= i < |items.value| ==>
      "type" in items.value[i] ==> items.value[i]["type"] == tag
  }

  /** No item of the feed's categories claims a type other than its own
      category's. */
  predicate FeedKeepsTags(data: BangersData) {
    && KeepsTag("meme", data.memes) && KeepsTag("video", data.videos)
    && KeepsTag("double-image", data.doubleImages) && KeepsTag("quad-image", data.quadImages)
  }

  /** The `type` of every entry, in order. */
  function Types(s: seq<Banger>): (r: seq<Option<string>>)
    ensures |r| == |s|
  {
    seq(|s|, i requires 0 <= i < |s| => TypeOf(s[i]))
  }

  function Repeat<T>(x: T, n: nat): (r: seq<T>)
    ensures |r| == n && forall i :: 0 <= i < n ==> r[i] == x
  {
    seq(n, _ => x)
  }

  lemma TypesAppend(a: seq<Banger>, b: seq<Banger>)
    ensures Types(a + b) == Types(a) + Types(b)
  {
  }

  lemma CategoryTypes(tag: string, items: Option<seq<Record>>)
    requires KeepsTag(tag, items)
    ensures Types(Category(tag, items)) == Repeat(Some(tag), Count(items))
  {
    var c := Category(tag, items);
    forall i | 0 <= i < |c|
      ensures Types(c)[i] == Some(tag)
    {
      assert c[i] == Tagged(tag, items.value[i]);
    }
  }

  /** When no feed item claims a type other than its category's, the
      catalog lists its variants in the fixed source order: every quote, then every meme,
      video, double image and quad image, then one image entry per known
      image file and one GIF entry per known GIF file. */
  lemma {:induction false} CatalogOrder(data: BangersData)
    requires FeedKeepsTags(data)
    ensures Types(Catalog(data))
            == Repeat(Some("quote"), Count(data.quotes))
               + Repeat(Some("meme"), Count(data.memes))
               + Repeat(Some("video"), Count(data.videos))
               + Repeat(Some("double-image"), Count(data.doubleImages))
               + Repeat(Some("quad-image"), Count(data.quadImages))
               + Repeat(Some("image"), |KnownImageFiles|)
               + Repeat(Some("gif"), |KnownGifFiles|)
  {
    var q := Quotes(data.quotes);
    var m := Category("meme", data.memes);
    var v := Category("video", data.videos);
    var d := Category("double-image", data.doubleImages);
    var qd := Category("quad-image", data.quadImages);
    var im := Images(KnownImageFiles);
    var g := Gifs(KnownGifFiles);
    assert Types(q) == Repeat(Some("quote"), Count(data.quotes));
    CategoryTypes("meme", data.memes);
    CategoryTypes("video", data.videos);
    CategoryTypes("double-image", data.doubleImages);
    CategoryTypes("quad-image", data.quadImages);
    assert Types(im) == Repeat(Some("image"), |KnownImageFiles|);
    assert Types(g) == Repeat(Some("gif"), |KnownGifFiles|);
    TypesAppend(q, m);
    TypesAppend(q + m, v);
    TypesAppend(q + m + v, d);
    TypesAppend(q + m + v + d, qd);
    TypesAppend(q + m + v + d + qd, im);
    TypesAppend(q + m + v + d + qd + im, g);
  }

  /** From position `n` on, `c` holds the entries of `block`, in order. */
  predicate BlockAt(c: seq<Banger>, n: nat, block: seq<Banger>) {
    n + |block| <= |c| && c[n..n + |block|] == block
  }

  /** `c` starts with the feed's entries laid out in the source order: the
      quotes, then the memes, the videos, the double images and the quad
      images, each category as one block of entries in feed order (the
      contracts of `Quotes` and `Category` give each entry: the quote, or
      the item spread after its category's tag). */
  predicate FeedLaidOut(c: seq<Banger>, data: BangersData) {
    var q, m, v, d := Count(data.quotes), Count(data.memes), Count(data.videos), Count(data.doubleImages);
    && BlockAt(c, 0, Quotes(data.quotes))
    && BlockAt(c, q, Category("meme", data.memes))
    && BlockAt(c, q + m, Category("video", data.videos))
    && BlockAt(c, q + m + v, Category("double-image", data.doubleImages))
    && BlockAt(c, q + m + v + d, Category("quad-image", data.quadImages))
  }

  /** For every feed, whatever types its items claim, the catalog starts with
      the feed's entries in the source order, category by category. */
  lemma CatalogLayout(data: BangersData)
    ensures FeedLaidOut(Catalog(data), data)
  {
    var images, gifs := Images(KnownImageFiles), Gifs(KnownGifFiles);
    var head := FeedEntries(data);
    assert Catalog(data) == head + images + gifs;
    FeedEntriesLayout(data);
    KeepsLayout(head, images, data);
    KeepsLayout(head + images, gifs, data);
  }

  /** Read entry by entry: the i-th item of a category laid out from `n` is
      the entry at `n + i`, spread after the category's tag; so, for example,
      `Catalog(data)[Count(data.quotes) + i]` is `Tagged("meme",
      data.memes.value[i])`. */
  lemma CategoryEntryAt(c: seq<Banger>, n: nat, tag: string, items: Option<seq<Record>>, i: nat)
    requires BlockAt(c, n, Category(tag, items)) && i < Count(items)
    ensures c[n + i] == Tagged(tag, items.value[i])
  {
    assert c[n..n + Count(items)][i] == c[n + i];
  }

  /** A meme follows the quotes in the catalog, at its place in the feed,
      whatever `type` the feed gives it. */
  lemma CatalogMemeAt(data: BangersData, i: nat)
    requires i < Count(data.memes)
    ensures Catalog(data)[Count(data.quotes) + i] == Tagged("meme", data.memes.value[i])
  {
    CatalogLayout(data);
    CategoryEntryAt(Catalog(data), Count(data.quotes), "meme", data.memes, i);
  }

  /** The feed's entries alone are laid out in the source order. */
  lemma FeedEntriesLayout(data: BangersData)
    ensures FeedLaidOut(FeedEntries(data), data)
  {
    FiveBlocks(Quotes(data.quotes), Category("meme", data.memes), Category("video", data.videos),
               Category("double-image", data.doubleImages), Category("quad-image", data.quadImages));
  }

  /** Where each of five concatenated blocks starts. */
  lemma FiveBlocks(a: seq<Banger>, b: seq<Banger>, c: seq<Banger>, d: seq<Banger>, e: seq<Banger>)
    ensures var s := a + b + c + d + e;
            && BlockAt(s, 0, a) && BlockAt(s, |a|, b) && BlockAt(s, |a| + |b|, c)
            && BlockAt(s, |a| + |b| + |c|, d) && BlockAt(s, |a| + |b| + |c| + |d|, e)
  {
    BlockLast([], a);
    assert [] + a == a;
    BlockExtends(a, 0, a, b);
    BlockExtends(a + b, 0, a, c);
    BlockExtends(a + b + c, 0, a, d);
    BlockExtends(a + b + c + d, 0, a, e);
    BlockLast(a, b);
    BlockExtends(a + b, |a|, b, c);
    BlockExtends(a + b + c, |a|, b, d);
    BlockExtends(a + b + c + d, |a|, b, e);
    BlockLast(a + b, c);
    BlockExtends(a + b + c, |a + b|, c, d);
    BlockExtends(a + b + c + d, |a + b|, c, e);
    BlockLast(a + b + c, d);
    BlockExtends(a + b + c + d, |a + b + c|, d, e);
    BlockLast(a + b + c + d, e);
  }

  /** Appending entries keeps a layout. */
  lemma KeepsLayout(c: seq<Banger>, more: seq<Banger>, data: BangersData)
    requires FeedLaidOut(c, data)
    ensures FeedLaidOut(c + more, data)
  {
    var q, m, v, d := Count(data.quotes), Count(data.memes), Count(data.videos), Count(data.doubleImages);
    BlockExtends(c, 0, Quotes(data.quotes), more);
    BlockExtends(c, q, Category("meme", data.memes), more);
    BlockExtends(c, q + m, Category("video", data.videos), more);
    BlockExtends(c, q + m + v, Category("double-image", data.doubleImages), more);
    BlockExtends(c, q + m + v + d, Category("quad-image", data.quadImages), more);
  }

  lemma BlockLast(before: seq<Banger>, block: seq<Banger>)
    ensures BlockAt(before + block, |before|, block)
  {
    assert (before + block)[|before|..] == block;
  }

  lemma BlockExtends(c: seq<Banger>, n: nat, block: seq<Banger>, more: seq<Banger>)
    requires BlockAt(c, n, block)
    ensures BlockAt(c + more, n, block)
  {
    assert (c + more)[n..n + |block|] == c[n..n + |block|];
  }

  /** From position `n` on, `c` holds one image entry per name of `images`,
      in order and with repeats. */
  predicate ImagesAt(c: seq<Banger>, n: nat, images: seq<string>) {
    n + |images| <= |c|
    && forall i :: 0 <= i < |images| ==>
         TypeOf(c[n + i]) == Some("image") && Field(c[n + i], "image") == images[i]
  }

  /** From position `n` on, `c` holds one GIF entry per name of `gifs`, whose
      path is that name under `gifs/`. */
  predicate GifsAt(c: seq<Banger>, n: nat, gifs: seq<string>) {
    n + |gifs| <= |c|
    && forall j :: 0 <= j < |gifs| ==>
         TypeOf(c[n + j]) == Some("gif") && Field(c[n + j], "image") == "gifs/" + gifs[j]
  }

  /** `c` ends with the image entries of `images` followed by the GIF entries
      of `gifs`. */
  predicate EndsWithFiles(c: seq<Banger>, images: seq<string>, gifs: seq<string>) {
    && |images| + |gifs| <= |c|
    && ImagesAt(c, |c| - |images| - |gifs|, images)
    && GifsAt(c, |c| - |gifs|, gifs)
  }

  /** The catalog ends with one image entry per known image file, in order
      and with repeats, then one GIF entry per known GIF file whose path is
      the file name under `gifs/`. */
  lemma CatalogTail(data: BangersData)
    ensures EndsWithFiles(Catalog(data), KnownImageFiles, KnownGifFiles)
  {
    var head := Quotes(data.quotes) + Category("meme", data.memes) + Category("video", data.videos)
      + Category("double-image", data.doubleImages) + Category("quad-image", data.quadImages);
    assert Catalog(data) == head + Images(KnownImageFiles) + Gifs(KnownGifFiles);
    FilesTail(head, KnownImageFiles, KnownGifFiles);
  }

  lemma FilesTail(head: seq<Banger>, images: seq<string>, gifs: seq<string>)
    ensures EndsWithFiles(head + Images(images) + Gifs(gifs), images, gifs)
  {
    var im, g := Images(images), Gifs(gifs);
    var c := head + im + g;
    ImagesTail(head, images, g);
    GifsTail(head + im, gifs);
    assert ImagesAt(c, |c| - |images| - |gifs|, images) by {
      assert |c| - |images| - |gifs| == |head|;
    }
    assert GifsAt(c, |c| - |gifs|, gifs) by {
      assert |c| - |gifs| == |head + im|;
    }
  }

  lemma ImagesTail(head: seq<Banger>, images: seq<string>, rest: seq<Banger>)
    ensures ImagesAt(head + Images(images) + rest, |head|, images)
  {
    var im := Images(images);
    var c := head + im + rest;
    forall i | 0 <= i < |images|
      ensures TypeOf(c[|head| + i]) == Some("image") && Field(c[|head| + i], "image") == images[i]
    {
      assert c[|head| + i] == im[i];
    }
  }

  lemma GifsTail(head: seq<Banger>, gifs: seq<string>)
    ensures GifsAt(head + Gifs(gifs), |head|, gifs)
  {
    var g := Gifs(gifs);
    var c := head + g;
    forall j | 0 <= j < |gifs|
      ensures TypeOf(c[|head| + j]) == Some("gif") && Field(c[|head| + j], "image") == "gifs/" + gifs[j]
    {
      assert c[|head| + j] == g[j];
    }
  }

  /** The known image list holds 246 names, eight of them twice: the names
      at positions 3 to 10 come back at positions 173 to 180. */
  lemma KnownImageFilesRepeat()
    ensures |KnownImageFiles| == 246 && |KnownGifFiles| == 13
    ensures KnownImageFiles[3..11] == RepeatedImageFiles == KnownImageFiles[173..181]
  {
  }

  /** The image files listed in script.js:298-351, in order and with their
      repeats. The list is written out in the five runs it consists of: the
      eight names of lines 300-302 are listed again on lines 333-334. */
  const KnownImageFiles: seq<string> :=
    ImageFilesBeforeRepeat + RepeatedImageFiles + ImageFilesBetweenRepeats
    + RepeatedImageFiles + ImageFilesAfterRepeat

  const ImageFilesBeforeRepeat: seq<string> := [
      "0a731d8a55a42f9fffe42728d65647f4.jpg", "00ab07126e655cdde010900681696e65.jpg", "037e31191571021e1947d83235128399.jpg"
    ]

  const RepeatedImageFiles: seq<string> := [
      "038a6c2d382179337ab55db7f4b7422b.jpg", "086bb60cf35fcf21da74113486144895.jpg", "111.jpeg",
      "111a.jpg", "111a1.jpg", "111xf.jpg",
      "112aa.jpg", "121ll.jpg"
    ]

  const ImageFilesBetweenRepeats: seq<string> := [
      "1.jpg", "1a.jpg", "1a1uhuh.jpg",
      "1a6f8bc0c17ca0728682b99b873e4866.jpg", "1a2232e4871b1478d8f02a7dcb11226f.jpg", "1aaah.jpg",
      "1aadh.jpg", "1aafam.jpg", "1aahsh.jpg",
      "1aal.jpg", "1aasss.jpg", "1aauhuh.jpg",
      "1adfw.jpg", "1afhwu.jpg", "1ah.jpg",
      "1ahau.jpg", "1ahauhu.jpg", "1ahsuww.jpg",
      "1ahwu.jpg", "1aital.jpg", "1ashuf.jpg",
      "1asss.jpg", "1asuhu.jpg", "1asw.jpg",
      "1auah.jpg", "1awhwwh.jpg", "1awk.jpg",
      "1awywyw.jpg", "1b8bb50c62adfed845c32d98a52e265a.jpg", "1bhsx.jpg",
      "1bkh.jpg", "1c0ff6c442689284cadb7eb0be927a97.jpg", "1cx.jpg",
      "1d2f2.jpg", "1ddyh.jpg", "1dgyd.jpg",
      "1dp2.jpg", "1ds.jpg", "1dyh.jpg",
      "1f7ff.jpg", "1ffg.jpg", "1fhf.jpg",
      "1fhwu.jpg", "1gdy.jpg", "1h1uh.jpg",
      "1h1uhd.jpg", "1h1uhu.jpg", "1hsugh.jpg",
      "1hswhw.jpg", "1hu1h.jpg", "1hu1huf.jpg",
      "1hufhf.jpg", "1huh.jpg", "1huhf.jpg",
      "1huhfss.jpg", "1huhhuh.jpg", "1huhq.jpg",
      "1lhllul.jpg", "1lll.jpg", "1lllhuh.jpg",
      "1llljoihu.jpg", "1lllkoi.jpg", "1llllhy.jpg",
      "1llllhyg.jpg", "1llllkw.jpg", "1lllll.jpg",
      "1lllllhyh.jpg", "1llllll.jpg", "1llllluhl.jpg",
      "1ogxtd.jpg", "1omok.jpg", "1ouho.jpg",
      "1ouhod.jpg", "1ouhuh.jpg", "1p1ppoo.jpg",
      "1p1pu.jpg", "1pdhdu.jpg", "1phpb.jpg",
      "1pipipx.jpg", "1qasss.jpg", "1qhuh.jpg",
      "1qs.jpg", "1sa.jpg", "1sfaw.jpg",
      "1sff.jpg", "1ssuh.jpg", "1suh.jpg",
      "1tdgd.jpg", "1tgyj.jpg", "1udcd.jpg",
      "1udhy.jpg", "1ueh.jpg", "1uhgd.jpg",
      "1uhu.jpg", "1ulh.jpg", "1wfhwuh.jpg",
      "1wgfw.jpg", "1whf.jpg", "1whuh.jpg",
      "1wohw.jpg", "1wshuw.jpg", "1xz.jpg",
      "1ydh.jpg", "1yfeh.jpg", "1yhy.jpg",
      "1yhye.jpg", "1yqar.jpg", "1yrhf.jpg",
      "1zx.jpg", "2bcc16fe1ae6d30e70ed6681637cdadf.jpg", "2cf6778cfbb050deb3b734577b064d4e.jpg",
      "2dsw.jpg", "2dwfw.jpg", "2l.jpg",
      "2sdslss.jpg", "2slfsww.jpg", "2ssqqql.jpg",
      "2wg.jpg", "2wllw.jpg", "2wrww.jpg",
      "3c991ce35c45eb28915e4ea6a2d1e23b.jpg", "3cf516bbb9229b0f46ce6282ea63d82d.jpg", "3e4e87bb4b346254c414fb77a2791a1.jpg",
      "3e6ee007efc38922024d0a72fd1210cc.jpg", "3ec5ecccce93bb45c4197ad0be927a97.jpg", "3fe32abd0cd481f181f80c27782a4787.jpg",
      "3llllshs.jpg", "3lllsus.jpg", "3lls.jpg",
      "3slkl.jpg", "3slslw.jpg", "3slss.jpg",
      "3ssslkg.jpg", "3wlfw.jpg", "3www.jpg",
      "3wwwfgg.jpg", "4a744812ac50b16c05f30c4dfa6d1eb6.jpg", "4ccfc51d5a22812214d91ea86ccb9475.jpg",
      "09a90b6eb26c2013adbf77902c0f657c.jpg", "11aa.jpg", "11fh.jpg",
      "11h1uh.jpg", "11hdh.jpg", "11huf.jpg",
      "11huh.jpg", "11huhd.jpg", "11hwu.jpg",
      "11ouhuh.jpg", "11u1hu.jpg", "11uhff.jpg",
      "11uhg.jpg", "11uhuhu.jpg", "11uhus.jpg",
      "11uydfhe.jpg", "12dede.jpg", "12hduyd.jpg",
      "22ffd21ae9b21452a14e944fac5c1688.jpg", "24c9a1ca52c706366f4cf7151caf64f8.jpg", "34d9515b4b430e99d8b15049def0c8a7.jpg",
      "35cents.jpg", "36.jpg", "37d1cb33ab959a9d65ff69695ea336e0.jpg"
    ]

  const ImageFilesAfterRepeat: seq<string> := [
      "200.jpg", "222.jpg", "232.jpg",
      "383e785d204a289ea09a373c4951a572.jpg", "455f9e0ecfda3d6cfcf2bd479df73bab.jpg", "0482c2c3955cb73d0eb1c62629de1ee4.jpg",
      "1111aaa.jpg", "1234aa.jpg", "1413r2.jpg",
      "4629b50d1ceade82f74399d0f96c9b4f.jpg", "14748d0178674f8578f09f48d8f6d50b.jpg", "16975bc5276d1c21cbc9d8c484e38725.jpg",
      "24700b6b99dc49341df3396081f7c00a.jpg", "32289dc07896c85ba693d334825f770f.jpg", "49792fb62e98ae216bdd21706cd494da.jpg",
      "153171c5187be2176650d90af3b0966f.jpg", "184485db506a11b52de4fea50e09de41.jpg", "249084b1373552f0fe19643db3381823.jpg",
      "1498398c54448f54e88fecc6fb6aa24b.jpg", "1llllllx/.jpg", "1oko/.jpg",
      "1sybyd/.jpg", "10/.jpg", "2019air.jpeg",
      "2020hood.mp4", "aicouldnever.jpeg", "batbite.jpeg",
      "beyblades1.jpeg", "beyblades2.jpeg", "brotext.jpeg",
      "brotext2.jpeg", "canadagangs.jpeg", "childhood1.jpeg",
      "childhood2.jpeg", "curtains.jpeg", "diabetes.jpeg",
      "disneyland.jpeg", "fingerrock.jpeg", "fingerrock2.jpeg",
      "foodgood.jpeg", "friendship.jpeg", "girlsflirt.jpeg",
      "goodbye.jpeg", "hedgehogno.jpeg", "looklikethis1.jpeg",
      "looklikethis2.jpeg", "mainquest.jpeg", "meatbeach.jpeg",
      "nosmoking.jpeg", "payrent.jpeg", "pigeonbot.jpeg",
      "pikachu.jpeg", "rapszn1.jpeg", "scoobycall.jpeg",
      "semitruck.jpeg", "sleep1.jpeg", "sleep2.jpeg",
      "sleep3.jpeg", "sleep4.jpeg", "smallaccounts.jpeg",
      "spritecroc.jpeg", "stroker.jpeg", "tookthispic.jpeg",
      "vegetable.jpeg", "walkitoff.jpeg"
    ]

  /** The GIF files listed in script.js:361-366, without their folder. */
  const KnownGifFiles: seq<string> := [
      "_00_240x320_010_reasonably_small.gif", "aaoa.gif", "amalaprint-cat.gif",
      "anime-girl-blush-cat.gif", "balls-218.gif", "batman-cat.gif",
      "bear.gif", "bingus-dynamite.gif", "bongo-cat-pumpkin-bongo.gif",
      "boom.gif", "bro-got-little-turbulence-plane.gif", "caseoh-ai.gif",
      "cat-car.gif"
    ]
}
