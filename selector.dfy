/** The filter-and-pick step of `generateBanger` (script.js:395-405). The
    value of `Math.random()` is a parameter. */
module Selector {
  import opened Wrappers
  import opened Content

  /** `bangers.filter(banger => banger.type === tag)`: the entries whose type
      is `tag`, in catalog order. */
  function Filter(s: seq<Banger>, tag: string): (r: seq<Banger>)
    ensures |r| <= |s|
    ensures forall i :: 0 <= i < |r| ==> r[i] in s && TypeOf(r[i]) == Some(tag)
    ensures forall b :: b in s && TypeOf(b) == Some(tag) ==> b in r
  {
    if s == [] then []
    else if TypeOf(s[0]) == Some(tag) then [s[0]] + Filter(s[1..], tag)
    else Filter(s[1..], tag)
  }

  /** Filtering a concatenation filters each part, keeping their order. */
  lemma {:induction false} FilterAppend(a: seq<Banger>, b: seq<Banger>, tag: string)
    ensures Filter(a + b, tag) == Filter(a, tag) + Filter(b, tag)
  {
    if a != [] {
      assert (a + b)[1..] == a[1..] + b;
      FilterAppend(a[1..], b, tag);
    } else {
      assert a + b == b;
    }
  }

  /** A list whose entries all have the type keeps every entry. */
  lemma {:induction false} FilterKeepsAll(s: seq<Banger>, tag: string)
    requires forall i :: 0 <= i < |s| ==> TypeOf(s[i]) == Some(tag)
    ensures Filter(s, tag) == s
  {
    if s != [] {
      FilterKeepsAll(s[1..], tag);
    }
  }

  /** A list none of whose entries has the type keeps nothing. */
  lemma {:induction false} FilterDropsAll(s: seq<Banger>, tag: string)
    requires forall i :: 0 <= i < |s| ==> TypeOf(s[i]) != Some(tag)
    ensures Filter(s, tag) == []
  {
    if s != [] {
      FilterDropsAll(s[1..], tag);
    }
  }

  /** The entries `generateBanger` draws from: the whole catalog for the
      selector `all`, the entries of the selected type otherwise. */
  function Candidates(catalog: seq<Banger>, selector: string): (r: seq<Banger>)
    ensures selector == "all" ==> r == catalog
    ensures selector != "all" ==> r == Filter(catalog, selector)
    ensures selector != "all" ==> forall i :: 0 <= i < |r| ==> TypeOf(r[i]) == Some(selector)
    ensures selector != "all" ==> forall b :: b in catalog && TypeOf(b) == Some(selector) ==> b in r
    ensures forall i :: 0 <= i < |r| ==> r[i] in catalog
  {
    if selector == "all" then catalog else Filter(catalog, selector)
  }

  /** `Math.floor(random * n)` for `random` in [0, 1): an index of a list of
      length n. */
  function DrawIndex(random: real, n: nat): (i: nat)
    requires 0.0 <= random < 1.0 && 0 < n
    ensures i < n
  {
    assert 0.0 <= random * (n as real) < n as real by {
      assert random * (n as real) <= (n as real) * random;
    }
    (random * (n as real)).Floor
  }

  /** Every index is drawn for exactly the values of `random` in an interval
      of width 1/n: the draw is uniform when `random` is. */
  lemma DrawIndexInterval(random: real, n: nat, i: nat)
    requires 0.0 <= random < 1.0 && i < n
    ensures DrawIndex(random, n) == i
            <==> (i as real) / (n as real) <= random < ((i + 1) as real) / (n as real)
  {
    var nr := n as real;
    ScaleOrder((i as real) / nr, random, nr);
    ScaleOrder(random, ((i + 1) as real) / nr, nr);
  }

  lemma ScaleOrder(a: real, b: real, c: real)
    requires c > 0.0
    ensures a <= b <==> a * c <= b * c
    ensures a < b <==> a * c < b * c
  {
    assert b * c - a * c == (b - a) * c;
  }

  /** What `generateBanger` picks: nothing when no entry matches the
      selector, otherwise the candidate at the index drawn from `random`. */
  datatype Pick = NoneAvailable | Picked(index: nat, banger: Banger)

  function PickBanger(catalog: seq<Banger>, selector: string, random: real): (p: Pick)
    requires 0.0 <= random < 1.0
    ensures p.NoneAvailable? <==> Candidates(catalog, selector) == []
    ensures p.Picked? ==> p.index == DrawIndex(random, |Candidates(catalog, selector)|)
                          && p.banger == Candidates(catalog, selector)[p.index]
    ensures p.Picked? ==> p.banger in catalog
                          && (selector == "all" || TypeOf(p.banger) == Some(selector))
  {
    var candidates := Candidates(catalog, selector);
    if |candidates| == 0 then NoneAvailable
    else
      var i := DrawIndex(random, |candidates|);
      Picked(i, candidates[i])
  }

  /** Picking with the selector of a type no entry has finds nothing, for
      every value of `random`. */
  lemma PickNothingOfAbsentType(catalog: seq<Banger>, selector: string, random: real)
    requires 0.0 <= random < 1.0 && selector != "all"
    requires forall i :: 0 <= i < |catalog| ==> TypeOf(catalog[i]) != Some(selector)
    ensures PickBanger(catalog, selector, random) == NoneAvailable
  {
    FilterDropsAll(catalog, selector);
  }

  /** The gallery list is the image subsequence of the catalog: when no feed
      item claims the type `image` for itself, the image entries of the
      loaded catalog show exactly the known image files, in order. */
  lemma ImageEntriesAreGallery(data: BangersData)
    requires NoItemClaims(data, "image")
    ensures Sources(Filter(Catalog(data), "image")) == KnownImageFiles
  {
    var q := Quotes(data.quotes);
    var m := Category("meme", data.memes);
    var v := Category("video", data.videos);
    var d := Category("double-image", data.doubleImages);
    var qd := Category("quad-image", data.quadImages);
    FilterAppend(q, m, "image");
    FilterAppend(q + m, v, "image");
    FilterAppend(q + m + v, d, "image");
    FilterAppend(q + m + v + d, qd, "image");
    assert forall i :: 0 <= i < |q| ==> TypeOf(q[i]) == Some("quote");
    FilterDropsAll(q, "image");
    CategoryDrops("meme", data.memes, "image");
    CategoryDrops("video", data.videos, "image");
    CategoryDrops("double-image", data.doubleImages, "image");
    CategoryDrops("quad-image", data.quadImages, "image");
    FilesFilter(q + m + v + d + qd, KnownImageFiles, KnownGifFiles);
  }

  /** Behind entries of other types, the image and GIF entries of a file
      list filter, by the type `image`, to the image entries alone. */
  lemma FilesFilter(head: seq<Banger>, images: seq<string>, gifs: seq<string>)
    requires Filter(head, "image") == []
    ensures Sources(Filter(head + Images(images) + Gifs(gifs), "image")) == images
  {
    var im := Images(images);
    var g := Gifs(gifs);
    FilterAppend(head, im, "image");
    FilterAppend(head + im, g, "image");
    assert forall i :: 0 <= i < |im| ==> TypeOf(im[i]) == Some("image");
    FilterKeepsAll(im, "image");
    assert "gif" != "image";
    assert forall i :: 0 <= i < |g| ==> TypeOf(g[i]) == Some("gif");
    FilterDropsAll(g, "image");
    assert Filter(head + im + g, "image") == im;
  }

  /** No item of the feed's categories carries `type: tag` of its own. */
  predicate NoItemClaims(data: BangersData, tag: string) {
    && Disclaims(data.memes, tag) && Disclaims(data.videos, tag)
    && Disclaims(data.doubleImages, tag) && Disclaims(data.quadImages, tag)
  }

  predicate Disclaims(items: Option<seq<Record>>, tag: string) {
    items.Some? ==> forall i :: 0 <= i < |items.value| ==> TypeOf(items.value[i]) != Some(tag)
  }

  lemma CategoryDrops(category: string, items: Option<seq<Record>>, tag: string)
    requires category != tag && Disclaims(items, tag)
    ensures Filter(Category(category, items), tag) == []
  {
    var c := Category(category, items);
    FilterDropsAll(c, tag);
  }

  /** The `image` property of every entry, in order. */
  function Sources(s: seq<Banger>): (r: seq<string>)
    ensures |r| == |s|
  {
    seq(|s|, i requires 0 <= i < |s| => Field(s[i], "image"))
  }
}
