/** What `generateBanger` writes into the output area (script.js:399-453):
    the rendering of the picked entry by its type tag, or the "nothing
    available" message. The markup is reduced to what it shows. */
module Renderer {
  import opened Wrappers
  import opened Content
  import opened Selector

  /** An `<img>` or a `<video>` element with its `src` attribute. */
  datatype Media = Image(src: string) | Video(src: string)

  /** The output area: its media elements in document order, and the text of
      its paragraph when it has one. */
  datatype Display = Display(media: seq<Media>, text: Option<string>)

  /** The output area after `output.innerHTML = ''`. */
  const Blank: Display := Display([], None)

  const NoBangersMessage: string := "No bangers available for this type!"

  /** The seven type tags the renderer recognises. */
  predicate IsVariant(tag: Option<string>) {
    tag.Some? && tag.value in {"quote", "meme", "video", "gif", "double-image", "image", "quad-image"}
  }

  /** The display of one entry, chosen by its `type`; an unrecognised type
      leaves the output area blank. Every source and text shown is one of the
      entry's own property values, or "undefined" for a missing property. */
  function Render(b: Banger): (d: Display)
    ensures d == Blank <==> !IsVariant(TypeOf(b))
    ensures forall i :: 0 <= i < |d.media| ==> Shows(b, d.media[i].src)
    ensures d.text.Some? ==> Shows(b, d.text.value)
  {
    var t := TypeOf(b);
    if t == Some("quote") then
      Display([], Some(Field(b, "content")))
    else if t == Some("meme") then
      Display([Image(Field(b, "image"))], Some(Field(b, "caption")))
    else if t == Some("video") then
      Display([Video(Field(b, "src"))], Some(Field(b, "caption")))
    else if t == Some("gif") then
      Display([Image(Field(b, "image"))], None)
    else if t == Some("double-image") then
      Display([Image(Field(b, "leftImage")), Image(Field(b, "rightImage"))], Some(Field(b, "caption")))
    else if t == Some("image") then
      Display([Image(Field(b, "image"))], None)
    else if t == Some("quad-image") then
      Display([Image(Field(b, "topLeftImage")), Image(Field(b, "topRightImage")),
               Image(Field(b, "bottomLeftImage")), Image(Field(b, "bottomRightImage"))],
              Some(Field(b, "caption")))
    else
      Blank
  }

  /** `s` is a value one of the entry's properties holds, or the text a
      template literal makes of a missing one. */
  predicate Shows(b: Banger, s: string) {
    s == "undefined" || s in b.Values
  }

  /** The layout of each variant, as a table: the properties whose URLs it
      shows, in order (left to right, top to bottom)... */
  function MediaFields(tag: string): seq<string> {
    match tag
    case "meme" => ["image"]
    case "gif" => ["image"]
    case "image" => ["image"]
    case "video" => ["src"]
    case "double-image" => ["leftImage", "rightImage"]
    case "quad-image" => ["topLeftImage", "topRightImage", "bottomLeftImage", "bottomRightImage"]
    case _ => []
  }

  /** ...and the property whose text it shows after them, if any. */
  function TextField(tag: string): Option<string> {
    match tag
    case "quote" => Some("content")
    case "meme" => Some("caption")
    case "video" => Some("caption")
    case "double-image" => Some("caption")
    case "quad-image" => Some("caption")
    case _ => None
  }

  /** Rendering follows the layout table: one media element per listed
      property, in the listed order, all images except the video's, then the
      text of the listed property. So a quad image shows four images and a
      double image two, a meme one image, a video one video, each followed by
      its caption; a quote shows its text alone; a GIF and an image show one
      image and no caption. */
  lemma RenderLayout(b: Banger)
    requires IsVariant(TypeOf(b))
    ensures var d := Render(b); var t := TypeOf(b).value;
            && |d.media| == |MediaFields(t)|
            && (forall k :: 0 <= k < |d.media| ==> d.media[k].src == Field(b, MediaFields(t)[k]))
            && (forall k :: 0 <= k < |d.media| ==> (d.media[k].Video? <==> t == "video"))
            && d.text == (if TextField(t).Some? then Some(Field(b, TextField(t).value)) else None)
  {
  }

  /** The output of `generateBanger`: the message when no entry matches the
      selector, otherwise the rendering of the candidate at the index drawn
      from `random` (so, by `DrawIndexInterval`, each candidate is shown for
      a share 1/n of the values of `random`). */
  function GenerateBanger(catalog: seq<Banger>, selector: string, random: real): (d: Display)
    requires 0.0 <= random < 1.0
    ensures Candidates(catalog, selector) == [] ==> d == Display([], Some(NoBangersMessage))
    ensures Candidates(catalog, selector) != [] ==>
              var candidates := Candidates(catalog, selector);
              d == Render(candidates[DrawIndex(random, |candidates|)])
  {
    match PickBanger(catalog, selector, random)
    case NoneAvailable => Display([], Some(NoBangersMessage))
    case Picked(_, b) => Render(b)
  }
}
