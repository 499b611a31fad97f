/** The export decision of `copyCurrentBanger` (script.js:92-123) and of
    `selectImage` (script.js:233-238): which copy and save requests are
    issued for the output area, and whether the "No content" notice shows.
    The clipboard and download capabilities themselves are not modelled;
    `now` is the value of `Date.now()`. */
module Export {
  import opened Wrappers
  import opened JsText
  import opened Content
  import opened Renderer

  /** A request to download the media at `url` under `fileName`. */
  datatype SaveRequest = SaveRequest(url: string, fileName: string)

  /** The requests one export issues, and whether it shows the "No content
      to copy" notice. */
  datatype ExportPlan = ExportPlan(copy: Option<string>, save: Option<SaveRequest>, noContentNotice: bool)

  /** `output.textContent`: the text of the paragraph. The indentation the
      templates put around it is whitespace, which `trim` removes anyway
      (JsText.TrimIgnoresPadding). */
  function TextContent(d: Display): string {
    if d.text.Some? then d.text.value else ""
  }

  /** The element kinds `copyCurrentBanger` looks for. */
  datatype ElementKind = Img | VideoElement

  predicate IsKind(m: Media, kind: ElementKind) {
    if kind == Img then m.Image? else m.Video?
  }

  /** `querySelector('img')` / `querySelector('video')`: the source of the
      first element of that kind, if there is one. */
  function First(media: seq<Media>, kind: ElementKind): (r: Option<string>)
    ensures r.None? <==> forall i :: 0 <= i < |media| ==> !IsKind(media[i], kind)
    ensures r.Some? ==> exists i :: 0 <= i < |media| && IsKind(media[i], kind) && media[i].src == r.value
                                    && forall j :: 0 <= j < i ==> !IsKind(media[j], kind)
  {
    if media == [] then None
    else if IsKind(media[0], kind) then Some(media[0].src)
    else
      var r := First(media[1..], kind);
      assert forall j :: 1 <= j < |media| ==> media[j] == media[1..][j - 1];
      r
  }

  const FileNamePrefix: string := "slime-this-"

  /** `slime-this-${Date.now()}` followed by the extension. */
  function FileName(now: nat, extension: string): string {
    FileNamePrefix + Decimal(now) + extension
  }

  /** Two exports at different times never pick the same file name. */
  lemma FileNameInjective(a: nat, b: nat, extension: string)
    requires FileName(a, extension) == FileName(b, extension)
    ensures a == b
  {
    var n := |FileNamePrefix|;
    assert Decimal(a) == FileName(a, extension)[n..|FileName(a, extension)| - |extension|];
    assert Decimal(b) == FileName(b, extension)[n..|FileName(b, extension)| - |extension|];
    DecimalInjective(a, b);
  }

  /** What `copyCurrentBanger` does with the output area. An element that
      carries a `src` attribute has a non-empty `src` property (the attribute
      resolved against the page), so every image or video present counts as
      having a source. */
  function CopyCurrentBanger(d: Display, now: nat): (p: ExportPlan)
    // the trimmed text is copied, and only when it is not empty
    ensures p.copy.Some? <==> !AllWhitespace(TextContent(d))
    ensures p.copy.Some? ==> p.copy.value == Trim(TextContent(d))
    // one save at most: the first image, else the first video
    ensures p.save.Some? <==> First(d.media, Img).Some? || First(d.media, VideoElement).Some?
    ensures First(d.media, Img).Some? ==>
              p.save == Some(SaveRequest(First(d.media, Img).value, FileName(now, ".jpg")))
    ensures First(d.media, Img).None? && First(d.media, VideoElement).Some? ==>
              p.save == Some(SaveRequest(First(d.media, VideoElement).value, FileName(now, ".mp4")))
    // the notice shows exactly when nothing at all is requested
    ensures p.noContentNotice <==> p.copy.None? && p.save.None?
  {
    var text := Trim(TextContent(d));
    var image := First(d.media, Img);
    var video := First(d.media, VideoElement);
    ExportPlan(
      if text != "" then Some(text) else None,
      if image.Some? then Some(SaveRequest(image.value, FileName(now, ".jpg")))
      else if video.Some? then Some(SaveRequest(video.value, FileName(now, ".mp4")))
      else None,
      text == "" && image.None? && video.None?)
  }

  /** Exporting a rendered entry: a quote is copied (when its text is not
      blank) and nothing is saved; every other variant saves its first media
      element (the left or top-left image of a composite) under a `.jpg`
      name, or its video under a `.mp4` name, and copies its caption when the
      caption is not blank. The notice shows only for a blank quote or an
      unrecognised type. */
  lemma ExportRendered(b: Banger, now: nat)
    ensures var p := CopyCurrentBanger(Render(b), now); var t := TypeOf(b);
            && (!IsVariant(t) ==> p == ExportPlan(None, None, true))
            && (IsVariant(t) ==>
                  && (p.save.None? <==> t == Some("quote"))
                  && (t == Some("video") ==>
                        p.save == Some(SaveRequest(Field(b, "src"), FileName(now, ".mp4"))))
                  && (t != Some("quote") && t != Some("video") ==>
                        && |MediaFields(t.value)| > 0
                        && p.save == Some(SaveRequest(Field(b, MediaFields(t.value)[0]), FileName(now, ".jpg"))))
                  && (p.copy.Some? ==> TextField(t.value).Some?
                                       && p.copy.value == Trim(Field(b, TextField(t.value).value)))
                  && (p.noContentNotice <==> t == Some("quote") && AllWhitespace(Field(b, "content"))))
  {
    var t := TypeOf(b);
    var d := Render(b);
    if IsVariant(t) {
      RenderLayout(b);
      if t != Some("quote") {
        assert d.media[0] in d.media;
      }
    }
  }

  /** When no entry matches, `generateBanger` writes its message before it
      returns, and the export that follows copies that message and saves
      nothing. */
  lemma ExportNoBangers(now: nat)
    ensures CopyCurrentBanger(Display([], Some(NoBangersMessage)), now)
            == ExportPlan(Some(NoBangersMessage), None, false)
  {
    var s := NoBangersMessage;
    assert !IsWhitespace(s[0]) && !IsWhitespace(s[|s| - 1]);
    assert TrimStart(s) == s;
    assert TrimEnd(s) == s;
  }

  /** Selecting a gallery image writes it alone into the output area and
      exports it: the image is saved under a `.jpg` name, nothing is copied
      and the "No content to copy" notice does not show. (The "Image
      selected and copied!" notification `selectImage` shows afterwards is
      not modelled.) */
  function SelectImage(src: string, now: nat): (p: ExportPlan)
    ensures p == ExportPlan(None, Some(SaveRequest(src, FileName(now, ".jpg"))), false)
  {
    CopyCurrentBanger(Display([Image(src)], None), now)
  }
}
