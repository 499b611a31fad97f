# slimethis content engine in Dafny

slimethis is a browser meme generator. This project models the content engine of `script.js`:

- **Loading.** `loadContent` assembles one catalog of "bangers" from the bangers feed and two hard-coded file lists. The feed supplies quotes, memes, videos, double images and quad images. The lists are 246 image files and 13 GIF files.
- **Picking.** `generateBanger` filters the catalog by the selected type and picks one entry with `Math.random()`. It renders that entry into the output area by its type tag.
- **Exporting.** `copyCurrentBanger` decides what the output area exports. It copies the trimmed text and saves at most one media item, under the name `slime-this-<Date.now()>.jpg` or `.mp4`. `selectImage` exports a gallery image the same way.
- **Gallery.** The gallery shows the image list 20 at a time. `changePage`, `displayImageGallery` and `updatePaginationControls` move through it and draw it.
- **Colours.** `hexToRgb` reads a `#rrggbb` colour into channel values.

Layout:

- `content.dfy` (`Content`): entries as records, the catalog, and the known file lists.
- `selector.dfy` (`Selector`): the type filter and the random pick.
- `render.dfy` (`Renderer`): the display of an entry, and `generateBanger`'s output.
- `export.dfy` (`Export`): the copy/save/notice decision.
- `gallery.dfy` (`Gallery`): page arithmetic and the pagination controls.
- `session.dfy` (`Session`): the page's mutable state (`allBangers`, `allImages`, `currentPage`) as a class whose methods are the state-changing operations.
- `colour.dfy` (`Colour`): `hexToRgb`.
- `text.dfy` (`JsText`): JavaScript's `trim` and the decimal numeral of an integer.
- `wrappers.dfy` (`Wrappers`): `Option`.

Each entry of the catalog is a JavaScript object. It is modelled as a map from property names to string values. `{ type: tag, ...item }` is the tag overridden by the item's own properties, so an item that carries its own `type` keeps it. A property missing from the entry reads as the text `undefined`, as a template literal shows it.

Outside inputs become parameters:

- `Math.random()` is a real in [0, 1).
- `Date.now()` is a natural number.
- How fetching and parsing the feed ends is a `FeedLoad` value. `LoadFailed` means a failure thrown before the catalog is reset. `NullFeed` means the feed is JSON `null`: the reset happens, then reading it throws. `Loaded` carries the parsed categories.

Details of the code the model keeps:

- An empty gallery has 0 pages, not 1. "Page 1 of 0" is shown and the Next button stays enabled.
- An export saves at most one media item (the first image, else the first video). The file name is `slime-this-<Date.now()>` plus the extension.
- A gallery page holds 20 images.
- The gallery list keeps the eight file names that the hard-coded list repeats.

## Model

| member | source | states |
|---|---|---|
| `JsText.Trim` | script.js:100 | `trim` yields the infix of the text left once leading and trailing whitespace (the ECMAScript set) is removed; the result neither starts nor ends with whitespace, and it is empty exactly when the text is all whitespace |
| `JsText.TrimIgnoresPadding` | script.js:100 | whitespace added around a text does not change its trimmed form, so the template indentation around a caption never reaches the clipboard |
| `JsText.DecimalRoundTrip` | script.js:112 | the numeral `${n}` that a file name embeds reads back as n |
| `JsText.DecimalInjective` | script.js:112 | distinct clock values have distinct numerals |
| `Content.Tagged` | script.js:264 | the spread entry has the item's keys plus `type`; every property of the item is kept, and its type is the item's own `type` if it has one, else the category tag |
| `Content.Quotes` | script.js:258-260 | an absent quotes array adds nothing; otherwise one `quote` entry per string, in order, with the string as `content` |
| `Content.Category` | script.js:263-280 | an absent category adds nothing; otherwise one tagged entry per item, in order |
| `Content.Images` | script.js:355-358 | one `image` entry per file name, in order, with the name as `image` |
| `Content.Gifs` | script.js:368-371 | one `gif` entry per file name, in order, whose `image` is the name under `gifs/` |
| `Content.Catalog` | script.js:255-371 | the catalog's length is the sum of the five category sizes plus the two file-list lengths |
| `Content.FeedEntries` | script.js:255-280 | the feed contributes exactly as many entries as its five categories hold |
| `Content.CatalogLayout` | script.js:255-280 | for every feed, whatever types its items claim, the catalog starts with the quotes, then the memes, videos, double images and quad images, each category as one block in feed order |
| `Content.CategoryEntryAt` | script.js:263-280 | inside a category's block, the i-th entry is the category's i-th item spread after the tag |
| `Content.CatalogMemeAt` | script.js:263-265 | the i-th meme sits right after the quotes, at position quotes + i, whatever `type` the item itself carries |
| `Content.CatalogOrder` | script.js:255-371 | when no feed item claims a type other than its category's, the catalog's types read: all quotes, memes, videos, double images, quad images, then one `image` per known image file and one `gif` per known GIF file |
| `Content.CatalogTail` | script.js:353-371 | the catalog ends with the image entries of the known image files (in order, repeats kept), followed by the GIF entries of the known GIF files |
| `Content.KnownImageFilesRepeat` | script.js:298-351 | the image list has 246 names and the GIF list 13; the 8 names at positions 3-10 come back at positions 173-180, so the list keeps duplicates |
| `Selector.Filter` | script.js:397 | the filter keeps only entries of the type, from the list; every entry of the type is kept; the result is no longer than the list |
| `Selector.FilterAppend` | script.js:397 | filtering a concatenation is the concatenation of the filtered parts, in order |
| `Selector.FilterKeepsAll` | script.js:397 | a list all of whose entries have the type is kept whole |
| `Selector.FilterDropsAll` | script.js:397 | a list none of whose entries has the type filters to nothing |
| `Selector.Candidates` | script.js:395-397 | the selector `all` draws from the whole catalog; any other selector draws from the filtered catalog: exactly the catalog entries of that type, in catalog order |
| `Selector.DrawIndex` | script.js:405 | `Math.floor(random * n)` is a valid index when random lies in [0, 1) |
| `Selector.DrawIndexInterval` | script.js:405 | index i is drawn exactly when random lies in [i/n, (i+1)/n), so a uniform random gives a uniform pick |
| `Selector.PickBanger` | script.js:395-405 | nothing is picked exactly when there are no candidates; otherwise the pick is the candidate at index floor(random * n), a catalog entry of the selected type |
| `Selector.PickNothingOfAbsentType` | script.js:395-402 | a type that no entry has yields nothing, whatever random is |
| `Selector.ImageEntriesAreGallery` | script.js:354-358 | when no feed item claims type `image`, the `image` entries of the loaded catalog show exactly the gallery list, in order |
| `Renderer.Render` | script.js:413-453 | the seven type tags each get a display, and any other type leaves the output blank; every source and text shown is one of the entry's own values, or `undefined` |
| `Renderer.RenderLayout` | script.js:415-452 | each variant shows the media and text listed in its layout table, in order (only the video variant uses a video element) |
| `Renderer.GenerateBanger` | script.js:395-453 | with no candidates the output is the "No bangers available for this type!" message; otherwise it is the display of the candidate at index floor(random * n) |
| `Export.First` | script.js:108-109 | `querySelector` gives the source of the first image (or video) in document order, and nothing exactly when there is none |
| `Export.FileNameInjective` | script.js:112-116 | exports at different clock values use different file names |
| `Export.CopyCurrentBanger` | script.js:92-123 | the trimmed text is copied exactly when it is not blank; at most one save is made (the first image as `.jpg`, else the first video as `.mp4`), and it is made exactly when a media element exists; the notice shows exactly when nothing is copied or saved |
| `Export.ExportRendered` | script.js:92-123 | exporting a rendered entry saves a video as `.mp4`; every other non-quote variant saves its first image as `.jpg`; a quote saves nothing; a caption is copied trimmed; the notice shows only for a blank quote or an unrecognised type |
| `Export.ExportNoBangers` | script.js:399-401 | when no entry matches, the message is written before `generateBanger` returns, so the export that follows copies "No bangers available for this type!" and saves nothing |
| `Export.SelectImage` | script.js:233-236 | selecting a gallery image saves it as `.jpg`, copies nothing, and does not show the "No content to copy" notice |
| `Gallery.TotalPages` | script.js:179 | the page count is the ceiling of n/20: the fewest 20-image pages that hold n images, and 0 exactly when n is 0 |
| `Gallery.PageImages` | script.js:204-206 | a page holds at most 20 images: those from index (page-1)*20 on, cut off at the end of the list |
| `Gallery.PagesThroughPrefix` | script.js:204-206 | pages 1 to k laid end to end are the first 20k images, or all of them |
| `Gallery.PagesCoverImages` | script.js:178-206 | pages 1 to the page count together are exactly the image list, with nothing skipped or repeated |
| `Gallery.ImageOnOnePage` | script.js:178-206 | image i sits on page i/20+1, which `changePage` accepts, at place i%20, and at no other page and place |
| `Gallery.ButtonsMatchNavigation` | script.js:178-199 | Previous is disabled exactly when going back would be refused, and Next exactly when going on would be refused; an empty gallery is the exception, where Next stays enabled while every page is refused |
| `Session.ContentEngine.constructor` | script.js:126-128 | the state starts with an empty catalog, an empty gallery list and page 1 |
| `Session.ContentEngine.LoadContent` | script.js:241-386 | a failure thrown before the reset leaves the state unchanged; a `null` feed empties the catalog and keeps the gallery list; a successful load sets the catalog to the assembled catalog and the gallery list to the known image list; the current page is kept |
| `Session.ContentEngine.DisplayImageGallery` | script.js:202-231 | the tiles drawn are the images of the current page, in order |
| `Session.ContentEngine.UpdatePaginationControls` | script.js:187-200 | the label shows the current page and the page count; the button states match `changePage`'s acceptance, as in `Gallery.ButtonsMatchNavigation` |
| `Session.ContentEngine.ChangePage` | script.js:178-185 | a page outside 1 to the page count changes nothing and draws nothing; any other page becomes current and its images are drawn |
| `Colour.ParseGroup` | script.js:962-964 | a two-digit hexadecimal group is a channel value below 256 |
| `Colour.HexToRgb` | script.js:959-966 | a colour is returned exactly when the string is six hexadecimal digits (either case), optionally after one `#`; each channel is below 256 |
| `Colour.FormatThenParse` | script.js:959-966 | every colour with channels in range reads back from its `#rrggbb` form |
| `Colour.ParseThenFormat` | script.js:959-966 | a string that parses is the `#rrggbb` form of its colour, up to letter case and the optional `#`; so parsing ignores case |

## Left out

- DOM and HTML are not modelled. Markup, styles, the `innerHTML` parsing of interpolated text, notifications and console logging are reduced to the `Display` value: the media elements and the paragraph text.
- A property value is shown as written, including markup characters, although the browser would parse them as HTML.
- The clipboard write, the download and their fallbacks (`copyToClipboard`, `saveMedia`) are left out. They are I/O; the model stops at the requests `copyCurrentBanger` issues.
- The `innerText` fallback of script.js:100 is left out. It is only consulted when the trimmed `textContent` is empty, and then it is empty too for the markup the renderer writes.
- The early return of `copyCurrentBanger` when there is no output element is left out. The page always has one.
- The `src` property's resolution of a relative URL against the page is not modelled. The saved URL is the attribute as written.
- Fetching `assets-config.json` and `bangers.json` is reduced to the `FeedLoad` value given to `LoadContent`. The config's content is never used. Failed fetches, the `ok` check and JSON parse failures are all `LoadFailed`.
- The "Image selected and copied!" notification of script.js:237 is left out. `selectImage` always shows it after the export, even though nothing is copied; it is a notification, like the others.
- Feed values that are not strings are left out. Only string properties of items are modelled.
- A category that is present and truthy but not an array is left out. Such a category throws midway through loading, after the catalog has been reset.
- `Math.random()` is a real number, not a double. `Date.now()` is a natural number; a negative clock is not modelled.
- In the generate and type-change handlers (script.js:472-475, 823-831), `copyCurrentBanger` runs as soon as `generateBanger` returns. When a banger is picked, the animation callback has not yet written it, so the export uses the previous display. When none matches, the message is already written and is what gets copied (`Export.ExportNoBangers`). The model exports a given display and does not model that timing.
- A gallery tile sits inside the output area, so a click on it also reaches the output's click handler (script.js:834-837). That runs `generateBanger` right after `selectImage`. With `gallery` selected, no entry normally has that type, so the "No bangers available" message at once replaces the selected image. The model treats `selectImage` on its own and does not model this event bubbling.
- Pagination control creation and the insertion of the controls into the page are left out. They are DOM.
- The type-change handler's switch to the gallery is not modelled beyond `DisplayImageGallery`.
- `rgbToHsl`, `hslToRgb`, themes, the colour pickers and `localStorage` are not part of this model, and neither are the GSAP animations, `debounce`, the starfield and the cursor effects.
- `experimental.js`, `cyber-bg.js`, `neon-cursor.js` and `neon-grid.js` are not part of this model.
