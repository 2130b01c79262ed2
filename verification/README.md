# Gallery resolver, lightbox captions, enquiry record and stat reading

A Dafny model of the pure logic inside `script.js`, the client-side script of
a corporate-gifting catalogue website:

- **Gallery resolver** (`fetchGalleryImages`): a gallery path is looked up in a
  fixed table of filename patterns and image counts. A table path yields the
  URLs `path/pattern-1.jpg` … `path/pattern-max.jpg`. Any other path yields 100
  URLs named after its last `/`-separated segment (as written, a name inherited from Object.prototype yields no URLs; see Findings).
- **Gallery click handler and lightbox captions** (`showLightboxGallery`): an
  empty image list raises the "Unable to load gallery" alert. Otherwise image
  `k` (1-based) gets the alt text `title - Image k` and the counter `k / n`.
- **Enquiry record** (`sendFormData`): the object posted to the spreadsheet
  endpoint. It has a timestamp and seven form fields. An absent field becomes `""`.
- **Stat reading** (statistics observer): the text with every non-digit
  removed, plus whether it contained `+` or `%`.

Modules: `Wrappers` (Option/Result), `Decimal` (decimal rendering of numbers
and its inverse), `Paths` (`split` and `split("/").pop()`), `Gallery`,
`Lightbox`, `Submission`, `Stats`. The gallery table is transcribed entry by
entry as a `map`. Numbers in URLs and labels are rendered by
`Decimal.NatToString`, which is proved invertible. That proof is what makes
the URLs pairwise distinct and the labels parse back to their numbers.

## Model

| member | source | states |
|---|---|---|
| Decimal.NatToString | script.js:196 | the rendered number is a non-empty digit string with no superfluous leading zero; it starts with '0' only for zero |
| Decimal.ParseNatToString | script.js:196 | reading a rendered image number back in base ten gives the number |
| Decimal.NatToStringOfParse | script.js:196 | every canonical digit string is the rendering of its own value (the other direction of the round trip) |
| Decimal.NatToStringInjective | script.js:195-197 | distinct image numbers are rendered differently |
| Paths.Split | script.js:201 | `split` yields at least one piece, no piece contains the separator, and joining the pieces with the separator gives the input back |
| Paths.LastSegmentIsTail | script.js:201 | `split("/").pop()` is the slash-free tail of the path, and it is either the whole path or preceded by '/' |
| Paths.LastSegmentOfSlashFree | script.js:201 | a path with no '/' is its own last segment |
| Paths.LastSegmentAfterTrailingSlash | script.js:201 | a path ending in '/' has an empty last segment |
| Paths.LastSegmentAfterSlash | script.js:201 | the last segment of `dir/name` is `name`, whatever `dir` is |
| Gallery.ImageUrl | script.js:196 | every image URL lies in the gallery's directory (`path/` prefix) and ends with `.jpg` |
| Gallery.ParseImageUrlIff | script.js:196 | a URL parses to image number i exactly when it is the URL of image i of that gallery and stem |
| Gallery.ImageUrlInjective | script.js:195-197 | different image numbers give different URLs |
| Gallery.TableCountsPositive | script.js:134-188 | every table entry lists at least one image |
| Gallery.InheritedNotConfigured | script.js:134-191 | no Object.prototype member name is a table key |
| Gallery.CollectImages | script.js:195-198 | the counting loop yields exactly `count` URLs; position k holds image k+1, so the numbers run 1..count in order without gaps |
| Gallery.FetchGalleryImages | script.js:132-209 | (own-key lookup; as written, inherited names differ, see Findings) a table path yields exactly its `max` URLs under its pattern; any other path yields 100 URLs named after its last segment; the list is never empty; all URLs are in `path/`, end in `.jpg` and are pairwise distinct |
| Gallery.FetchGalleryImagesAsWritten | script.js:190-205 | with the script's object lookup, an inherited member name yields no images; every other path yields exactly the URLs of the own-key lookup, in the same order |
| Gallery.InheritedNameYieldsNoImages | script.js:190-198 | "toString" is not a table key, yet the script's lookup plans zero images for it, where the own-key lookup falls back to 100 |
| Gallery.LookupIsExact | script.js:151-158 | lookup uses the whole path: "…/crystal" is a prefix of "…/crystal tro", yet they are separate entries with different patterns and counts |
| Gallery.PatternIsNotLastSegment | script.js:167-170 | "…/N series" uses the pattern "N SERIES 25-26", not its last segment "N series" |
| Gallery.FallbackNamesLastSegment | script.js:199-205 | the unknown path "images/catalogs/foo/bar" falls back to stem "bar" and 100 images, the last being `…/bar/bar-100.jpg` |
| Gallery.BottlesGalleryEntry | script.js:179-182 | the bottles gallery lists 10 images under "Aquabot Bottle and Drinkware 2025" |
| Gallery.TenthImageUrl | script.js:196 | image 10 is written `-10.jpg` in plain decimal |
| Lightbox.ParseCounterIff | script.js:223 | a counter label parses to (position, total) exactly when it is `position / total` |
| Lightbox.CounterLabelParses | script.js:223 | the counter `position / total` parses back to (position, total) |
| Lightbox.ParseCounterSound | script.js:223 | a text that parses to (position, total) is the counter label `position / total` |
| Lightbox.CounterLabelInjective | script.js:223 | distinct (position, total) pairs give distinct counter labels |
| Lightbox.AltTextInjective | script.js:222 | within one gallery, distinct image numbers give distinct alt texts |
| Lightbox.RenderCaptions | script.js:217-226 | one caption per image, in order; caption k has the image's URL, alt `title - Image k+1` and counter `k+1 / n` |
| Lightbox.ShowGallery | script.js:106-121 | the load-failure alert happens exactly when the image list is empty; otherwise every image is captioned |
| Lightbox.OpenGallery | script.js:91-121 | with the own-key lookup the lightbox always opens, with the table count or 100 images; caption k shows the resolved URL of image k+1, the alt `title - Image k+1` and the counter `k+1 / n`, which parses back to (k+1, n) |
| Lightbox.OpenGalleryAsWritten | script.js:104-121 | as written, the click handler shows the load-failure alert exactly for gallery paths that name an inherited object member; otherwise it shows the same captions as the own-key lookup |
| Submission.FieldOrEmpty | script.js:16-22 | an absent field reads as "", and a present field is copied unchanged (the `|| ""` on an empty string also gives "") |
| Submission.BuildPayload | script.js:14-23 | the timestamp is the one given; each of the seven fields is the form's value, or "" when absent |
| Submission.GetKeys | script.js:14-23 | a record answers to exactly the eight keys `timestamp, name, email, phone, occasion, quantity, budget, message` |
| Submission.EntriesRoundTrip | script.js:14-23 | the written-out record lists its eight keys in declaration order with their values, and reads back to the same record |
| Submission.ResubmitIsIdentity | script.js:14-23 | building a record from an earlier record's fields with the same timestamp reproduces that record |
| Submission.OnlyNamedFieldsMatter | script.js:16-22 | forms that agree on the seven named fields give the same record, whatever other entries they hold |
| Submission.EmptyFormPayload | script.js:14-23 | an empty form still gives all eight keys, with every field "" |
| Stats.StripNonDigits | script.js:410 | the stripped text consists of digits only and is no longer than the input |
| Stats.StripCounts | script.js:410 | every digit occurs in the result as often as in the input, and no non-digit occurs at all |
| Stats.StripConcat | script.js:410 | stripping distributes over concatenation, so the digits keep their original order |
| Stats.StripFixesExactlyDigitStrings | script.js:410 | stripping leaves a text unchanged exactly when it consists only of digits |
| Stats.StripIdempotent | script.js:410 | stripping twice is the same as stripping once |
| Stats.ReadStat | script.js:410-412 | one pass over the text yields its digits in order, and it reports '+' and '%' exactly when they occur |
| Stats.ThousandsSeparatorDropped | script.js:410 | "10,000+" reads as the digits "10000" |

## Left out

- The POST to the spreadsheet endpoint (`fetch` in `no-cors` mode) and its success or failure handling. It is network I/O whose response the script cannot observe.
- The current-time timestamp (`toLocaleString` in the India time zone). It depends on locale and clock, so the model takes it as a parameter.
- `parseInt` of the stripped digits, including its NaN result for an empty string. These are JavaScript number-conversion semantics, so only the string filter is modelled.
- The count-up animation, parallax, navbar shadow and scroll-reveal observers. They are timer- and scroll-driven floating-point DOM effects.
- The lightbox markup, closing it (button, backdrop, Escape), its key listener and the scroll lock. These are DOM lifecycle, not stateable logic.
- The loading overlay, the mobile-menu toggles, the dropdowns, smooth scrolling, the modal, and opening catalogue PDFs in a new tab. This is event wiring that only toggles classes or opens windows.
- Form field validation (name, phone, quantity, email, word count). `script.js` has no such code, and the file that holds it is not part of this model.
- Submission.FieldOrEmpty: form values are strings, as `Object.fromEntries` of form data gives them. Other falsy JavaScript values (null, 0, false), which `|| ""` would also turn into "", are not modelled.

## Findings

| source | as written | input that shows it | evidently intended | confidence | as-written member | corrected member |
|---|---|---|---|---|---|---|
| script.js:191-198 | `galleryConfig[galleryPath]` indexes an object literal, so names inherited from Object.prototype also resolve to a truthy value. That value has no `max`, the loop `i <= undefined` never runs, and the list is empty | gallery path "toString" (also "constructor", "__proto__", …) gives `[]`, and the click handler shows "Unable to load gallery" | only the table's own keys are configured; any other path falls back to 100 URLs named after its last segment, so the list is never empty | not executed; the lookup semantics are standard JavaScript, but only markup naming such a path would trigger it | Gallery.FetchGalleryImagesAsWritten | Gallery.FetchGalleryImages |
