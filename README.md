# Property-details page: lightbox viewer, photo grid and star rating

This project models the interactive core of the property-details page of a
React front end (`src/components/PropertyDetails.jsx`):

- **the lightbox**: a full-screen image viewer over a non-empty list of
  images. It keeps a current `index` and a zoom `scale`. The arrows move the
  index with wrap-around. The zoom buttons step the scale by 0.25 within
  [1, 3]. The mouse wheel steps it by 0.1 against the sign of the wheel delta,
  clamped to [1, 3]. "Reset" restores scale 1. A "position / total" counter is
  shown in the toolbar.
- **the page wiring**: `openLightbox(idx)` records the index and shows the
  viewer. Close hides it. Because hiding unmounts the viewer, the next open
  starts afresh on the recorded index at scale 1.
- **the photo grid**: the first five images as tiles. Tile `p` opens the
  viewer on image `p`. Tile 4 carries a "+ (n − 4) photos" badge.
- **the star rating**: how many full, half and empty star icons a rating
  value is drawn with.

Layout of the Dafny project:

- `viewer_spec.dfy`, module `ViewerSpec`: the viewer as a pure state machine.
  It has one `Event` per handler that changes the index or the scale, `Step` for one handler and `Run` for a
  sequence of them, with the lemmas about sequences of handlers.
- `property_details.dfy`, module `PropertyDetails`: the component state as
  classes. `Lightbox` has the `index` and `scale` cells and one method per
  handler. Each method's postcondition equates the new state with `Step`
  applied to the old one. `PropertyPage` has the `showLightbox` and
  `lightboxIndex` cells and the mounted viewer.
- `gallery.dfy`, module `Gallery`: the preview tiles and their badge.
- `stars.dfy`, module `Stars`: the icon counts of the rating widget.

The zoom scale is an exact Dafny `real`. The source works with JavaScript
doubles; see "Left out".

Behaviour of the code that the model keeps as written:

- `openLightbox` (lines 100-103) neither wraps its argument nor guards
  against an empty list. Its only caller is a preview tile, whose index is
  below `n`, so `OpenLightbox` requires `0 <= idx < |images|`.
- The badge on tile 4 counts `images.length - 4` (line 164), and is drawn
  only when tile 4 exists: "+ 4 photos" for the page's eight seed photos.
- The handlers exist only while `Lightbox` is mounted, so
  `PropertyPage.lightbox` is `null` while the viewer is hidden and nothing
  can receive them.
- A second `openLightbox` while the viewer is already shown changes
  `lightboxIndex` but does not remount the viewer. The viewer keeps its own
  index and scale. A mouse click cannot reach this case, because the overlay
  covers the tiles, but Enter or Space on a tile that still has keyboard
  focus can: the overlay neither takes nor traps focus. `OpenLightbox` and
  `ClickTile` state what happens then.

## Model

| member | source | states |
|---|---|---|
| `ViewerSpec.ZoomInScale` | src/components/PropertyDetails.jsx:57 | zoom-in never exceeds 3; it is exactly one 0.25 step up whenever `s + 0.25 <= 3`, and otherwise 3; from a scale in [1, 3] it stays in [1, 3] and does not decrease |
| `ViewerSpec.ZoomOutScale` | src/components/PropertyDetails.jsx:60 | zoom-out never goes below 1; it is exactly one 0.25 step down whenever `s - 0.25 >= 1`, and otherwise 1; from a scale in [1, 3] it stays in [1, 3] and does not increase |
| `ViewerSpec.Sign` | src/components/PropertyDetails.jsx:43 | `Math.sign` of the wheel delta is -1, 0 or 1, positive exactly for a positive delta and negative exactly for a negative one |
| `ViewerSpec.WheelScale` | src/components/PropertyDetails.jsx:41-45 | the wheel always yields a scale in [1, 3]; a positive delta never increases the scale, a negative one never decreases it, a zero delta leaves it; whenever `s - sign(deltaY) * 0.1` lies in [1, 3] the result is exactly that one notch |
| `ViewerSpec.NextIndex` | src/components/PropertyDetails.jsx:39 | from an index in [0, n) "next" stays in [0, n), going to `i + 1`, or from `n - 1` wrapping to 0 |
| `ViewerSpec.PrevIndex` | src/components/PropertyDetails.jsx:38 | from an index in [0, n) "previous" stays in [0, n), going to `i - 1`, or from 0 wrapping to `n - 1` |
| `ViewerSpec.Initial` | src/components/PropertyDetails.jsx:34-35 | a freshly mounted viewer starts on the given index at scale 1, a valid state for every list longer than that index |
| `ViewerSpec.Step` | src/components/PropertyDetails.jsx:38-60 | every handler keeps the index in [0, n) and the scale in [1, 3]; the arrows leave the scale alone; zoom, wheel and reset leave the index alone; reset yields scale 1 from any state |
| `ViewerSpec.RunKeepsInvariant` | src/components/PropertyDetails.jsx:34-60 | from a valid state, in particular the initial one, any sequence of handlers keeps the index in [0, n) and the scale in [1, 3] |
| `ViewerSpec.ZoomingKeepsIndex` | src/components/PropertyDetails.jsx:41-60 | any sequence of zoom, wheel and reset handlers leaves the index unchanged |
| `ViewerSpec.NavigatingKeepsScale` | src/components/PropertyDetails.jsx:38-39 | any sequence of arrow presses leaves the scale unchanged |
| `ViewerSpec.NextPrevCancel` | src/components/PropertyDetails.jsx:38-39 | "next" then "previous", and "previous" then "next", return to the original state |
| `ViewerSpec.ZoomInOutCancel` | src/components/PropertyDetails.jsx:57-60 | from any scale in [1, 2.75], zoom-in then zoom-out returns exactly to it |
| `ViewerSpec.ZoomOutInCancel` | src/components/PropertyDetails.jsx:57-60 | from any scale in [1.25, 3], zoom-out then zoom-in returns exactly to it |
| `ViewerSpec.NextRepeated` | src/components/PropertyDetails.jsx:39 | `k` presses of "next" take index `i` to `(i + k) mod n` and keep the scale |
| `ViewerSpec.PrevRepeated` | src/components/PropertyDetails.jsx:38 | `k` presses of "previous" take index `i` to `(i - k) mod n` and keep the scale |
| `ViewerSpec.FullCircle` | src/components/PropertyDetails.jsx:38-39 | `n` presses of "next", or of "previous", return the viewer to the state it started in |
| `ViewerSpec.WheelUpRepeated` | src/components/PropertyDetails.jsx:41-45 | `k` notches with a negative delta set the scale to `min(3, s + k * 0.1)` and keep the index |
| `ViewerSpec.WheelDownRepeated` | src/components/PropertyDetails.jsx:41-45 | `k` notches with a positive delta set the scale to `max(1, s - k * 0.1)` and keep the index |
| `ViewerSpec.WheelSaturates` | src/components/PropertyDetails.jsx:41-45 | from the initial state thirty negative notches reach exactly 3 and ten positive notches stay at exactly 1 |
| `PropertyDetails.Lightbox.constructor` | src/components/PropertyDetails.jsx:33-35 | mounting over a non-empty list with an index in range gives a valid viewer on that index at scale 1 |
| `PropertyDetails.Lightbox.Prev` | src/components/PropertyDetails.jsx:38 | the new state is `Step` of the old one for "previous": the index moves back one with wrap-around, the scale is kept |
| `PropertyDetails.Lightbox.Next` | src/components/PropertyDetails.jsx:39 | the new state is `Step` of the old one for "next": the index moves on one with wrap-around, the scale is kept |
| `PropertyDetails.Lightbox.OnWheel` | src/components/PropertyDetails.jsx:41-45 | the new state is `Step` of the old one for the wheel: index kept, scale not increased for a positive delta, not decreased for a negative one, unchanged for zero |
| `PropertyDetails.Lightbox.ResetZoom` | src/components/PropertyDetails.jsx:47 | the scale becomes 1 and the index is kept |
| `PropertyDetails.Lightbox.ZoomIn` | src/components/PropertyDetails.jsx:57 | the new state is `Step` of the old one for zoom-in: index kept, scale not decreased, one 0.25 step up below the cap |
| `PropertyDetails.Lightbox.ZoomOut` | src/components/PropertyDetails.jsx:60 | the new state is `Step` of the old one for zoom-out: index kept, scale not increased, one 0.25 step down above the floor |
| `PropertyDetails.Lightbox.Counter` | src/components/PropertyDetails.jsx:54 | the counter reads `index + 1` over `n`, with `index + 1` in [1, n] |
| `PropertyDetails.Lightbox.Shown` | src/components/PropertyDetails.jsx:72 | the image on screen is the one the counter points at, an element of the list |
| `PropertyDetails.PropertyPage.constructor` | src/components/PropertyDetails.jsx:96-98 | the page starts with the lightbox hidden, not mounted, and `lightboxIndex` 0 |
| `PropertyDetails.PropertyPage.OpenLightbox` | src/components/PropertyDetails.jsx:100-103 | the lightbox is shown and `lightboxIndex` is `idx`; if it was hidden, a fresh viewer is mounted on `idx` at scale 1; if it was already shown, the mounted viewer is kept |
| `PropertyDetails.PropertyPage.Close` | src/components/PropertyDetails.jsx:316-317 | the lightbox is hidden and unmounted; `lightboxIndex` is kept |
| `PropertyDetails.PropertyPage.ClickTile` | src/components/PropertyDetails.jsx:155-158 | activating tile `p` shows the lightbox and records `p` as `lightboxIndex`; if it was hidden, a fresh viewer is mounted on index `p` at scale 1, showing the tile's own image, with counter `p + 1` over `n`; if it was already shown (keyboard activation of a focused tile), the mounted viewer is kept |
| `PropertyDetails.ReopenStartsFresh` | src/components/PropertyDetails.jsx:316-317 | after zooming, browsing and closing, a second open starts on the requested index at scale 1 |
| `PropertyDetails.WrapAroundExample` | src/components/PropertyDetails.jsx:39 | over three images opened on the second, two "next" presses wrap to index 0 |
| `PropertyDetails.ZoomButtonsExample` | src/components/PropertyDetails.jsx:57-60 | three zoom-in presses from 1 give 1.75, and a zoom-out then gives 1.5 |
| `Gallery.Preview` | src/components/PropertyDetails.jsx:155 | the grid shows `min(5, n)` images, an in-order prefix of the list |
| `Gallery.Tiles` | src/components/PropertyDetails.jsx:155-164 | one tile per previewed image; tile `p` shows image `p` and opens index `p < n`; a tile carries a badge exactly when it is tile 4 |
| `Gallery.BadgeExactlyWhenFivePlus` | src/components/PropertyDetails.jsx:162-164 | some tile carries a badge exactly when `n >= 5`, and then tile 4's badge counts `n - 4`, at least 1 |
| `Gallery.TileReachesImage` | src/components/PropertyDetails.jsx:155-158 | image `i` can be opened from the grid exactly when `i < 5`, and then only through tile `i` |
| `Gallery.EightPhotos` | src/components/PropertyDetails.jsx:155-164 | with eight images the grid has five tiles and the last reads "+ 4 photos" |
| `Stars.Trunc` | src/components/PropertyDetails.jsx:19 | rounding toward zero: the floor for non-negative values, within one above the value for negative ones |
| `Stars.JsRemOne` | src/components/PropertyDetails.jsx:19 | `value % 1` is the fractional part, in [0, 1), for non-negative values and lies in (-1, 0] for negative ones |
| `Stars.Icons` | src/components/PropertyDetails.jsx:17-28 | `full` is the floor of the value; for non-negative values `half` holds exactly when the fractional part is at least 0.5; for negative values it never holds; the three counts add up to 5 |
| `Stars.Drawn` | src/components/PropertyDetails.jsx:22-28 | a count draws that many icons, and a negative count draws none |
| `Stars.RatingInRangeDrawsFive` | src/components/PropertyDetails.jsx:17-28 | for a rating in [0, 5] all counts are non-negative, a half star only appears below 5, and exactly five icons are drawn |
| `Stars.RatingAboveRangeOverflows` | src/components/PropertyDetails.jsx:17-28 | from 5.5 up the empty count is negative and more than five icons are drawn |
| `Stars.HeroRating` | src/components/PropertyDetails.jsx:138 | the hero's 4.6, like the default 4.5, draws four full stars, one half star and no empty star |

## Left out

- The scroll-driven background: its hue and opacity come from framer-motion's
  `useScroll` and `useTransform`. Their interpolation is not in the modelled
  code, and their outputs are floating-point render parameters.
- Floating point: the scale is an exact `real`. The rounding of repeated
  0.1 wheel steps in JavaScript doubles is not modelled.
- `Math.sign` of NaN and of negative zero, which a real wheel delta cannot
  take.
- A lightbox over an empty list. There `%` by zero gives NaN in JavaScript.
  The page always passes its eight seed photos, so `Lightbox` requires a
  non-empty list. The seed list itself is a constructor parameter of
  `PropertyPage`.
- The text formatting of the counter ("i / n") and of the badge: the model
  gives the numbers, not the strings.
- Event plumbing (`preventDefault`, the container ref), `window.open` for
  sharing, the footer year, all layout and CSS, motion animations, the 3D
  scene, the video and map embeds, and the static copy, reviews and pricing.
- `src/App.jsx`: it only renders a router link and an animation.
