# Watermark editor and sitemap: a Dafny model

This project models the ID-card watermark editor of the youjing.dev site, along with the site's XML sitemap generator.

In the editor, the user uploads a front and a back image. Each side gets a "strike-and-label" mark: two parallel lines with centred text. The user places the mark by dragging it on a 1500-pixel-wide canvas, then downloads each side, or both sides stacked into one image.

The model covers the following:

- **Geometry** (`geometry.dfy`):
  - how a pointer position on the displayed canvas maps to canvas pixels;
  - the rotated hit test: translate to the anchor, rotate by the negated angle, then test the fixed box [-100, 300] × [-50, 50];
  - the forward transform that is used when the mark is drawn.
- **Marking** (`marking.dfy`):
  - the per-side settings record, the drag record and their initial values;
  - the anchor arithmetic of a drag.
- **Editor** (`editor.dfy`): a class that holds the two images, the two settings records and the single drag record. Both canvases share that drag record. Press, move and release are methods that update these fields in place. Its invariant says that a drag does not drift: since the last press, the two anchors have moved, in total, by exactly the distance from the press point to the current drag start point.
- **Render** (`render.dfy`):
  - the canvas size;
  - the centred and scaled image box;
  - the mark's guide box and strike lines.

  A `Canvas` class carries the width and height that a render overwrites. The model has no pixels. A render instead returns a `Frame`, which records what is drawn and where.
- **Ingest** (`ingest.dfy`):
  - the HEIC/HEIF check on upload;
  - the failure branch of the conversion;
  - the regular-expression rename to `.jpg`.
- **Export** (`export.dfy`): the download file names and the layout of the combined download.
- **Sitemap** (`sitemap.dfy`): the sitemap text, one `<url>` entry per page, and the fixed list of served pages.

A few inputs are not computed in Dafny:

- **Trigonometry.** The caller supplies it as a pair `Turn(c, s)`: the cosine and sine of the negated mark angle, with c² + s² = 1 where a lemma needs it.
- **Text measurement.** This is a `Metrics(width, height)` input.
- **The clock.** The sitemap's `lastmod` is a parameter.

Behaviour of the code worth knowing:

- **Hit box.** The hit box is the fixed rectangle written in the handlers; it does not depend on the text. `Render.StrikeLinesInGuide` states exactly when the drawn lines fit inside that fixed box.
- **Pointer input.** The handlers take mouse events only. There is no touch path.
- **Shared drag record.** Both canvases share one drag record. The handlers alone would let a drag begun on one canvas continue over the other canvas and move that side's mark. The page never delivers that sequence: each canvas ends the drag when the pointer leaves it (components/IDMarkingClient.tsx:469, 586), before any move over the other canvas arrives. The editor's invariant therefore counts both sides together, and a second part of it says that while every move came from the pressed canvas, the other side's mark has not moved (`Editor.Editor.SameSideNoDrift`).
- **Canvas height.** The canvas height is an integer attribute, so the assignment `1500 * (h / w)` is truncated. The drawn image height uses the untruncated value. At a scale of 1, the image is therefore exactly inside the canvas only when the aspect height is a whole number. Otherwise it overhangs by less than half a pixel at the top and the bottom (`Render.ImageInside`, `Render.FullScaleOffset`).

## Model

| member | source | states |
|---|---|---|
| `Geometry.ToCanvas` | components/IDMarkingClient.tsx:82-91 | canvas x · rect.width = (clientX − rect.left) · canvas.width, the same for y; the rectangle's left/top edge maps to 0 and its right/bottom edge maps to the canvas width/height |
| `Geometry.ToCanvasRoundTrip` | components/IDMarkingClient.tsx:82-91 | mapping a pointer to the canvas and back, or a canvas pixel to the client and back, is the identity (for a non-degenerate rectangle and canvas) |
| `Geometry.ToCanvasInside` | components/IDMarkingClient.tsx:82-91 | on each axis separately, a pointer lies inside the displayed rectangle if and only if its canvas position lies inside the canvas |
| `Geometry.ToMarkSpace` | components/IDMarkingClient.tsx:106-112 | the hit test's transform of a point into the mark's frame; at rotation 0 it is the plain offset from the anchor |
| `Geometry.FromMarkSpace` | components/IDMarkingClient.tsx:278-279 | the drawing transform from the mark's frame to the canvas; at rotation 0 it is the plain translation by the anchor, and the origin of the frame lands on the anchor |
| `Geometry.InBox` | components/IDMarkingClient.tsx:114-121 | a mark-space point is in the box exactly when −100 ≤ x ≤ 300 and −50 ≤ y ≤ 50; the origin (the anchor) is in the box |
| `Geometry.MarkSpaceRoundTrip` | components/IDMarkingClient.tsx:101-112 | for a proper rotation, the hit test's translate-then-inverse-rotate and the render's rotate-then-translate undo each other, in both orders |
| `Geometry.AnchorToOrigin` | components/IDMarkingClient.tsx:101-108 | translating and rotating the anchor itself into mark space gives the origin, for every rotation |
| `Geometry.Hit` | components/IDMarkingClient.tsx:101-121 | the anchor itself is always a hit, for every rotation; at rotation 0 a hit is exactly x ∈ [xPos−100, xPos+300] and y ∈ [yPos−50, yPos+50] |
| `Geometry.MarkSpaceKeepsDistance` | components/IDMarkingClient.tsx:106-112 | the inverse rotation keeps each point's squared distance from the anchor |
| `Geometry.HitReach` | components/IDMarkingClient.tsx:145-160 | for every rotation, every point within 50 px of the anchor is a hit, and every hit lies within √(300² + 50²) of the anchor |
| `Marking.DefaultSettings` | components/IDMarkingClient.tsx:22-30 | default text "FOR PRIVATE USE ONLY", line width 5, size 48, rotation −45, anchor (400, 300), scale 1 |
| `Marking.InitialDrag` | components/IDMarkingClient.tsx:43-50 | the drag record starts not dragging, with no kind and zero start values |
| `Marking.Follow` | components/IDMarkingClient.tsx:176-186 | the anchor after a sequence of drag moves: no move leaves it in place, and one move shifts it by the step from the start point |
| `Marking.FollowTelescopes` | components/IDMarkingClient.tsx:176-186 | over any non-empty sequence of moves, the anchor ends at start anchor + (last point − press point), with no drift |
| `Editor.Shifted` | components/IDMarkingClient.tsx:179-183 | a drag step moves the anchor by (dx, dy) and leaves text, line width, size, rotation and scale unchanged |
| `Editor.Adjusted` | components/IDMarkingClient.tsx:412-456 | each control sets its own field to the control's value (scale → imageScale, text → text, size → textSize, rotation → rotation) and every other field, the anchor and line width among them, stays |
| `Editor.Editor.constructor` | components/IDMarkingClient.tsx:33-50 | both sides start with the default settings and no image; the drag record starts idle |
| `Editor.Editor.Upload` | components/IDMarkingClient.tsx:53-79 | a missing file or a failed conversion changes nothing; otherwise only the chosen side's image is set, to the accepted file |
| `Editor.Editor.Adjust` | components/IDMarkingClient.tsx:412-456 | only the chosen side's settings change, as `Adjusted` says; the drag record and the images are untouched |
| `Editor.Editor.MouseDown` | components/IDMarkingClient.tsx:93-133 | a press inside the box sets dragging, kind move, start = press point, startRotation/startSize = current settings, and this side is recorded as the pressed side; a press outside the box, or with no canvas, changes nothing; the settings never change |
| `Editor.Editor.MouseMove` | components/IDMarkingClient.tsx:135-187 | when not dragging, only the cursor changes, to 'move' exactly when the same hit test a press uses succeeds; while dragging, this side's anchor moves by (point − start), start := point, and the other side is unchanged; the invariant (no drift since the press) is preserved, and the record that every move came from the pressed canvas ends when one does not |
| `Editor.Editor.SameSideNoDrift` | components/IDMarkingClient.tsx:93-191 | while every move of the drag came from the pressed canvas, the pressed side's anchor equals its anchor at the press plus the pointer's travel, and the other side's anchor is where it was at the press |
| `Editor.Editor.MouseUp` | components/IDMarkingClient.tsx:189-191 | release or leave sets only isDragging := false |
| `Render.AspectHeight` | components/IDMarkingClient.tsx:257 | the aspect height t is non-negative and t·w = 1500·h, so the canvas keeps the image's proportions |
| `Render.CanvasHeight` | components/IDMarkingClient.tsx:256-257 | the stored height is the aspect height 1500·h/w truncated to an integer: at most the aspect height and less than 1 pixel below it |
| `Render.WholeAspect` | components/IDMarkingClient.tsx:256-257 | the truncation loses nothing exactly when 1500·h is divisible by w |
| `Render.ImageBox` | components/IDMarkingClient.tsx:263-269 | the drawn size is 1500·scale by AspectHeight·scale; the left margin equals the right margin and the top margin equals the bottom margin |
| `Render.ImageKeepsAspect` | components/IDMarkingClient.tsx:263-269 | the drawn box keeps the source image's aspect ratio for every scale |
| `Render.ImageInside` | components/IDMarkingClient.tsx:256-272 | for 0 < scale ≤ 1 the image lies inside the canvas horizontally; vertically it overhangs each edge by less than half a pixel |
| `Render.ImageInsideExact` | components/IDMarkingClient.tsx:256-272 | for 0 < scale ≤ 1 and a whole aspect height, the image lies inside the canvas vertically too |
| `Render.FullScaleOffset` | components/IDMarkingClient.tsx:256-272 | at scale 1, x = 0 and width = 1500; y ≤ 0, and y = 0 exactly when the aspect height is whole |
| `Render.MarkShape` | components/IDMarkingClient.tsx:285-302 | the guide box is (−100, −50, 400, 100); both strike lines run from −x to +x, with length textWidth + 100, at y = −1.2·textHeight and y = +1.2·textHeight |
| `Render.GuideIsHitBox` | components/IDMarkingClient.tsx:281-287 | for every anchor and rotation, a mark-space point is inside the dashed guide box exactly when its drawn position is a hit |
| `Render.StrikeLinesInGuide` | components/IDMarkingClient.tsx:296-317 | the strike lines lie inside the fixed box exactly when textWidth ≤ 100 and 1.2·textHeight ≤ 50 |
| `Render.Compose` | components/IDMarkingClient.tsx:263-321 | the frame keeps the canvas size, draws the image at 1500·scale by AspectHeight·scale, places the mark at the settings' anchor and rotation with the fixed guide box, and uses the settings' line width, text and text size |
| `Render.Canvas.constructor` | components/IDMarkingClient.tsx:218-219 | a new canvas is 300 × 150 with the default cursor |
| `Render.Canvas.Process` | components/IDMarkingClient.tsx:246-325 | without a context nothing changes; otherwise the canvas becomes 1500 × CanvasHeight, and the frame holds the centred image box, the anchor and rotation, the mark shape, the stroke width and the text |
| `Render.RenderTwice` | components/IDMarkingClient.tsx:246-325 | rendering twice with unchanged inputs draws the same frame and leaves the canvas at 1500 × CanvasHeight (unchanged without a context) |
| `Ingest.NeedsConversion` | components/IDMarkingClient.tsx:58 | conversion is needed exactly for the types image/heic and image/heif, never for image/jpeg |
| `Ingest.LastStop` | components/IDMarkingClient.tsx:66 | the result is the index of the last '.' or '/', or None when there is none |
| `Ingest.ExtensionDot` | components/IDMarkingClient.tsx:66 | the pattern `\.[^/.]+$` matches at the returned index, and matches nowhere when None is returned |
| `Ingest.JpgName` | components/IDMarkingClient.tsx:66 | a name with a matched extension becomes name[..dot] + ".jpg"; a name without one is unchanged |
| `Ingest.JpgNameIdempotent` | components/IDMarkingClient.tsx:66 | renaming a renamed file changes nothing |
| `Ingest.Accept` | components/IDMarkingClient.tsx:53-79 | no image exactly when the type is image/heic or image/heif and the conversion failed; a converted file is image/jpeg, renamed by `JpgName`, and carries the converted bytes; other files pass unchanged; an accepted file is never HEIC/HEIF |
| `Export.DownloadName` | components/IDMarkingClient.tsx:193-200 | the name is "ic-" + suffix + "-crossed.jpg", and the suffix can be read back from it |
| `Export.DownloadLink` | components/IDMarkingClient.tsx:193-200 | the link points at the given URL and saves under `DownloadName(suffix)` |
| `Export.DownloadNamesDistinct` | components/IDMarkingClient.tsx:196-239 | different suffixes give different names; "ic-combined-crossed.jpg" follows the same pattern |
| `Export.Stack` | components/IDMarkingClient.tsx:222-233 | output width = max(front.w, back.w), height = front.h + back.h; front at (0, 0), back at (0, front.h) |
| `Export.StackPlacement` | components/IDMarkingClient.tsx:222-233 | both images lie inside the output, do not overlap and meet without a gap; rows above front.h belong to the front image, rows from front.h on belong to the back image |
| `Export.CombinedDownload` | components/IDMarkingClient.tsx:202-244 | the result exists exactly when both processed URLs are non-empty and a context exists; its layout is `Stack` and its name is "ic-combined-crossed.jpg" |
| `Sitemap.Priority` | pages/sitemap.xml.tsx:15 | "1.0" if and only if the page is "/", otherwise "0.8" |
| `Sitemap.UrlEntry` | pages/sitemap.xml.tsx:10-17 | one entry's length is the template's fixed text plus the site address, the page and the timestamp, and 3 for the priority |
| `Sitemap.Entries` | pages/sitemap.xml.tsx:8-19 | no pages give the empty text; one page gives exactly its entry |
| `Sitemap.GenerateSiteMap` | pages/sitemap.xml.tsx:5-22 | the document is the fixed XML header, then the joined entries, then the fixed footer, each readable at its offset |
| `Sitemap.EntryFields` | pages/sitemap.xml.tsx:10-17 | in each entry the location is exactly "https://youjing.dev" + page, followed by the given lastmod, changefreq weekly and the page's priority, at fixed offsets |
| `Sitemap.EntriesAppend` | pages/sitemap.xml.tsx:8-19 | the entries of a concatenated page list are the concatenated entries (join with no separator) |
| `Sitemap.EntryAt` | pages/sitemap.xml.tsx:8-19 | the k-th slice of the joined text is exactly the entry of page k, in input order, and the slices cover the whole text |
| `Sitemap.ServedPriorities` | pages/sitemap.xml.tsx:31-37 | the served list `Pages` has five pages; only the first, "/", has priority 1.0 |

## Left out

- React rendering, JSX, state scheduling and the effect that re-renders both canvases (`updateCanvases`) are not modelled. This includes asynchronous image loading and object URLs. Settings updates are modelled as applied one after another; React's batching, and the handlers' reads of settings captured at render time, are not modelled.
- Canvas drawing primitives, the JPEG encoding by `toDataURL` and the link-click download are not modelled. A render is described by its `Frame` instead of by pixels.
- Text measurement is not modelled; `Metrics` is an input.
- `Math.cos`, `Math.sin` and IEEE-754 rounding are not modelled. All arithmetic is exact over `real`.
- The heic2any conversion is a foreign library, and its outcome is an input. Its quality setting is not modelled.
- The hover branch also writes a debug overlay of `toFixed` strings, and the handlers call `preventDefault`. Both are user-interface output and are not modelled.
- The `showControls` argument of `processImage` has no effect in the source, so the model omits it.
- Editor.Editor.MouseDown: the rotation pair `t` is an input. The contract does not tie it to `settings.rotation`, that is, it does not check that (c, s) is the cosine and sine of −rotation·π/180.
- Editor.Editor.MouseMove: the same holds for its rotation pair `t`, which the hover hit test uses.
- Geometry.ToCanvas: requires a display rectangle of non-zero width and height. With a zero-size rectangle the source divides by zero and produces Infinity or NaN, and the model does not cover that case.
- Render.CanvasHeight: requires an image of non-zero width. The source would divide by zero. It also ignores how the height attribute treats huge values: the value wraps modulo 2³², and a result of 2³¹ or more resets the height to its default of 150. Only aspect heights of 2³¹ or more are affected.
- Sitemap.GenerateSiteMap: takes one timestamp for all entries. The source reads the clock once per entry, so entries written across a millisecond boundary could differ.
- The HTTP response writing of the sitemap page is I/O and is not modelled.
- The OG-image API routes, the localized landing page, the language switcher, the portfolio pages, static data and configuration are not part of this model.
