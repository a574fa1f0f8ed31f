# Label placement in the nudity-detection web front-end

The service takes an uploaded image and sends it to a pretrained detector. It
then draws every detected region of a class in the colour table onto the
image and stores the result under a `result_`-prefixed name. This project models the one algorithmic part of
that pipeline, the drawing pass of `detect_nudity` in `app.py`. It also
models the file-naming rule of the same handler.

For each detection whose class is in the colour table (`all_labels`), the
drawing pass does four things:

- it outlines the detected box in the class's colour;
- it first tries the class name centred with its bottom 10 pixels above the
  box, or at `y = 0` when that would leave the image (the name then ends
  less than 10 pixels above the box, or covers its top);
- it first tries the formatted confidence centred 10 pixels below the box;
- it moves each text away from earlier texts, as described below, draws it
  and adds its rectangle to `used_positions`.

Before a text is drawn, `check_overlap` tests its rectangle against every
rectangle in `used_positions`. The test uses open intervals. While the text
overlaps one, it moves by its own height plus 10 pixels: class names move up
and confidence texts move down.

Modules:

- `Geometry` (geometry.dfy): points, rectangles, measured text extents, the
  overlap test and `CheckOverlap`, the loop of `check_overlap`.
- `Labels` (labels.dfy): the colour table and the `all_labels.get(name, "black")` lookup.
- `Placement` (placement.dfy): the nudge loops. `Steps` and `NudgedTop` are
  the pure reference definitions. `NudgeText` is the `while` loop as
  `app.py` writes it, and it is proved to agree with them. The termination
  measure is the distance left to pass every used rectangle. Each step
  shrinks it by exactly the text height plus 10.
- `Annotation` (annotation.dfy): initial positions, the per-detection step
  `PlaceDetection`, and the pass over the detector's result as a function
  (`Draw`) and as the loop of `detect_nudity` (`DrawDetections`).
- `Naming` (naming.dfy): upload and result file names, and a parser that
  inverts them.

Integer arithmetic is unbounded, as in Python. Python's `(w - text_width) // 2`
rounds towards minus infinity. Dafny's `/` with the positive divisor 2
rounds the same way, so `CenteredX` uses it directly.

The final positions are not the first ones. A name can end any whole
number of steps higher, and a confidence text any whole number of steps
lower. The first position of a class name is clamped to `y >= 0`, but
nudging still moves a blocked name upwards, so the name can end at a
negative `y`, outside the image (`Annotation.ClampedBlockedNameLeavesImage`,
with the concrete case `Annotation.NameCanLeaveTopEdge`).

## Model

| member | source | states |
|---|---|---|
| Geometry.CheckOverlap | app.py:85-90 | Returns true exactly when some used rectangle meets the candidate `[x, x+w) x [y, y+h)` on both axes by the four strict comparisons; the invariant says every rectangle scanned so far missed it |
| Geometry.OverlapIffCommonInteriorPoint | app.py:87-88 | For rectangles with non-empty interiors, the overlap test holds exactly when the two open interiors share a point, so rectangles that only touch do not overlap |
| Geometry.SharedEdgeIsNoOverlap | app.py:87-88 | Two rectangles that share an edge line do not overlap, in either argument order |
| Geometry.FlatTextCanBeBlocked | app.py:87-88 | Every zero-height text whose line runs through a used rectangle's interior, and whose horizontal extent meets it, is reported as overlapping |
| Geometry.AppendFreeKeepsDisjoint | app.py:110-114 | Appending a rectangle that overlaps none of the placed ones keeps the placed rectangles pairwise non-overlapping |
| Labels.ColorOf | app.py:21-40 | A known class gets its table colour, which is one of the palette colours; the result is the fallback `"black"` exactly when the class is not in the table |
| Labels.PaletteIsTableColours | app.py:21-40 | The set of colours the table uses is exactly purple, red, orange, pink, green, brown, yellow, gray and blue, so it does not include black |
| Placement.NudgeApproaches | app.py:109-122 | Termination argument: a blocked text is still a positive distance from passing every used rectangle, and one nudge shrinks that distance by exactly the text height plus 10 |
| Placement.FirstFreeBack | app.py:110-111 | If a position is blocked and k nudges from the next position reach the first free one, then k + 1 nudges from the first position do |
| Placement.Steps | app.py:110-111 | The number of loop iterations: after that many nudges the text is free, and every earlier position was blocked |
| Placement.FirstFreeUnique | app.py:110-111 | There is only one such first free nudge count |
| Placement.StepsBound | app.py:109-122 | An explicit iteration bound: (steps - 1) times (text height + 10) is less than the starting distance |
| Placement.ShiftIsMultiple | app.py:110-122 | After k nudges a label is at or above its start, a confidence text is at or below its start, and the move is a whole multiple of the text height plus 10 |
| Placement.NudgedTop | app.py:109-122 | The final top edge overlaps no used rectangle, lies on the side the text moves towards, and is a whole number of steps of text height plus 10 from the start |
| Placement.NudgedTopUnfold | app.py:110-111 | A blocked text ends where the text one nudge further ends |
| Placement.NudgeText | app.py:109-122 | The while loop keeps x unchanged, ends at a position that overlaps no used rectangle, and ends exactly at the reference position `NudgedTop` |
| Annotation.CenteredX | app.py:101-109 | The text is centred over the box: its right margin equals its left margin or is one pixel larger, including when the text is wider than the box |
| Annotation.NameStart | app.py:101-109 | The first name position is centred, never above the top edge, and its bottom is 10 pixels above the box unless the clamp to 0 applied |
| Annotation.ScoreStart | app.py:101-120 | The first confidence position is centred and its top is 10 pixels below the box's bottom edge `y0 + h` |
| Annotation.NamePosition | app.py:109-111 | The final name position: same x as the first position, at or above it by a whole number of steps of name height plus 10, and overlapping no text placed before it |
| Annotation.ScorePosition | app.py:120-122 | The final confidence position: same x as the first position, at or below it by a whole number of steps of text height plus 10, and overlapping no text placed before it, the name included |
| Annotation.PlaceDetection | app.py:98-125 | An unknown class leaves the canvas unchanged. A known class keeps everything already placed or drawn and appends two rectangles and three marks in the class's colour: the box outline, then the name and the confidence text drawn at the top-left corners of the two new rectangles. The rectangles have the measured extents, keep the centred x, move only away from the box, and each overlaps nothing placed before it |
| Annotation.PlaceDetectionStopsAtFirstFree | app.py:109-125 | For a known class, the name stops at the first free step of name height plus 10 upwards from its first position, and the confidence text at the first free step downwards, tested against everything placed before it including the name; every earlier step was blocked |
| Annotation.PlaceDetectionKeepsDisjoint | app.py:110-125 | Placing one detection keeps the used rectangles pairwise non-overlapping |
| Annotation.PlaceEntry | app.py:94-100 | Reference step for one list element: an entry that is not a dictionary, or a record of a class outside the table, changes nothing |
| Annotation.Annotated | app.py:93-125 | Reference pass over the list in order: entries without any known record leave the canvas unchanged |
| Annotation.Draw | app.py:92-125 | Reference pass over the detector output: a result that is not a list, or has no known record, draws nothing and places nothing |
| Annotation.AnnotatedAppends | app.py:92-125 | The pass only appends. It adds exactly two rectangles and three marks per record of a known class, and nothing for unknown classes or non-record entries |
| Annotation.AnnotatedKeepsDisjoint | app.py:92-125 | Over the whole pass, no text rectangle overlaps one placed before it |
| Annotation.AnnotatedTableColoured | app.py:98-104 | Every mark drawn by the pass has a table colour |
| Annotation.DrawProperties | app.py:92-125 | For any detector output: the rectangles are pairwise non-overlapping, there are two per known record (none when the output is not a list), there are three marks per known record, and no mark uses the fallback colour |
| Annotation.DrawDetections | app.py:92-125 | The loop of `detect_nudity` over the result list computes exactly the reference pass `Draw` and leaves pairwise non-overlapping rectangles |
| Annotation.ClampedBlockedNameLeavesImage | app.py:109-111 | For any known class whose first name position was clamped to y = 0 and is blocked there, the name ends at least one step (text height plus 10) above the image |
| Annotation.NameCanLeaveTopEdge | app.py:109-111 | One concrete input: for used = [(0, 0, 100, 20)], box (0, 5, 100, 100) and a 100x20 name, the name is clamped to y = 0, blocked there, and ends at y = -30; the general bound is `ClampedBlockedNameLeavesImage` |
| Naming.UploadName | app.py:63-67 | The upload name consists of the timestamp, an underscore, the id and the extension, each recoverable at its position |
| Naming.ResultName | app.py:127 | The result name starts with `result_`, and removing the prefix gives the upload's name back |
| Naming.ResultFileName | app.py:64-67 | A result name starts with `result_` and ends with the uploaded file's own extension |
| Naming.ParseResultName | app.py:64-67 | Whatever the parser accepts has a well-formed timestamp and id and rebuilds to exactly the parsed name |
| Naming.ParseResultFileName | app.py:64-67 | Parsing a result name built from a well-formed timestamp and id recovers the timestamp, id and extension |
| Naming.ResultFileNamesDistinct | app.py:63-67 | Distinct (timestamp, id, extension) triples give distinct result names |

## Left out

- Flask routes, request parsing, status codes and redirects (`index`,
  `list_results`, `get_result`, `delete_result`, and the two 400 answers of
  `detect_nudity`): web plumbing with no logic of their own.
- Filesystem operations (creating the folders, saving, listing, checking
  and removing files).
- The detector call: the model is an opaque neural network. Its output is
  an input here (`DetectorOutput`), a list of entries or something that is
  not a list. A dictionary missing the `class`, `score` or `box` key raises
  `KeyError` in `app.py`; the model assumes well-formed records.
- Image loading, drawing and font loading. The marks the pass draws are
  recorded as `Mark` values instead of pixels.
- Text measurement with `textbbox`: each detection carries the measured
  extents of its two texts as natural numbers, since a measured box never
  has negative width or height. The outline width of 3 pixels is not
  modelled.
- Formatting the score with `f"{score:.2f}"` (floating point): the formatted
  text is an input (`Detection.scoreText`).
- Timestamp and UUID generation (clock and randomness): they are string
  inputs. The round trip and distinctness lemmas assume their documented
  shapes (`ValidTimestamp`, `ValidId`). `os.path.splitext` is left out too,
  and the extension is a given string.
- Naming.ResultFileNamesDistinct: distinct result names are proved for
  distinct ids, not for every upload. Two uploads get the same name only if
  the random ids collide, and that probability is outside the model.
