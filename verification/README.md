# Starlus drawing canvas, modelled in Dafny

This project models the freehand drawing canvas of the Starlus notes screen and the
notebook-creation dialog. Every handler is a pure transition over immutable values.

- **Geometry** (`geometry.dfy`): stroke points `{x, y, color, width, kind}` and paths, which are sequences of points.
- **Eraser** (`eraser.dfy`): the point eraser. It keeps a point iff its squared distance to the touch exceeds 20², then drops the paths left empty.
- **Slider** (`slider.dfy`): the width sliders. The touch x is shifted by 20 and clamped to the 200-unit track. `Math.round(p/200*9)+1` gives pen and shape widths; `Math.round(p/200*30)+10` gives highlighter widths.
- **Canvas** (`canvas.dfy`): the document. It holds the committed paths, the path being drawn, the `isDrawing` flag, the undo and redo stacks, and the eraser flag. Also here: the tool configuration; the gesture handlers (start, move, release); undo, redo and clear-all; the eraser toggle, tool choice and width sliders. The lemmas cover a whole drawing gesture, the undo/redo round trips, and a validity invariant that every handler keeps.
- **Renderer** (`renderer.dfy`): paths become strokes. A path with fewer than two points is not drawn. Otherwise it is one `M` command, then `L` commands, styled by its first point. Highlighters get opacity ½ and pens opacity 1. The SVG path string is represented by its command list.
- **Background** (`background.dfy`): the paper lines. `grid` gives ⌈1000/20⌉ vertical and as many horizontal lines, every 20 units. `ruled` gives ⌈1000/30⌉ horizontal lines, every 30 units. `no lines` gives nothing.
- **Notebooks** (`notebooks.dfy`): notebook creation. It trims the name and subject with the ECMAScript white-space set and refuses either one when blank. On success it appends the notebook, clears the inputs and closes the dialog.

The history and gesture rules of the code, as written:

- Undo empties the redo stack. It does not push the undone path onto it.
- Releasing a gesture commits the path without touching the redo stack.
- A one-point path is committed on release. It is only skipped when drawing.
- A move stamps its point with the tool style at the time of the move, not with the style of the path's first point. So a path is uniform in style only while the tools stay fixed during the gesture. `DrawingGestureCommitsOnePath` proves uniformity under that condition.

Inputs from outside the model are parameters:

- touch coordinates and slider touch positions;
- the notebook id (`Date.now().toString()`) and the creation time (`new Date()`).

## Model

| member | source | states |
|---|---|---|
| Eraser.KeepFar | starlus/app/notes.tsx:613-616 | a point is in the filtered path iff it was in the path and lies strictly farther than the eraser radius from the touch; the path never grows |
| Eraser.SurvivorIndices | starlus/app/notes.tsx:613-616 | the positions of the surviving points, strictly increasing, each in range and surviving, and covering every surviving position |
| Eraser.KeepFarSelectsSurvivors | starlus/app/notes.tsx:613-616 | the filtered path is exactly the original points at the surviving positions, in increasing order, so relative order is kept and nothing is duplicated |
| Eraser.KeepFarAppend | starlus/app/notes.tsx:613-616 | filtering a concatenation is concatenating the filtered parts |
| Eraser.DropEmpty | starlus/app/notes.tsx:617 | the result has no empty path, never more paths than the input, and holds exactly the input's non-empty paths |
| Eraser.DropEmptyAppend | starlus/app/notes.tsx:617 | dropping empty paths from a concatenation is concatenating the results, so kept paths stay in order with duplicates |
| Eraser.EraseAppend | starlus/app/notes.tsx:613-617 | erasing a concatenation is concatenating the erased parts, so paths keep their drawing order |
| Eraser.EraseOne | starlus/app/notes.tsx:613-617 | a single path erases to its filtered points as one path, or to nothing when no point survives |
| Eraser.Erase | starlus/app/notes.tsx:611-618 | erasing never increases the number of paths and leaves no empty path |
| Eraser.EraseFlattens | starlus/app/notes.tsx:611-618 | reading all points path after path, the erased canvas is the far-point filter of the original reading, so order is kept across paths |
| Eraser.EraseKeepsExactlyFarPoints | starlus/app/notes.tsx:612-617 | a point remains after an erase iff it was on the canvas and lies beyond radius 20 of the touch |
| Eraser.EraseIdempotent | starlus/app/notes.tsx:611-618 | erasing twice at the same touch equals erasing once |
| Eraser.EraseFarAwayIsIdentity | starlus/app/notes.tsx:611-618 | a touch farther than the radius from every point leaves non-empty paths unchanged |
| Eraser.KeepFarIdempotent | starlus/app/notes.tsx:613-616 | filtering a path twice at one touch equals filtering once |
| Geometry.FlattenAppend | starlus/app/notes.tsx:613-617 | the points of two path lists in sequence are the points of each list, concatenated |
| Slider.Round | starlus/app/notes.tsx:174 | `Math.round` yields the integer within one half below and less than one half above its argument |
| Slider.ThumbPosition | starlus/app/notes.tsx:172 | the thumb lies in [0, 200]: 0 left of the track, 200 right of it, the touch minus 20 on it |
| Slider.ScaledWidth | starlus/app/notes.tsx:174 | a thumb position in [0, 200] scales to a width between the minimum and the minimum plus the span |
| Slider.PenWidthFor | starlus/app/notes.tsx:172-174 | the pen (and shape) slider yields widths in [1, 10] for every touch |
| Slider.HighlighterWidthFor | starlus/app/notes.tsx:189-191 | the highlighter slider yields widths in [10, 40] for every touch |
| Slider.ScaledWidthMonotone | starlus/app/notes.tsx:174 | a further thumb never yields a thinner width |
| Slider.WidthsMonotone | starlus/app/notes.tsx:172-191 | pen and highlighter widths are monotone non-decreasing in the touch position |
| Slider.WidthsAtTrackEnds | starlus/app/notes.tsx:172-191 | at or left of the track start the widths are 1 and 10; at or right of its end they are 10 and 40 |
| Slider.EveryWidthReachable | starlus/app/notes.tsx:174 | every integer width in the slider's range is produced by some thumb position |
| Canvas.Stamp | starlus/app/notes.tsx:231-237 | pen and highlighter touches yield a point at the touch coordinates with that tool's color, width and kind; shapes and text yield none |
| Canvas.Start | starlus/app/notes.tsx:222-239 | with the eraser on only the committed paths are erased; otherwise a pen or highlighter touch makes the current path that single stamped point and sets drawing, and other tools change nothing |
| Canvas.Move | starlus/app/notes.tsx:240-256 | with the eraser on only the committed paths are erased; while drawing with a pen or highlighter exactly one stamped point is appended; otherwise nothing changes |
| Canvas.Release | starlus/app/notes.tsx:257-263 | while drawing with the eraser off the current path becomes the new last committed path, current is cleared, drawing stops, and both stacks are untouched; otherwise nothing changes |
| Canvas.Undo | starlus/app/notes.tsx:589-594 | no-op on an empty canvas; otherwise the last committed path is removed, appended to the undo stack, and the redo stack is emptied |
| Canvas.Redo | starlus/app/notes.tsx:596-602 | no-op on an empty undo stack; otherwise its top is popped (the stack shrinks by one) and appended to both the committed paths and the redo stack |
| Canvas.ClearAll | starlus/app/notes.tsx:604-608 | committed paths and redo stack become empty, the undo stack gains all committed paths in order, and the total of committed plus undo paths is unchanged |
| Canvas.ToggleEraser | starlus/app/notes.tsx:632 | the eraser flag flips and nothing else changes |
| Canvas.SelectTool | starlus/app/notes.tsx:502 | the chosen tool becomes selected and no style changes |
| Canvas.SlidePen | starlus/app/notes.tsx:168-183 | the pen width becomes the pen slider width for the touch, a value in [1, 10], and nothing else changes |
| Canvas.SlideHighlighter | starlus/app/notes.tsx:185-200 | the highlighter width becomes the highlighter slider width for the touch, a value in [10, 40], and nothing else changes |
| Canvas.SlideShape | starlus/app/notes.tsx:202-217 | the shape width becomes the pen-formula width for the touch, a value in [1, 10], and nothing else changes |
| Canvas.SlidersFollowTrack | starlus/app/notes.tsx:168-217 | each width handler is non-decreasing in the touch position and gives the minimum and maximum widths at the track ends |
| Canvas.EmptyDocumentValid | starlus/app/notes.tsx:119-125 | the document the screen mounts with is valid |
| Canvas.FirstTouchStartsDefaultPen | starlus/app/notes.tsx:100-112 | with the initial tools, the first touch starts a black pen stroke of width 2 |
| Canvas.HandlersPreserveValid | starlus/app/notes.tsx:219-618 | every handler keeps the invariants that a path is being drawn iff `isDrawing`, and that no committed or stacked path is empty |
| Canvas.UndoThenRedo | starlus/app/notes.tsx:589-602 | on a non-empty canvas, undo then redo restores the committed paths and the undo stack, and leaves exactly the round-tripped path on the redo stack |
| Canvas.RedoThenUndo | starlus/app/notes.tsx:589-602 | on a non-empty undo stack, redo then undo restores the committed paths and the undo stack, and empties the redo stack |
| Canvas.TwoStrokesUndoRedo | starlus/app/notes.tsx:589-602 | after strokes A and B, undo leaves committed [A], undo stack [B] and an empty redo stack; redo then gives committed [A, B], an empty undo stack and redo stack [B] |
| Canvas.EraseLeavesHistory | starlus/app/notes.tsx:222-263 | with the eraser on, start and move leave both stacks and the current path alone and never add paths, and release does nothing |
| Canvas.MoveAllAppends | starlus/app/notes.tsx:240-256 | while drawing, a run of moves appends one stamped point per sample, in order, to the current path and changes nothing else |
| Canvas.DrawingGestureCommitsOnePath | starlus/app/notes.tsx:222-263 | a pen or highlighter gesture under fixed tools commits exactly one path, with one point per sample, in one uniform style; current is empty afterwards and both stacks are untouched |
| Renderer.ToStroke | starlus/app/notes.tsx:551-567 | a path draws iff it has two or more points; the stroke is one `M` followed only by `L` commands through exactly the path's coordinates, with the first point's color and width, and opacity ½ iff highlighter and 1 iff pen |
| Renderer.StrokesOf | starlus/app/notes.tsx:550-568 | one stroke per committed path with at least two points, each a polyline of at least two commands |
| Renderer.Render | starlus/app/notes.tsx:550-584 | the strokes of the committed paths come first, in order, then the current path's stroke on top when it has more than one point |
| Renderer.StrokesOfAppend | starlus/app/notes.tsx:550-568 | committing a path adds its stroke on top, or nothing when it has fewer than two points |
| Renderer.ReleaseKeepsPicture | starlus/app/notes.tsx:257-263 | lifting the finger does not change the rendered picture |
| Renderer.PathCommandsRoundTrip | starlus/app/notes.tsx:552-555 | decoding the path commands gives back exactly the path's coordinates, and a non-empty path gives a polyline |
| Background.CeilDiv | starlus/app/notes.tsx:26 | the smallest count of spacings that reaches the extent |
| Background.Lines | starlus/app/notes.tsx:26-36 | n lines, line i at offset i times the spacing, all in the requested direction |
| Background.LineCounts | starlus/app/notes.tsx:14-73 | no lines for `no lines`; 50 vertical then 50 horizontal grid lines at multiples of 20; 34 ruled lines at multiples of 30 |
| Background.LinesCoverExtent | starlus/app/notes.tsx:19-67 | every line lies inside the 1000-unit extent, and every position in it is less than one spacing past a line of each drawn direction |
| Notebooks.LeadingSpace | starlus/app/notebooks.tsx:21 | the count of leading white space: every counted character is white space and the next one is not |
| Notebooks.TrailingSpace | starlus/app/notebooks.tsx:21 | the count of trailing white space: every counted character is white space and the one before is not |
| Notebooks.Trim | starlus/app/notebooks.tsx:21 | a trimmed string is empty or neither starts nor ends with white space |
| Notebooks.TrimIsInfix | starlus/app/notebooks.tsx:21 | the input is its leading part, then the trimmed string, then the rest |
| Notebooks.TrimRemovesOnlySpace | starlus/app/notebooks.tsx:21 | only white space is removed, at either end |
| Notebooks.TrimEmptyIffBlank | starlus/app/notebooks.tsx:21 | the trimmed string is empty iff the input is all white space |
| Notebooks.TrimIdempotent | starlus/app/notebooks.tsx:24-25 | trimming twice equals trimming once |
| Notebooks.CreateNotebook | starlus/app/notebooks.tsx:20-33 | a blank trimmed name or subject leaves the list, inputs and dialog flag unchanged; otherwise exactly one notebook with the trimmed name and subject, the given id and time is appended, earlier notebooks are kept, the inputs are cleared and the dialog closes |
| Notebooks.CreateKeepsTidy | starlus/app/notebooks.tsx:20-28 | created notebooks always have non-blank, trimmed name and subject, and the list only grows at its end |
| Notebooks.CreateAfterSuccessIsNoOp | starlus/app/notebooks.tsx:29-31 | after a successful create, pressing create again changes nothing |

## Left out

- React and React Native machinery is not modelled. This covers `useState` batching, stale closures over state, the PanResponder and Animated APIs, and `TouchableWithoutFeedback`. Each handler is one atomic sequential update.
- Dropdown and tab visibility flags, `handleScreenTouch`, and all style objects are left out. They are UI chrome with no behaviour on the strokes.
- The color setters are left out. These are the pen, highlighter and shape color swatches, the page color and the paper style picker. Each is a plain field assignment with nothing to prove.
- The shape choice and the shapes and text tools are modelled only in that touches with them draw nothing. The source implements nothing more for them.
- The Animated thumb position is not stored. Only its value, `Slider.ThumbPosition`, is modelled, because it only places the thumb on screen.
- Coordinates are exact reals, not IEEE doubles. `Math.sqrt(dx*dx+dy*dy) > 20` is compared squared.
- The text of SVG path data (number formatting, separators) is left out. It is represented by a list of `M`/`L` commands.
- The colour and width of background lines, and their "100%" far ends, are constants of the drawing only. Lines are modelled by direction and offset.
- Notebook list rendering, navigation, and opening the dialog are left out. They are UI only.
- The id is `Date.now().toString()` and the creation time is `new Date()`. Both are parameters, so id uniqueness is neither modelled nor guaranteed.
- The notes screen of `starlus/app/notebook/[id].tsx`, the login, register and dashboard screens, the HTTP client, the backend views and routes, and the configuration lookup are not part of this model. They are network, storage and navigation glue.
- Canvas.DrawingGestureCommitsOnePath: states uniformity of style only for tools that stay fixed during the gesture. A tool change in mid-gesture stamps later points with the new style, as the source does.
