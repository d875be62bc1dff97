# Liquid effects: layout, text fitting and scramble reveal

This project models the deterministic logic inside three components of a
portfolio site's shader effects. It proves properties of that model in Dafny.

- **Skills panel** (`src/components/LiquidSkills.js`).
  - `renderSkillsToCanvas` picks a responsive tier from the container width.
  - It greedily wraps each category's tags into rows of pills under a width limit.
  - It adds up the content height.
  - It then draws each category: a letter-spaced title centred on the canvas, with the centred pill rows below it.
  - The `ResizeObserver` callback lays the panel out again only when the width moves by more than 4 pixels.
- **Heading text** (`src/components/LiquidText.js`).
  - `renderText` splits the text at line feeds.
  - It measures every upper-cased line at 900 weight and 240px.
  - It shrinks the size by the overflow ratio, rounded down, for each line wider than 2048 − 200 = 1848.
  - It draws the lines centred on a 2048 × 1024 canvas, 1.05 × size apart.
- **Scramble reveal** (`src/utils/scramble.js`).
  - `scrambleText` flags its label as scrambling.
  - Every tick shows the original text before the iteration counter and random capitals from there on.
  - The counter grows by a third each tick.
  - The interval stops and the flag is reset once the counter reaches the length.

How things are represented:

- `measureText` is an oracle, `Measure = (Font, string) -> real`.
- Numbers are exact reals.
- `Math.random()` draws are an oracle `nat -> real` with values in [0, 1).
- Each canvas is the sequence of draw calls made on it.
- The scramble counter is a whole number of thirds.

Modules:

- `Canvas2D` (`canvas2d.dfy`): fonts, the measuring oracle and upper-casing.
- `PillWrap` (`pill_wrap.dfy`): the greedy row wrapping. It is proved to partition the tags, never make an empty row, keep every multi-pill row within the limit and break only when forced. Under non-negative widths it is the unique wrapping with those properties.
- `LiquidSkills` (`liquid_skills.dfy`):
  - the two passes of `renderSkillsToCanvas` as methods with loops, each proved equal to a specification function;
  - lemmas on where titles and pills land and on the heights;
  - the mounted effect as a class whose resize methods keep its texture, height and aspect uniform in step with its width.
- `LiquidText` (`liquid_text.dfy`): line splitting, the shrink loop and its fit bound, line placement, and the text canvas as a class.
- `Scramble` (`scramble.dfy`): the frame function, the label element and the running interval as classes, and the whole run of the interval.

## Model

| member | source | states |
|---|---|---|
| Canvas2D.ToUpper | src/components/LiquidSkills.js:93 | upper-casing keeps the length, maps each ASCII small letter to its capital and leaves every other character as it is |
| PillWrap.Pills | src/components/LiquidSkills.js:55-57 | one pill per tag, in order, carrying the tag's text, with width = measured text width + 2·pillPadX |
| PillWrap.PlaceKeepsOrder | src/components/LiquidSkills.js:58-66 | one turn ends the current row with the tag, the rows and current row read in order gain exactly that tag, and a row is closed exactly when it is non-empty and the tag does not fit after it, the tag then opening a row of its own |
| PillWrap.CloseKeepsOrder | src/components/LiquidSkills.js:68 | pushing the last row keeps every placed tag in order and the earlier rows, and adds a row exactly when the current row is non-empty |
| PillWrap.WrapItems | src/components/LiquidSkills.js:50-68 | the loop over the tags, with its `currentRow`, `rowWidth` and `rows` variables, returns exactly the greedy wrapping `Wrap` of the tags' pills |
| PillWrap.ScanInvariant | src/components/LiquidSkills.js:55-68 | for every list of tags, the rows are a partition of them into non-empty rows that fit and break only when forced |
| PillWrap.WrapPartitions | src/components/LiquidSkills.js:55-68 | reading the rows in order gives back every pill exactly once, in order |
| PillWrap.WrapNoEmptyRow | src/components/LiquidSkills.js:58-68 | no row is empty, and there are no rows exactly when the category has no tags |
| PillWrap.WrapRowsFit | src/components/LiquidSkills.js:58-66 | every row of two or more pills has width (sum of pill widths + gap·(len − 1)) ≤ maxWidth |
| PillWrap.WrapGreedy | src/components/LiquidSkills.js:58-61 | for every row after the first, previous row width + gap + its first pill's width > maxWidth |
| PillWrap.WrapOversizedAlone | src/components/LiquidSkills.js:58-61 | with non-negative widths and gap, a pill wider than maxWidth sits alone on its row |
| PillWrap.WrapBreaks | src/components/LiquidSkills.js:58-61 | a tag that does not fit after the last row opens a new row of its own, and earlier rows are untouched |
| PillWrap.WrapAppends | src/components/LiquidSkills.js:62-66 | a tag that fits is appended to the last row, and earlier rows are untouched |
| PillWrap.WellWrappedIsWrap | src/components/LiquidSkills.js:55-68 | with non-negative widths and gap, any partition into non-empty, fitting, greedy rows is exactly what the loop builds |
| LiquidSkills.TierOf | src/components/LiquidSkills.js:23-24 | mobile iff W < 500, tablet iff 500 ≤ W < 900, desktop iff W ≥ 900 |
| LiquidSkills.StyleOf | src/components/LiquidSkills.js:27-36 | every size of every tier is positive, and pillHeight = pillFontSize + 2·pillPadY is 30, 36 or 42 for mobile, tablet and desktop |
| LiquidSkills.StyleConstants | src/components/LiquidSkills.js:22-36 | each size at width W is the source's three-way choice on W (titleSize 11/13/14, pillFontSize 14/16/18, pillPadX 16/20/26, pillPadY 8/10/12, pillGap 8/10/14, categoryGap 40/50/60; rowGap 10/12, titleToTagGap 18/24, topPad 20/36), and pillHeight = pillFontSize + 2·pillPadY |
| LiquidSkills.MaxWidth | src/components/LiquidSkills.js:53 | the wrapping limit is W − 20 on mobile and W − 48 otherwise |
| LiquidSkills.SkillsLayout | src/components/LiquidSkills.js:45-74 | the measuring pass keeps one layout entry per category |
| LiquidSkills.MeasureStep | src/components/LiquidSkills.js:46-71 | one category adds its title line, its block of rows·pillHeight + (rows − 1)·rowGap and one category gap to the running height |
| LiquidSkills.MeasurePass | src/components/LiquidSkills.js:43-77 | the first pass returns each category wrapped as `Wrap` wraps it, and totalH = 2·topPad + Σ(titleSize + titleToTagGap + rows·pillHeight + (rows − 1)·rowGap) + (n − 1)·categoryGap |
| LiquidSkills.ContentHeightSign | src/components/LiquidSkills.js:43-77 | the content height is never negative, and it is zero exactly for a mobile width with no categories |
| LiquidSkills.DrawPassEndsAtContentBottom | src/components/LiquidSkills.js:85-147 | the draw pass's per-category advances, started at topPad, end at totalH − topPad + categoryGap, so both passes agree on every block |
| LiquidSkills.DrawTitle | src/components/LiquidSkills.js:92-104 | measures the upper-cased title letter by letter and draws each letter at the position the title layout gives, starting at (W − titleW)/2 |
| LiquidSkills.TitleOpsAt | src/components/LiquidSkills.js:99-104 | letter k is drawn at x0 + (widths of the letters before it) + 5·k, at the title's y |
| LiquidSkills.TitleCentred | src/components/LiquidSkills.js:94-99 | the title starts at (W − titleW)/2, where titleW = Σ letter widths + 5·(letters − 1); the space left of the first letter equals the space right of the last letter's advance |
| LiquidSkills.DrawRow | src/components/LiquidSkills.js:112-142 | draws a row's pills left to right from (W − rowTotalW)/2 as the row layout places them |
| LiquidSkills.RowOpsAt | src/components/LiquidSkills.js:114-141 | pill k of a row is drawn at x0 + (widths of the pills before it) + k·pillGap, at the row's y, with its own width and pillHeight |
| LiquidSkills.RowSpacing | src/components/LiquidSkills.js:116-141 | each pill starts exactly where the previous one ends plus pillGap, on the same y |
| LiquidSkills.PillLabelAt | src/components/LiquidSkills.js:139 | pill k's label is anchored at (its x + width/2, row top + pillHeight/2 + 1) |
| LiquidSkills.RowCentred | src/components/LiquidSkills.js:112-114 | a row starts at (W − rowTotalW)/2, and the space left of its first pill equals the space right of its last, so it is symmetric about W/2 |
| LiquidSkills.WrappedRowInsideMargins | src/components/LiquidSkills.js:112-114 | a wrapped row of two or more pills lies at least half the margin (10 or 24) inside both canvas edges |
| LiquidSkills.RowsOpsSnoc | src/components/LiquidSkills.js:111-145 | the next row is drawn centred at the next row top |
| LiquidSkills.RowTopSucc | src/components/LiquidSkills.js:144 | consecutive rows are pillHeight + rowGap apart |
| LiquidSkills.AdvanceAfterRows | src/components/LiquidSkills.js:106-147 | after a title and r rows, y has moved by titleSize + titleToTagGap + r·(pillHeight + rowGap) + categoryGap − rowGap |
| LiquidSkills.DrawCategory | src/components/LiquidSkills.js:87-147 | draws the category's title and its rows as the category layout places them, and returns the y of the next category |
| LiquidSkills.DrawPass | src/components/LiquidSkills.js:85-148 | draws every category, each at topPad plus the advances of the ones before it, and ends at totalH − topPad + categoryGap |
| LiquidSkills.RenderSkillsToCanvas | src/components/LiquidSkills.js:15-150 | returns {width: W, height: content height}, and the canvas holds exactly the two-pass layout at W |
| LiquidSkills.Divide | src/components/LiquidSkills.js:287 | a JavaScript division: finite iff the divisor is non-zero, with quotient·divisor = dividend; ±Infinity by the dividend's sign; NaN for 0/0 |
| LiquidSkills.AspectDefined | src/components/LiquidSkills.js:184 | the aspect uniform W/height is finite except at a mobile width with no categories, and positive when W > 0 |
| LiquidSkills.Settle | src/components/LiquidSkills.js:282-283 | the width after an entry is the old or the new one; a positive entry leaves it within 4 px of the entry; a non-positive entry or a change of at most 4 px keeps the old width |
| LiquidSkills.SettleIdempotent | src/components/LiquidSkills.js:282-283 | reporting the same width twice changes nothing the second time |
| LiquidSkills.SettleAllNearLast | src/components/LiquidSkills.js:280-291 | after a batch whose last entry is positive, the width is within 4 px of that entry |
| LiquidSkills.SkillsEffect.constructor | src/components/LiquidSkills.js:159-185 | mounting lays out at the client width, and the height, canvas and aspect uniform match that layout |
| LiquidSkills.SkillsEffect.Observe | src/components/LiquidSkills.js:281-290 | an entry past the guard sets cW := w and re-lays out, keeping height, canvas and aspect in step with cW; otherwise nothing changes |
| LiquidSkills.SkillsEffect.OnResize | src/components/LiquidSkills.js:279-292 | a batch of entries handled in order leaves the width each entry settles to, and keeps the effect consistent |
| LiquidText.Split | src/components/LiquidText.js:45 | `split("\n")` yields at least one line, and no line contains a line feed |
| LiquidText.JoinSplit | src/components/LiquidText.js:45 | joining the split lines with line feeds gives the text back |
| LiquidText.SplitJoin | src/components/LiquidText.js:45 | splitting the join of feed-free lines gives the lines back |
| LiquidText.Widths | src/components/LiquidText.js:54-55 | each line is measured upper-cased, in the initial 900-weight 240px font |
| LiquidText.Shrink | src/components/LiquidText.js:56-59 | a line within 1848 keeps the size; an overflowing one strictly lowers a positive size, never below 0, to the largest whole size that still fits, i.e. size·width ≤ old size·1848 < (size + 1)·width, which is floor(old size · 1848 / width) |
| LiquidText.FontSizeRange | src/components/LiquidText.js:50-60 | the final size lies between 0 and 240 |
| LiquidText.FontSizeNonIncreasing | src/components/LiquidText.js:54-60 | the size never grows from one line to a later one |
| LiquidText.FontSizeKeptIff | src/components/LiquidText.js:50-60 | the size stays 240 exactly when no line measured at 240 is wider than 1848 |
| LiquidText.ShrinkCompounds | src/components/LiquidText.js:51-59 | shrinks compound: two lines each twice 1848 wide end at 60, though 120 fits both |
| LiquidText.FitBound | src/components/LiquidText.js:54-60 | for every line, finalSize·width240(line) ≤ 240·1848 |
| LiquidText.LinesFit | src/components/LiquidText.js:54-64 | if widths scale linearly with the font size, every line drawn at the final size fits within 1848 |
| LiquidText.FitFontSize | src/components/LiquidText.js:50-60 | the loop returns the compounded size over all lines, which lies between 0 and 240 |
| LiquidText.LineHeight | src/components/LiquidText.js:68 | the line height is 21/20 of the font size, never less than the size |
| LiquidText.StartY | src/components/LiquidText.js:69-70 | the first line's centre puts the block's top half a line above it, with equal space above the block and below its n lines |
| LiquidText.LineY | src/components/LiquidText.js:76 | line i's box top lies i line heights below the centred block's top (1024 − n·lineHeight)/2 |
| LiquidText.LineCalls | src/components/LiquidText.js:72-78 | one call per line: the line upper-cased, at x = 1024, at line i's centre |
| LiquidText.LineSpacing | src/components/LiquidText.js:68-76 | neighbouring line centres are exactly 1.05·size apart |
| LiquidText.LinesCentred | src/components/LiquidText.js:68-76 | lines i and n − 1 − i are symmetric about 512, and the block runs from (1024 − n·lineHeight)/2 to (1024 + n·lineHeight)/2 |
| LiquidText.TextCanvas.DrawLines | src/components/LiquidText.js:72-78 | the drawing loop appends exactly the line calls and leaves the font alone |
| LiquidText.TextCanvas.RenderText | src/components/LiquidText.js:42-79 | after clearing, the canvas holds one call per line at the fitted size, and the font is 900 weight at that size |
| Scramble.RandomLetter | src/utils/scramble.js:26 | a draw in [0, 1) picks a letter from A to Z |
| Scramble.Frame | src/utils/scramble.js:20-28 | a frame has the original's length, shows the original at every index < iteration and a capital A–Z at every other index |
| Scramble.FrameFinal | src/utils/scramble.js:20-30 | once iteration ≥ length, the frame is the original text whatever the draws |
| Scramble.RevealGrows | src/utils/scramble.js:23-35 | a position revealed at some counter value stays revealed at every later one |
| Scramble.Done | src/utils/scramble.js:30 | the stop test holds exactly when thirds ≥ 3·length |
| Scramble.Scrambler.constructor | src/utils/scramble.js:11-13 | the interval starts at iteration 0 with the label's data-text |
| Scramble.Scrambler.Tick | src/utils/scramble.js:19-36 | writes the frame for the current counter, stops and sets the flag to "false" exactly on the tick where iteration ≥ length, and adds one third |
| Scramble.ScrambleText | src/utils/scramble.js:9-17 | with no label, or a label already flagged "true", nothing happens; otherwise the flag becomes "true" and a fresh interval starts at 0 |
| Scramble.Run | src/utils/scramble.js:19-36 | the interval fires exactly 3·length + 1 times, and its last tick leaves the original text with the flag "false" |

## Left out

- Three.js scene, camera, renderer, mesh, texture, shaders, GSAP tweens, the animation loop and teardown. These are foreign libraries and GPU numerics. The model keeps only the aspect uniform's value and what the canvas texture holds.
- Device pixel ratio and backing-store sizes: `canvas.width`/`height` and `setTransform`. Coordinates are CSS pixels, as after the transform.
- Pixel output: `roundRect`, `fill`, `stroke`, styles, alignment and baselines. A pill is modelled as its box and label anchor, and a title letter as its `fillText` position.
- The oversized measuring canvas and `clearRect` in the skills panel. They do not affect positions.
- Floating point: all arithmetic is exact. Rounding of widths and positions is not modelled.
- Scramble.Run: its count of 3·length + 1 ticks holds for an exact counter of thirds. In IEEE-754 doubles the repeated `+= 1/3` drifts. By hand computation, six additions give 1.9999999999999998, so for labels of length 2, 5 to 9, 20 to 33 and others the interval stops one tick later. Also, 33 additions give 11.000000000000002, so index 11 is revealed one tick early.
- Canvas2D.ToUpper: only ASCII letters are upper-cased. Unicode case mapping, including mappings that change the length, is not modelled.
- Code units: strings are sequences of characters. `split("")` on surrogate pairs is not modelled.
- LiquidText.LinesFit: it holds only if measured widths scale linearly with the font size, which the measuring oracle does not promise. It takes that as a hypothesis.
- LiquidSkills.Divide: JavaScript's signed zero is not modelled; a zero height is always +0.
- Scramble.Frame: random draws are indexed by text position. The source draws only for positions not yet revealed, in order, so the model does not fix which `Math.random()` call feeds which position.
- `setInterval` timing (30 ms) and the real clock. The model treats a run as a sequence of ticks.
- The DOM lookup of the label (`hasAttribute`, `closest`, `querySelector`). The resolved label, or null, is the input to `ScrambleText`.
- `container.style.height` and `renderer.setSize`. They are modelled as the effect's `height` field.
- The default font of a fresh 2D context. The text canvas's constructor sets some font; nothing depends on it.
