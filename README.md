# Ouro menu scene: colour pickers

This project models the colour-selection logic of the menu scene of Ouro, a two-player
browser arcade game. Each player picks one of four palette colours with the keyboard.
Player 1 uses D and A, and player 2 uses the right and left arrows. Enter starts the game
scene with the two chosen colours.

Each player has a palette index. Each player also has a triangular cursor that is drawn
under a row of four swatches. A key press moves the index one step and the cursor 30 pixels
with it. At the ends the index wraps around and the cursor jumps back by three steps (90 pixels).

The model has four modules:

- `Palette` (palette.dfy): the four colours.
- `Picker` (picker.dfy): one player's selection as a value `Selection(index, left)`, with the
  pure functions for a right press, a left press and one frame for one player (`Handle`).
  These functions are the specification of the scene's key handler. The lemmas cover
  wrap-around, the ±1-modulo-4 step, and four presses restoring the state. They also show
  that the invariant `left - home == 30 * index` is kept.
- `Layout` (layout.dfy): the swatch row built by `createColorBoxes` and the
  `getContainerWidth` reducer. The reducer is folded over a panel's elements, and the
  lemmas prove that the fold computes a maximum.
- `MenuScene` (menu.dfy): the scene as a class `Menu`. Its mutable fields are the two indices,
  the two header fills and the `left` of each of two `Cursor` objects. `Create` is the
  scene's `create` hook together with the cursor construction from `addPlayerSections`.
  `HandleKeyPress` is one frame of `handleKeyPress`. It is proved to keep the scene
  invariant, to agree with `Picker.Handle` for each player, to pass the colours selected
  before the frame on Enter, and to colour each header with its player's colour. It is
  also proved to keep each cursor centred under its player's selected swatch.

Pixel positions are `real`. The engine-supplied quantities are parameters: the widths of
the "Choose Colour:" labels and the containers' x-origins. The source repeats the single-key
step inline four times. The model writes that step once per direction (`MoveRight`,
`MoveLeft`) and calls it for each player.

## Model

| member | source | states |
|---|---|---|
| `Picker.PressRight` | src/scenes/menu.js:146-153 | for a valid index the new index is valid and is `(index + 1) mod 4`; the cursor moves by 30 times the index change, so by -90 on the wrap from the last colour |
| `Picker.PressLeft` | src/scenes/menu.js:156-163 | for a valid index the new index is valid and is `(index - 1) mod 4`; the cursor moves by 30 times the index change, so by +90 on the wrap from the first colour |
| `Picker.Handle` | src/scenes/menu.js:146-164 | one player's frame: the index moves by (+1 if right) + (-1 if left) modulo 4, and a cursor consistent with its index stays consistent, for every home position |
| `Picker.WrapFrames` | src/scenes/menu.js:146-163 | a right press on the last colour selects the first and moves the cursor by -90 px; a left press on the first colour selects the last and moves the cursor by +90 px (three steps, not one) |
| `Picker.RightThenLeftCancel` | src/scenes/menu.js:146-164 | a left press undoes a right press; a frame with both D and A pressed leaves index and cursor unchanged |
| `Picker.LeftThenRightCancel` | src/scenes/menu.js:146-164 | a right press undoes a left press, index and cursor |
| `Picker.RightPressesAdvanceModulo` | src/scenes/menu.js:146-154 | after n right presses the index is `(start + n) mod 4` and the cursor is still `30 * index` from its home |
| `Picker.LeftPressesRetreatModulo` | src/scenes/menu.js:156-164 | after n left presses the index is `(start - n) mod 4` and the cursor is still `30 * index` from its home |
| `Picker.FourRightPressesRestore` | src/scenes/menu.js:146-154 | four right presses restore both the index and the cursor position |
| `Picker.FourLeftPressesRestore` | src/scenes/menu.js:156-164 | four left presses restore both the index and the cursor position |
| `Layout.CreateColorBoxes` | src/scenes/menu.js:50-68 | one 20x20 swatch per palette colour in palette order; box i is at `i*30 + 8 + offset`, the first one 8 px after the label; neighbours are 10 px apart and do not overlap; box i's centre line is `SwatchCentre(i, offset)` |
| `Layout.GetContainerWidth` | src/scenes/menu.js:92-98 | the reducer returns the larger of the running width and the child's right edge |
| `Layout.ReduceWidth` | src/scenes/menu.js:100-101 | `children.reduce(getContainerWidth, width)` as a left fold of `GetContainerWidth` over the children from a start value; the result never falls below the start value (each step only widens), and `ReduceWidthIsMax` shows it is the maximum |
| `Layout.ReduceWidthIsMax` | src/scenes/menu.js:92-101 | the fold from a start value is at least the start value and at least every child's right edge, and it equals one of them, so it is their maximum |
| `Layout.PanelChildren` | src/scenes/menu.js:76-90 | a panel holds, first, the header and the label at x 0, then every swatch (same x and width, in order), then the key image at x 0 and the "Controls" text at x 32 |
| `Layout.PanelWidthEnclosesSwatches` | src/scenes/menu.js:76-101 | a container sized by folding from 0 is at least as wide as the header, the label and the right edge of every swatch |
| `MenuScene.CursorCentredUnderSwatch` | src/scenes/menu.js:109-117 | a cursor whose offset from its home is `30 * index` has its apex on the centre line of swatch `index` of the row after the label |
| `MenuScene.Cursor.BuildEquilateral` | src/scenes/menu.js:109-113 | the built triangle's apex, its centre line, is at the given x |
| `MenuScene.MoveRight` | src/scenes/menu.js:166-173 | the index and cursor after one right-press block are exactly `PressRight` of those before; used for player 1's D block (lines 146-153) and player 2's right-arrow block (lines 166-173) |
| `MenuScene.MoveLeft` | src/scenes/menu.js:176-183 | the index and cursor after one left-press block are exactly `PressLeft` of those before; used for player 1's A block (lines 156-163) and player 2's left-arrow block (lines 176-183) |
| `MenuScene.Menu.Create` | src/scenes/menu.js:199-214 | the scene starts valid with indices 0 and 1 and fresh, distinct cursors; player 2's cursor is one 30 px step further from its home than player 1's; both cursors are centred under the selected swatch; headers have the default fill |
| `MenuScene.Menu.HandleKeyPress` | src/scenes/menu.js:138-192 | keeps the scene invariant (indices in range, each cursor `30 * index` from its home and centred under the selected swatch); Enter yields a request to start the scene "game" with `{color1: colors[p1], color2: colors[p2]}` from the indices before the frame; player 1's state becomes `Handle(old, D, A)` and player 2's `Handle(old, right, left)`, so each player's keys leave the other's state alone; each header's fill is its player's colour |

## Left out

- All drawing, which the engine does: text, rectangles, images, containers, graphics clearing and triangle filling. Only what is drawn where is modelled: the swatches and the cursors' positions.
- Key-edge detection (`keyJustDown`, `addKey`, `createCursorKeys`) belongs to the base scene class, which is not part of this model. Each frame takes the freshly pressed keys as booleans instead. The W and S keys are registered but never read, so they are not modelled.
- `hexStringToColor` belongs to the base scene, which is not part of this model. A swatch's fill is kept as the palette's hex string.
- `middleX` and the container x-origins `(middleX - w) * 2/3` and `middleX + (middleX - w) / 3` are left out. The origins are parameters of `Create`, not tied to the folded container widths.
- The triangle's height and y-coordinates are left out, as are the panels' y-positions in the drawing. Only the triangle's horizontal placement is kept. It is symmetric about its apex and half a side (7.5 px) wide on each side.
- The title, the instructions and the prompt text, and the loading of the two images (`preload`), are presentation only.
- The header fill before the first frame is the engine's default text colour, modelled as "#fff".
- Starting the game scene is an out-parameter of `HandleKeyPress`: `Some(SceneStart("game", params))`. As in the source, the rest of that frame still runs. What the engine does with the request is not modelled.
- `update` only calls `handleKeyPress`, and it is covered by `HandleKeyPress`.
- JavaScript numbers are floating point. Pixel arithmetic is modelled over exact reals, so rounding is not modelled.
