# RoboSim core in Dafny

RoboSim is a small first-person browser game written with WebGL. The player
walks around a walled arena. The keyboard turns, pitches, strafes, walks and
shoots, and four enemy robots stand in the arena's corners. This project
models the game logic in `data/scripts/RoboSim.js` that does not depend on
the browser:

- **The world-file reader** (`handleLoadedWorld`), module `WorldFile`
  (`world_file.dfy`):
  - The text of the world description is split into lines.
  - Each line loses its leading whitespace and is split into
    whitespace-separated fields.
  - Every line with exactly five fields whose first field is not `//`
    contributes three position values and two texture coordinates, in file
    order.
  - The two vertex buffers record 3 and 2 values per item, and both record
    the vertex count.
  - The loop is a method proved against the specification functions
    `Positions`, `TexCoords` and `Kept`.
- **The key handler** (`handleKeys`, `handleKeyDown`, `handleKeyUp`), module
  `Controls` (`controls.dfy`):
  - Four opposing pairs of keys set the pitch rate, the yaw rate, the strafe
    speed and the walking speed.
  - Space drives an edge-triggered shot latch (`hasShot`).
- **The frame update** (`animate`), module `Motion` (`motion.dfy`):
  - Elapsed time is measured since the previous frame. The first frame only
    records the clock.
  - The four movement terms are applied according to the arena-bound
    policy: both terms strictly inside the band (-9.8, 9.8), otherwise at most
    one term chosen in a fixed priority order, using the edge 9.9.
  - The jogging bob changes only when moving and only when `xPosition` lies
    in the inner band.
  - Yaw and pitch are integrated on every frame after the first.
- **Robot repopulation** (`repopulate` and the `Robot` constructor), module
  `Robots` (`robots.dfy`): each empty slot among 0..3 gets a new robot at its
  corner (±10, ±10). Robots already present are left alone.
- **The game state** (module `RoboSim`, `robosim.dfy`):
  - The script's globals become the fields of class `Game`.
  - Its handlers become methods that change only the globals the script's
    functions write.
  - Each method's `ensures` ties the new state to the functions above.

Behaviour worth knowing, all as the code is written:

- **A pair with both sides held:** the side tested first wins. Up/W beats
  Down/S, Left/A beats Right/D, Page Up beats Page Down, and Q beats E. The
  result is not zero.
- **The bands are open:** 9.8 itself is outside the inner band.
- **The bound is not a clamp.** Between 9.8 and 9.9 an outward forward term
  is still applied and can carry the camera past 9.9. Beyond 9.9, outward
  movement on that axis is ignored.
- **The jogging bob on the z axis:** it is gated on `xPosition` only, so it
  changes while walking along the z walls only when x is inside the inner band.
- **Trailing whitespace is not stripped, so one trailing whitespace
  character adds an empty last field.** A vertex line ending in
  non-whitespace, followed by a space, a tab or a carriage return, splits
  into six fields and is dropped. A line of four values followed by such a
  character splits into five fields, the last one empty, and is kept. Its
  fifth value is then the parse of the empty string.

## Model

| member | source | states |
|---|---|---|
| WorldFile.HandleLoadedWorld | data/scripts/RoboSim.js:248-279 | the position buffer holds, in file order, three parsed values per vertex line and the texture buffer two. Item sizes are 3 and 2. Both counts equal the number of vertex lines, and each buffer's length is its item size times that count |
| WorldFile.SplitLines | data/scripts/RoboSim.js:249 | `split("\n")` always yields at least one line |
| WorldFile.SplitLinesRoundTrip | data/scripts/RoboSim.js:249 | joining the lines with "\n" gives back the original text, so splitting loses nothing |
| WorldFile.SplitLinesNoNewline | data/scripts/RoboSim.js:249 | no line contains a "\n" |
| WorldFile.SplitLinesCount | data/scripts/RoboSim.js:249 | the number of lines is one more than the number of "\n" characters |
| WorldFile.LeadingSpaces | data/scripts/RoboSim.js:254 | the first n characters are all whitespace and the next one, if any, is not, so n is the length of the longest whitespace prefix |
| WorldFile.StripLeading | data/scripts/RoboSim.js:254 | `replace(/^\s+/, "")` removes a prefix made only of whitespace, keeps the rest of the line as it is, and leaves a line that does not start with whitespace |
| WorldFile.Fields | data/scripts/RoboSim.js:254 | `split(/\s+/)` always yields at least one field |
| WorldFile.FieldsOfWord | data/scripts/RoboSim.js:254 | a non-empty string without whitespace is one single field |
| WorldFile.FieldsAfterSpace | data/scripts/RoboSim.js:254 | whitespace in front of a string that starts with non-whitespace gives one empty field before the string's own fields |
| WorldFile.FieldsJoin | data/scripts/RoboSim.js:254 | fields break exactly at whitespace runs: the fields of `a + ws + b` are those of `a` followed by those of `b`, for a whitespace run `ws` between non-whitespace characters |
| WorldFile.FieldsSpaceFree | data/scripts/RoboSim.js:254 | no field contains whitespace |
| WorldFile.FieldsKeepText | data/scripts/RoboSim.js:254 | concatenating the fields gives the line's non-whitespace characters, so splitting drops only whitespace |
| WorldFile.TrailingSpaceGivesEmptyField | data/scripts/RoboSim.js:254 | a string ending in whitespace splits into at least two fields, the last one empty |
| WorldFile.FieldsSnocSpace | data/scripts/RoboSim.js:254 | one whitespace character after a non-blank string adds exactly one empty field |
| WorldFile.FieldsOfSpaces | data/scripts/RoboSim.js:254 | a non-empty run of whitespace alone splits into two empty fields |
| WorldFile.FieldsTrailingRun | data/scripts/RoboSim.js:254 | a trailing whitespace run of any length after a string ending in non-whitespace adds exactly one empty field |
| WorldFile.LeadingSpacesAppend | data/scripts/RoboSim.js:254 | whitespace put in front of a string adds exactly its own length to the leading whitespace |
| WorldFile.LeadingSpacesSnoc | data/scripts/RoboSim.js:254 | appending a character to a non-blank string leaves its leading whitespace as it is |
| WorldFile.LeadingSpaceIgnored | data/scripts/RoboSim.js:254-255 | indentation changes neither a line's fields nor whether it is a vertex line |
| WorldFile.Values | data/scripts/RoboSim.js:254 | a line has at least one field. The first field is empty exactly when nothing is left after the indentation, and then it is the only field |
| WorldFile.BlankLine | data/scripts/RoboSim.js:254 | a line's first field is empty exactly when every character of the line is whitespace |
| WorldFile.ValuesSpaceFree | data/scripts/RoboSim.js:254 | no field of a line holds whitespace |
| WorldFile.Accepted | data/scripts/RoboSim.js:255 | a vertex line has five fields, its first field is not empty, and it is not blank |
| WorldFile.TrailingSpaceRejects | data/scripts/RoboSim.js:254-255 | a vertex line ending in non-whitespace, with one whitespace character appended, has six fields and is dropped |
| WorldFile.TrailingSpaceCompletesShortLine | data/scripts/RoboSim.js:254-255 | a line of four fields ending in non-whitespace, whose first field is not "//", is kept once one whitespace character is appended, and its fifth field is empty |
| WorldFile.VertexLineExample | data/scripts/RoboSim.js:254-255 | the line "1 2 3 4 5" is a vertex line |
| WorldFile.ShortLineExample | data/scripts/RoboSim.js:254-255 | the line "1 2 3 4" is dropped |
| WorldFile.KeptIff | data/scripts/RoboSim.js:253-255 | a line is among the vertex lines exactly when it occurs in the file and has five fields, the first not "//" |
| WorldFile.CollectAppend | data/scripts/RoboSim.js:253-267 | the per-line loop over two consecutive parts of the file gives the results of the parts in turn |
| WorldFile.AppendLines | data/scripts/RoboSim.js:253-267 | vertex lines, positions and texture coordinates of concatenated files are the concatenations, in order |
| WorldFile.BufferSizes | data/scripts/RoboSim.js:250-279 | three position values and two texture coordinates per vertex line |
| WorldFile.InFileOrder | data/scripts/RoboSim.js:253-263 | the k-th vertex line supplies positions 3k..3k+2 (its fields 0..2) and texture coordinates 2k..2k+1 (its fields 3..4) |
| Controls.Resolve | data/scripts/RoboSim.js:432-440 | an opposing pair gives `value` exactly when a first-side key is held. It gives `-value` exactly when no first-side key and some second-side key is held, and zero exactly when neither side is held |
| Controls.AnyHeldOne | data/scripts/RoboSim.js:432 | a one-key group is held exactly when its key is recorded as pressed (a missing key is falsy) |
| Controls.AnyHeldTwo | data/scripts/RoboSim.js:466 | a two-key group (`a \|\| b`) is held exactly when one of its keys is |
| Controls.KeyRates | data/scripts/RoboSim.js:429-483 | each rate or speed is positive or negative exactly according to the side of its pair that is held, with the first-tested side taking precedence: pitch up, turn left, strafe left (negative side speed), walk forward |
| Controls.GroupsHeld | data/scripts/RoboSim.js:432-482 | each of the eight key groups is held exactly when one of its key codes (33, 34, 81, 69, 37/65, 39/68, 38/87, 40/83) is |
| Controls.KeyRatesByCode | data/scripts/RoboSim.js:429-483 | pitch rate ±0.1 (Page Up/Down), yaw rate ±0.15 (Q/E), side speed -0.004 for Left/A and 0.004 for Right/D, speed 0.004 for Up/W and -0.004 for Down/S. In each pair the first-tested side wins, and with neither side held the value is 0 |
| Controls.ResolveLocal | data/scripts/RoboSim.js:432-482 | a pair depends only on its own keys: key maps that agree on them give the same value |
| Controls.NoKeysNoRates | data/scripts/RoboSim.js:429-483 | with none of the movement keys held, all four rates and speeds are zero |
| Controls.ForwardBeatsBackward | data/scripts/RoboSim.js:474-482 | Up and Down held together walk forward (speed 0.004) |
| Controls.LeftBeatsRight | data/scripts/RoboSim.js:465-472 | A and D held together strafe left (side speed -0.004) |
| Controls.Shoot | data/scripts/RoboSim.js:452-463 | one check of Space fires exactly when Space is held and the latch is clear, and the latch afterwards equals whether Space is held |
| Controls.FiresOncePerPress | data/scripts/RoboSim.js:452-463 | over any sequence of checks, the shot fires exactly as often as Space goes from released to held, a set latch counting as held |
| Controls.HoldingFiresOnce | data/scripts/RoboSim.js:452-463 | holding Space across any number of checks fires once, or not at all if the latch was already set |
| Motion.AxisStep | data/scripts/RoboSim.js:370-396 | strictly inside (-9.8, 9.8) both terms are subtracted. Elsewhere exactly one term, or none, is subtracted, chosen by the fixed priority order and not by magnitude: a forward term that raises the coordinate (`along < 0`) while below 9.9, then such a strafe term, then a forward term that lowers it (`along > 0`) while above -9.9, then such a strafe term. Past ±9.9 the coordinate never moves further out |
| Motion.Displacement | data/scripts/RoboSim.js:361-364 | with zero speed the forward terms vanish, and with zero side speed the strafe terms vanish |
| Motion.Tick | data/scripts/RoboSim.js:358-401 | yaw and pitch integrate their rates over the elapsed time. Without movement, position and bob are unchanged. While moving, x and z each take the arena-bound step (`AxisStep`) of their forward and strafe terms. Bob and height change only when moving with x in the inner band, and then the jogging angle grows by 0.6 per ms and y = sin(angle)/20 + 0.4 |
| Motion.Animate | data/scripts/RoboSim.js:356-404 | the timestamp becomes the current clock reading, and the first frame (`lastTime == 0`) leaves the pose unchanged. Every later frame is one `Tick` over the elapsed time timeNow - lastTime, so x and z take the arena-bound step and the bob advances as `Tick` states. On a later frame, yaw and pitch advance by rate × (timeNow - lastTime), and without forward or strafe speed the position and bob stay |
| Motion.RunStill | data/scripts/RoboSim.js:369-397 | without forward or strafe speed, no sequence of frames moves the camera or its bob |
| Motion.IdleFrame | data/scripts/RoboSim.js:369-400 | with no movement, turning or pitching key held, a frame leaves the pose as it is |
| Motion.ForwardStep | data/scripts/RoboSim.js:361-392 | walking forward at yaw 0 for 16 ms well inside the arena decreases z by 0.064 and leaves x as it is |
| Motion.StuckPastEdge | data/scripts/RoboSim.js:370-383 | at or beyond 9.9, terms that would carry the camera further out are ignored and the coordinate sticks |
| Motion.NearEdgeEscapes | data/scripts/RoboSim.js:370-377 | between 9.8 and 9.9 an outward forward term is applied whole and can carry the camera past 9.9 |
| Robots.NewRobot | data/scripts/RoboSim.js:46-52 | a new robot stands at the given x and z, on the ground (y 0), facing yaw 0, with speed 0.01 |
| Robots.Corner | data/scripts/RoboSim.js:562-573 | each slot's spawn point is a corner (±10, ±10). Slots 0 and 1 have x 10, and slots 0 and 2 have z 10 |
| Robots.CornersDistinct | data/scripts/RoboSim.js:562-573 | the four slots spawn at four different corners |
| Robots.Repopulated | data/scripts/RoboSim.js:561-574 | afterwards slots 0..3 all hold a robot. Robots already present are unchanged, and each new robot is `new Robot(x, z)` at its slot's corner |
| Robots.RepopulateIdempotent | data/scripts/RoboSim.js:561-574 | repopulating a second time changes nothing |
| Robots.RepopulateEmpty | data/scripts/RoboSim.js:46-52 | from no robots the result is the four corner robots at (10,10), (10,-10), (-10,10), (-10,-10), each with y 0, yaw 0 and speed 0.01 |
| RoboSim.Game.constructor | data/scripts/RoboSim.js:22-59 | the initial globals: the camera at (0, 1, 0) facing yaw 0 and pitch 0 with no bob, all rates zero, latch clear, `lastTime` 0, no keys, no robots |
| RoboSim.Game.HandleKeyDown | data/scripts/RoboSim.js:412-416 | the key code is recorded as pressed, and nothing else in the key map changes |
| RoboSim.Game.HandleKeyUp | data/scripts/RoboSim.js:418-421 | the key code is recorded as released, and nothing else in the key map changes |
| RoboSim.Game.HandleKeys | data/scripts/RoboSim.js:429-483 | the four rates become the key rates of the held keys, and the latch becomes whether Space is held, as `Shoot` gives. The HUD is redrawn (`fired`) exactly when Space is held and the latch was clear |
| RoboSim.Game.Repopulate | data/scripts/RoboSim.js:561-574 | the robot slots become `Repopulated` of the old slots |
| RoboSim.Game.Animate | data/scripts/RoboSim.js:356-404 | pose and timestamp become `Motion.Animate` of the old ones. The slots are repopulated on every frame but the first, the timestamp is the clock reading, and the first frame leaves the pose unchanged |

## Left out

- WebGL setup, shaders and textures (lines 91-241), `mvPushMatrix`/`mvPopMatrix` (lines 68-79) and `drawScene` (lines 300-349): rendering only.
- `loadWorld` (the HTTP request for the world file): I/O. The file's text is the `data` parameter of `HandleLoadedWorld`.
- The creation of the GL buffers and `Float32Array` in `handleLoadedWorld`: the model returns the data and sizes that are handed to the buffers. Values are reals, without 32-bit float rounding.
- The text in `loadingtext`, which `handleLoadedWorld` clears: DOM only.
- `parseFloat` and `NaN`: the number parser is an arbitrary parameter `parse`.
- `Math.sin`, `Math.cos` and `degToRad`: the parameters `sinDeg` and `cosDeg`. No property relies on their values except where a lemma states one as a premise.
- Floating-point arithmetic: all positions, rates and angles are reals, so rounding is not modelled.
- `new Date().getTime()`: the clock reading is the `timeNow` parameter of `Animate`.
- `hud`, `hudGameOver`, `gameOverCheck`, `enemiesKilled`, `gameOver` and `liveRobots`: canvas drawing and game-over handling, outside this model. The redraw made by `handleKeys` is the `fired` result of `HandleKeys`.
- The `console.log` in `handleKeys`, and `moveRobots`, which only clears the console and logs robot 0: output only.
- `start`, `setInterval` and the key-event registration: scheduling. The model's `Run` applies consecutive frames with fixed rates.
- Controls.Resolve: each pair's if / else-if chain is written as one function over the key groups, and `KeyRatesByCode` states the chain key code by key code.
- Robots.Repopulated: a slot set to `null` or `undefined` is modelled as a missing key. Nothing in this core stores such a value.
