# CSCI-5229 graphics programs: a Dafny model of their state-changing core

This project models the parts of the CSCI-5229 graphics programs that compute
or update state, as opposed to the parts that issue OpenGL calls:

- **Star::loadOBJ** (`ObjLoader.dfy`) reads a triangle-only Wavefront OBJ
  file. `v`, `vt` and `vn` lines fill three temporary tables. `f` lines add
  three `vertex/uv/normal` corners. Each corner is then resolved, 1-based,
  into the caller's output vectors. Tokenising follows `std::getline` with a
  delimiter (`Tokens.dfy`).
- **SlamViz** (`SlamReplay.dfy`), the log replay of the SLAM viewer:
  - `readPose` consumes one pose line and moves the view centre when tracking
    is on.
  - `readLmrks` consumes one landmark block. It upserts the block's landmarks
    into the active table, then moves every landmark older than the block's
    stamp into the inactive table.
  - `addToPrevPoses` keeps a trail of poses that are more than 0.5 apart.
  - `timerEvent` advances the clock by 16 ms and runs the three steps above
    every fourth tick.
- **airplane** (`Airplane.dfy`): texture cycling, the quad-strip tessellation
  of a window, the un-normalised face normal and a point on a circle in a
  plane of constant x.
- **The GLUT handlers of homework 3, 4 and 6** (`Hw3.dfy`, `Hw4.dfy`,
  `Hw6.dfy`, with key codes in `Glut.dfy`):
  - arrow keys turn the view, wrapping at a full turn;
  - ordinary keys toggle displays, step light and material levels, switch
    modes and walk a first-person camera.

Each state-changing handler is a method of a class whose fields are the
program's globals. It is proved equal to a step function on a snapshot of
those fields, and the lemmas state what the step functions promise.

Other shared pieces:

- C's truncating `%` is `CInt.Rem`.
- Number conversions (`std::stof`, `std::stod`, `std::stol`, `std::stoul`),
  the square root, and the degree-based cosine and sine are function
  parameters.
- Coordinates are reals.

## Model

| member | source | states |
|---|---|---|
| Tokens.Split | project/src/Star.cpp:22-26 | the pieces between delimiters, at least one, none containing the delimiter |
| Tokens.Field | project/src/Star.cpp:26-35 | the k-th token that successive `getline(ss, token, d)` calls yield never contains the delimiter |
| Tokens.SplitJoin | project/src/Star.cpp:61-74 | splitting a delimiter-free list joined with the delimiter gives the list back |
| Tokens.JoinSplit | project/src/Star.cpp:61-74 | joining the pieces of a split gives the original line back |
| Tokens.FieldOfJoin | project/src/SlamViz.cpp:474-488 | In a line joined from parts that do not contain the delimiter, the k-th token read is part k, or the last part when k is past the end. |
| CInt.Rem | project/src/airplane.cpp:49-52 | C's `%`: the remainder is smaller than the divisor in magnitude, has the dividend's sign and is no larger than the dividend |
| CInt.RemInRange | project/src/airplane.cpp:49-52 | a dividend already smaller than the divisor in magnitude is its own remainder |
| CInt.RemSelf | project/src/airplane.cpp:49-52 | the divisor's magnitude wraps to 0 |
| CInt.RemTurn | hw3/hw3.cpp:72-73 | an angle within two turns of 0 loses exactly one full turn when it reaches ±360 and none otherwise |
| Geometry.Dist2 | project/src/SlamViz.cpp:605 | the squared distance (`glm::length2` of the difference) is non-negative |
| Geometry.RootThreshold | project/src/SlamViz.cpp:605-610 | for the exact root, `dist > 0.5` holds exactly when the squared distance exceeds 0.25 |
| ObjLoader.FaceCorners | project/src/Star.cpp:61-75 | an `f` line always yields three corners |
| ObjLoader.ParseCorner | project/src/Star.cpp:69-74 | defines a corner: the '/'-separated fields of its token as vertex, uv and normal index |
| ObjLoader.Vertices | project/src/Star.cpp:29-38 | defines the vertex table after n lines; it has at most one entry per line |
| ObjLoader.Uvs | project/src/Star.cpp:40-49 | defines the uv table after n lines; it has at most one entry per line |
| ObjLoader.Normals | project/src/Star.cpp:51-60 | defines the normal table after n lines; it has at most one entry per line |
| ObjLoader.Corners | project/src/Star.cpp:61-83 | defines the corners after n lines; there are at most three per line |
| ObjLoader.TableSizes | project/src/Star.cpp:29-83 | the temporary tables hold one entry per `v`, `vt` and `vn` line, and three corners per `f` line |
| ObjLoader.IndicesOfConcat | project/src/Star.cpp:77-82 | index lists of concatenated corners concatenate |
| ObjLoader.ReadStep | project/src/Star.cpp:22-84 | reading one more line extends every table by exactly that line's contribution |
| ObjLoader.ResolveSnoc | project/src/Star.cpp:87-100 | resolving one more index appends exactly that index's entry |
| ObjLoader.IgnoredLine | project/src/Star.cpp:26-83 | a line whose first token is not v, vt, vn or f changes no table |
| ObjLoader.FaceLineRoundTrip | project/src/Star.cpp:61-75 | an `f` line written as three `a/b/c` tokens reads back as exactly those three corners, vertex/uv/normal in order |
| ObjLoader.JoinFree | project/src/Star.cpp:61-75 | joining slash-free index fields with '/' puts no space inside a corner token |
| ObjLoader.ReadLine | project/src/Star.cpp:24-83 | one loop iteration: the first token decides which table or index list gets that line's contribution; other lines change nothing |
| ObjLoader.ReadRecords | project/src/Star.cpp:22-84 | the reading loop leaves each table and index list equal to its line-by-line reference definition over the whole file |
| ObjLoader.ResolveCorners | project/src/Star.cpp:87-100 | the output vectors keep their old contents followed by the resolved entries, in corner order |
| ObjLoader.LoadObj | project/src/Star.cpp:9-101 | each output vector grows by three entries per face, and the new entries are the table entries named by the faces' corners, in file order |
| SlamReplay.TrackedPoseLine | project/src/SlamViz.cpp:472-503 | after reading an eight-field pose line with tracking on, the view centre is (2·field 1, 2·field 3, −2·field 2); with tracking off it is the origin |
| SlamReplay.ParsePose | project/src/SlamViz.cpp:472-489 | defines the pose a line describes: fields 1-3 scaled as translation, fields 4-7 as the quaternion, field 0 as timestamp |
| SlamReplay.PoseStep | project/src/SlamViz.cpp:467-505 | defines one readPose; it reads at most one line and never moves past the end of the log |
| SlamReplay.PoseLineRoundTrip | project/src/SlamViz.cpp:472-489 | a line of eight fields reads back as timestamp, translation scaled by 2, and the quaternion reordered from x y z w to (w, x, y, z) |
| SlamReplay.PoseStepAtEnd | project/src/SlamViz.cpp:470 | once the pose log is exhausted, readPose changes nothing |
| SlamReplay.PoseStepAdvances | project/src/SlamViz.cpp:467-505 | unfolding: readPose consumes one line, sets the current pose from it and moves the view centre only when tracking |
| SlamReplay.LmrkId | project/src/SlamViz.cpp:520 | the `stol` result stored as unsigned long is below 2^64 |
| SlamReplay.ParseLandmark | project/src/SlamViz.cpp:517-529 | defines the landmark a block line describes, stamped with the block's stamp |
| SlamReplay.LandmarkLineRoundTrip | project/src/SlamViz.cpp:517-529 | a landmark line of five fields reads back as id, quality and position scaled by 2, stamped with the block's stamp |
| SlamReplay.BlockEnd | project/src/SlamViz.cpp:514-540 | the block ends at the first empty line, or at the end of the log; every line before that is non-empty |
| SlamReplay.Upsert | project/src/SlamViz.cpp:514-540 | defines the active table after upserting a range of block lines in order |
| SlamReplay.Retire | project/src/SlamViz.cpp:542-554 | defines the inactive table after marginalization: the old landmarks inserted without overwriting existing entries |
| SlamReplay.LmrkStep | project/src/SlamViz.cpp:507-556 | defines one readLmrks on both tables and the read position |
| SlamReplay.UpsertNext | project/src/SlamViz.cpp:531-537 | unfolding: upserting one more line is one more map update (`at(id) = lmrk` and `insert` agree) |
| SlamReplay.LmrkStepBlock | project/src/SlamViz.cpp:507-556 | unfolding: within the log, readLmrks upserts the block's lines and then retires the landmarks older than the stamp |
| SlamReplay.LmrkStepAtEnd | project/src/SlamViz.cpp:510 | once the landmark log is exhausted, readLmrks changes nothing |
| SlamReplay.LastWith | project/src/SlamViz.cpp:514-540 | the last block line naming an id, or -1 when no block line names it |
| SlamReplay.UpsertLookup | project/src/SlamViz.cpp:531-537 | after a block, an id it names holds the landmark of its last line; every other id keeps its old entry or stays absent |
| SlamReplay.UpsertStamped | project/src/SlamViz.cpp:522 | every landmark upserted from a block carries the block's stamp |
| SlamReplay.BlockStaysActive | project/src/SlamViz.cpp:507-556 | after a block, no active landmark is older than its stamp, and every landmark of the block is active with that stamp |
| SlamReplay.MarginalizeActive | project/src/SlamViz.cpp:542-554 | an upserted landmark stays active exactly when it is not older than the stamp, unchanged; nothing else is active |
| SlamReplay.MarginalizeInactive | project/src/SlamViz.cpp:542-554 | every landmark that leaves the active table is inactive; entries already inactive are kept as they were, because `insert` does not overwrite; the inactive table gains nothing else |
| SlamReplay.ReobservedStaysInactive | project/src/SlamViz.cpp:531-553 | re-observing an inactive id makes it active again without removing it from the inactive table |
| SlamReplay.TrailStep | project/src/SlamViz.cpp:583-612 | defines one addToPrevPoses; the trail is never empty afterwards and either stays or ends with the current pose |
| SlamReplay.TrailStepGrows | project/src/SlamViz.cpp:583-612 | the trail is append-only, grows by at most the current pose, starts with the first pose, and keeps consecutive poses more than 0.5 apart |
| SlamReplay.Dist2Symmetric | project/src/SlamViz.cpp:605 | the distance between two poses does not depend on their order |
| SlamReplay.Tick | project/src/SlamViz.cpp:210-221 | defines one timerEvent on the clock: cur_time grows by 16, zh stays in [0, 360), and last_time catches up exactly on a step tick |
| SlamReplay.Ticks | project/src/SlamViz.cpp:210-213 | the light azimuth stays within [0, 360) |
| SlamReplay.TickSchedule | project/src/SlamViz.cpp:210-221 | after n ticks cur_time is 16n, last_time is 64⌊n/4⌋ and zh is (90+n) mod 360; tick n runs a replay step exactly when 4 divides n |
| SlamReplay.TickFrom | project/src/SlamViz.cpp:210-221 | unfolding: one tick from the clock after n-1 ticks gives the clock after n ticks |
| SlamReplay.ZhSucc | project/src/SlamViz.cpp:213 | stepping zh by one with C's `%` agrees with counting modulo 360 |
| SlamReplay.SlamViz.constructor | project/src/SlamViz.cpp:11-46 | logs open at their first line, zh = 90, the clock at 0, tracking off, empty tables and trail |
| SlamReplay.SlamViz.TogglePoseTrack | project/src/SlamViz.cpp:82-86 | tracking flips |
| SlamReplay.SlamViz.ReadPose | project/src/SlamViz.cpp:467-505 | pose, view centre and log position become the pose step of the old ones |
| SlamReplay.SlamViz.AddToPrevPoses | project/src/SlamViz.cpp:583-612 | the trail becomes the trail step, and it stays spaced more than 0.5 apart |
| SlamReplay.SlamViz.ReadLmrks | project/src/SlamViz.cpp:507-556 | both tables and the log position become the landmark step of the old ones |
| SlamReplay.SlamViz.Marginalize | project/src/SlamViz.cpp:541-554 | the active table keeps exactly the landmarks not older than the stamp; the old ones are inserted into the inactive table |
| SlamReplay.SlamViz.UpsertLines | project/src/SlamViz.cpp:514-540 | the block's lines are upserted in order up to the empty line or the end of the log, where the loop stops |
| SlamReplay.SlamViz.CollectMarginalized | project/src/SlamViz.cpp:542-548 | exactly the ids older than the stamp, in ascending id order |
| SlamReplay.SlamViz.MoveToInactive | project/src/SlamViz.cpp:549-554 | erasing and inserting each collected id leaves the active table as the recent landmarks, and the inactive table as the old ones with previous inactive entries kept |
| SlamReplay.SlamViz.TimerEvent | project/src/SlamViz.cpp:210-222 | one clock tick; on a step tick, trail, pose and landmark steps in that order; otherwise no replay state changes |
| SlamReplay.SlamViz.AdvanceClock | project/src/SlamViz.cpp:212-216 | cur_time +16, zh +1 mod 360, last_time catches up after 64 ms; the phase stays a multiple of 16 below 64 |
| SlamReplay.MarginalizedMembers | project/src/SlamViz.cpp:546 | an id is marginalized exactly when it is active with a timestamp below the stamp |
| SlamReplay.Smallest | project/src/SlamViz.cpp:543-544 | the least key, which is where `std::map` iteration continues |
| Airplane.NextTex | project/src/airplane.cpp:49-52 | defines the index after one changeTexture; it is below the texture count in magnitude, and non-negative from any index of at least -1 |
| Airplane.NextTexInRange | project/src/airplane.cpp:49-52 | an index within the number of textures stays within it |
| Airplane.NextTexWalk | project/src/airplane.cpp:49-52 | up to num_textures calls advance the index one by one, wrapping once past the end |
| Airplane.NextTexCycle | project/src/airplane.cpp:49-52 | num_textures calls bring the index back to where it started |
| Airplane.Airplane.constructor | project/src/airplane.cpp:3-7 | keeps the caller's texture array and count; ntex starts at 0 |
| Airplane.Airplane.ChangeTexture | project/src/airplane.cpp:49-52 | ntex becomes (ntex+1) % num_textures and stays a valid index |
| Airplane.DrawWindow | project/src/airplane.cpp:129-154 | vert_seg+1 strips of 2(horiz_seg+1) points each; each column pairs the grid point one row up with the one on the row |
| Airplane.GridReach | project/src/airplane.cpp:129-154 | the grid starts at the start corner and its last column reaches end_z; the last strip's upper edge lies one increment beyond end_x and end_y |
| Airplane.CrossProduct | project/src/airplane.cpp:90-104 | the un-normalised normal (a-c)×(b-c) is perpendicular to both edges |
| Airplane.CrossOrthogonal | project/src/airplane.cpp:95-104 | u×v is perpendicular to u and to v |
| Airplane.CrossProductSwap | project/src/airplane.cpp:90-104 | swapping the outer points reverses the normal |
| Airplane.PointOnCircle2 | project/src/airplane.cpp:70-76 | the point lies in the plane x = c_x |
| Airplane.PointOnCircle2Radius | project/src/airplane.cpp:70-76 | where cos²+sin² = 1, the point lies at distance r from the centre |
| Hw3.SpecialStep | hw3/hw3.cpp:57-76 | both angles end strictly inside (-360, 360); axes and mode do not change |
| Hw3.KeyStep | hw3/hw3.cpp:81-99 | valid globals stay valid |
| Hw3.SpecialTurns | hw3/hw3.cpp:57-76 | each arrow turns one angle by 5°, wrapping by one turn, and leaves the other; other keys change nothing |
| Hw3.ModeStepsInverse | hw3/hw3.cpp:93-96 | 'M' undoes 'm' and 'm' undoes 'M' |
| Hw3.ModeCycle | hw3/hw3.cpp:93-94 | seven more presses of 'm' lead to the same state |
| Hw3.ModePress | hw3/hw3.cpp:93-94 | 'm' advances the mode modulo 7 and changes nothing else |
| Hw3.PressesMode | hw3/hw3.cpp:93-94 | n presses of 'm' advance the mode by n modulo 7 and change nothing else |
| Hw3.AxesToggle | hw3/hw3.cpp:90-91 | 'a'/'A' flips the axes; two presses cancel |
| Hw3.KeyTouchesOwn | hw3/hw3.cpp:81-99 | each key changes only its own globals; '0' sets both angles to 0 |
| Hw3.Interp | hw3/hw3.cpp:49-52 | interp is 0 at t = 0 and x1+x2 at t = 1 |
| Hw3.InterpVersusLerp | hw3/hw3.cpp:49-52 | interp equals linear interpolation exactly when x1 = 0 or t = 1/2 |
| Hw3.Globals.constructor | hw3/hw3.cpp:20-24 | the initial globals th = ph = 0, axes = 1, mode = 0, which are valid |
| Hw3.Globals.Special | hw3/hw3.cpp:57-76 | the globals become the special step of the old ones |
| Hw3.Globals.Key | hw3/hw3.cpp:81-99 | Escape exits and changes nothing; any other key applies the key step |
| Hw4.SpecialStep | hw4/hw4.cpp:77-117 | outside first person only the orbit angles move and stay inside one turn; inside it only the walker's, with elevation clamped to [-90, 90] |
| Hw4.KeyStep | hw4/hw4.cpp:122-185 | valid globals stay valid |
| Hw4.SpecialFirstPerson | hw4/hw4.cpp:97-113 | the walker turns by 5° with wrapping and tilts by 5° saturating at ±90 |
| Hw4.SpecialOrbit | hw4/hw4.cpp:79-96 | the orbit view turns by 5° with wrapping; other keys change nothing |
| Hw4.ModePress | hw4/hw4.cpp:129-133 | 'm' and 'M' both advance the mode modulo 3 and change nothing else |
| Hw4.PressesMode | hw4/hw4.cpp:129-133 | n presses of 'm' advance the mode by n modulo 3 |
| Hw4.ModeCycle | hw4/hw4.cpp:129-133 | three more presses of 'm' lead to the same state |
| Hw4.FovDrift | hw4/hw4.cpp:135-150 | the field of view is unbounded: n presses of '-' lower it by n |
| Hw4.WalkBack | hw4/hw4.cpp:159-178 | ',' and 'o', and 'e' and 'a', undo each other |
| Hw4.WalkStride | hw4/hw4.cpp:159-178 | where cos²+sin² = 1, each walking key moves one stride (0.1) and keeps the walker's angles |
| Hw4.KeyModeSeparation | hw4/hw4.cpp:122-185 | keys act on the orbit view and fov only outside first person and on the walker only inside; only 'm'/'M' change the mode; '0' resets the current mode's angles |
| Hw4.Globals.constructor | hw4/hw4.cpp:20-31 | initial globals, with fov = 55, which are valid |
| Hw4.Globals.Special | hw4/hw4.cpp:77-117 | the globals become the special step of the old ones |
| Hw4.Globals.Key | hw4/hw4.cpp:122-185 | Escape exits and changes nothing; any other key applies the key step |
| Hw6.LevelSteps | hw6/hw6.c:947-962 | a step of 5 inside [0, 100] keeps a level a multiple of 5 |
| Hw6.Pow2 | hw6/hw6.c:974 | a power of two is at least 1 |
| Hw6.ShinyOf | hw6/hw6.c:974 | shiny is 0 exactly for a negative exponent, otherwise at least 1 |
| Hw6.InitialValid | hw6/hw6.c:30-58 | the initial globals satisfy every invariant the handlers keep |
| Hw6.SpecialView | hw6/hw6.c:868-884 | defines the view branch of special, before the angles are wrapped |
| Hw6.SpecialLamp | hw6/hw6.c:886-898 | defines the light model branch of special |
| Hw6.KeyView | hw6/hw6.c:917-940 | defines the view branch of key |
| Hw6.KeyLamp | hw6/hw6.c:923-945 | defines the light branch of key |
| Hw6.KeyMaterial | hw6/hw6.c:947-974 | defines the intensity and shininess branch of key, followed by shiny from the exponent |
| Hw6.SpecialStep | hw6/hw6.c:865-906 | both angles end strictly inside (-360, 360) |
| Hw6.ViewKeysKeepValid | hw6/hw6.c:868-884 | the view keys of both handlers keep the view valid |
| Hw6.LampKeysKeepValid | hw6/hw6.c:886-945 | the light keys keep flags 0/1, one = ±1, distance in {1, 5} and inc in {10, 3} |
| Hw6.MaterialKeysKeepValid | hw6/hw6.c:947-974 | levels stay multiples of 5 in [0, 100], the exponent stays in [-1, 7], and shiny always follows the exponent |
| Hw6.StepsKeepValid | hw6/hw6.c:865-981 | both handlers keep the globals valid |
| Hw6.SpecialToggles | hw6/hw6.c:886-898 | F1, F2, F3, F8 and F9 each change the state, and a second press restores it |
| Hw6.SpecialMovesView | hw6/hw6.c:868-884 | arrows turn one angle by 5° with wrapping; Page Down widens the zoom by 0.1; Page Up narrows it while it exceeds 1 |
| Hw6.KeyToggles | hw6/hw6.c:920-972 | x, l, p, m and t (either case) each change the state, and a second press restores it |
| Hw6.KeyTouchesOwn | hw6/hw6.c:911-981 | each key changes only its own group of globals; the idle callback changes only with 'm'/'M'; '0' zeroes both angles |
| Hw6.KeyViewFrames | hw6/hw6.c:917-940 | '0' zeroes both angles, x/X flips axes, p/P flips the projection mode, '-' and '+' move fov by one, and nothing else changes |
| Hw6.KeyLampFrames | hw6/hw6.c:923-945 | l/L flips the light, m/M flips its movement and the idle callback, '<'/'>' move zh by one, '['/']' move the light height by 0.1, and nothing else changes |
| Hw6.MaterialFrames | hw6/hw6.c:947-974 | each intensity key moves its own level by 5 while inside [0, 100]; n/N move the exponent inside [-1, 7] and shiny with it; nothing else in the material changes |
| Hw6.KeyMaterialFrames | hw6/hw6.c:947-974 | a material key changes only the material |
| Hw6.KeyOtherFrames | hw6/hw6.c:911-981 | t/T flips only the texture; a key outside the chain changes nothing |
| Hw6.OppositePairs | hw6/hw6.c:932-970 | the stepping keys are exactly those with an opposite key, and opposites come in pairs |
| Hw6.KeyUndo | hw6/hw6.c:932-970 | every step a stepping key takes is undone by its opposite key |
| Hw6.FovUndo | hw6/hw6.c:937-940 | '+' undoes '-' and '-' undoes '+' |
| Hw6.LightPositionUndo | hw6/hw6.c:932-945 | '<' and '>', and '[' and ']', undo each other |
| Hw6.MaterialKeyUndo | hw6/hw6.c:947-970 | an intensity or shininess key that changes the state is undone by its opposite |
| Hw6.MaterialUndo | hw6/hw6.c:947-970 | every intensity or shininess step is undone by the opposite key |
| Hw6.AmbientSaturates | hw6/hw6.c:947-950 | n presses of 'A' raise ambient by 5n, saturating at 100, and change nothing else |
| Hw6.FovDrift | hw6/hw6.c:937-940 | the field of view is unbounded: n presses of '-' lower it by n |
| Hw6.Globals.constructor | hw6/hw6.c:30-58 | the initial globals, with the idle callback installed, which are valid |
| Hw6.Globals.Special | hw6/hw6.c:865-906 | the globals become the special step of the old ones |
| Hw6.Globals.SpecialViewKeys | hw6/hw6.c:868-884 | the view branch of special |
| Hw6.Globals.SpecialLampKeys | hw6/hw6.c:886-898 | the light model branch of special |
| Hw6.Globals.Key | hw6/hw6.c:911-981 | Escape exits and changes nothing; any other key applies the key step |
| Hw6.Globals.ViewKeys | hw6/hw6.c:917-940 | the view branch of key |
| Hw6.Globals.LampKeys | hw6/hw6.c:923-945 | the light branch of key |
| Hw6.Globals.MaterialKeys | hw6/hw6.c:947-974 | the intensity and shininess branch of key, then shiny from the exponent |

## Left out

- Drawing: all OpenGL, GLUT and Qt calls that draw, project or redisplay (`update()`, `glutPostRedisplay`, `Project`). `DrawWindow` returns the vertices it would emit.
- Floating point: float and double rounding are not modelled; coordinates are reals.
- Conversions: `std::stof`, `std::stod`, `std::stol` and `std::stoul`, the square root and the degree-based cosine and sine are given as functions. `pow(2.0, shininess)` is defined exactly, by `Hw6.Pow2` and `Hw6.ShinyOf`.
  - Their exceptions on malformed text are not modelled.
  - The conversion of the stamp line to unsigned int, including its truncation, is one abstract function.
- File handling: opening the files, and the newline Star::loadOBJ writes to `std::cerr` for each face line (project/src/Star.cpp:76). Each file is a sequence of complete lines.
  - A landmark log whose last line lacks its newline would make `readLmrks` re-read that line forever; this is not represented.
  - Star::loadOBJ opens its file without checking it; a missing file reads as an empty one, which is `ObjLoader.LoadObj` with no lines.
- ObjLoader.LoadObj: requires every face index to name an existing entry; out-of-range indices are undefined behaviour in the source.
- SlamViz poses: a pose keeps its translation and quaternion rather than the 4x4 matrix T_WS.
  - `glm::decompose` is taken to return that translation.
  - The default-constructed first pose is the constructor's `initialPose` parameter.
- SlamReplay.SlamViz.constructor: only the replay state is modelled. Lighting, display flags, shaders and the map setup are not part of this model.
- SlamReplay.SlamViz.TimerEvent: cur_time and last_time are doubles in the source and integers here; they only ever hold multiples of 16.
- SlamReplay.SlamViz.UpsertLines: the block loop of readLmrks runs on the table and the line index as values; ReadLmrks stores the table and read position back when it ends.
- SlamReplay.SlamViz.MoveToInactive: works on map values and returns the two tables rather than updating the fields in place.
- ObjLoader.ReadLine, ObjLoader.ReadRecords, ObjLoader.ResolveCorners: the loader's loops work on sequence values; the output vectors passed by reference are parameters and results.
- Hw6.Globals.Special, Hw6.Globals.Key: the source's single else-if chain is split into one chain per group of globals. No key appears in two groups, so each key still takes one branch.
- Integer overflow: the angles, fov and light azimuth are unbounded integers, so the int overflow after very many presses of '-', '+', '<' or '>' is not modelled.
- Idle callbacks: their bodies, which animate zh, are not part of this model. In homework 6, `animate` records whether the idle callback is installed.
- Homework 3's zh and homework 4's zh, dim and asp are not touched by the modelled handlers.
- Airplane.DrawWindow: requires nonzero segment counts, because the source divides by them.
- Airplane.Airplane.ChangeTexture: requires a nonzero texture count, because C's `%` by zero is undefined.
- Airplane textures: texture handles are integers in an array.
