# Epsilon renderer core, modelled in Dafny

Epsilon is a small C rendering engine. This project models the parts of it
that hold logic of their own, and proves properties of them:

- **The arena allocator** (`memory.dfy`, module `Memory`). A `MemoryArena`
  holds a capacity, a base pointer and a bump counter. `alloc_arena` resets
  it. `push_memory` checks the capacity, hands out `base + used` and bumps
  `used`. The model is a class `Arena` with those three fields, plus a ghost
  record of the spans handed out so far. The invariant is `used <= size`,
  and the spans are laid end to end, so they are increasing and disjoint.
- **Input events and the event queue** (`platform.dfy`, module `Platform`).
  Each event constructor starts from the all-zero event and sets a few
  fields. `push_event_to_queue` appends to a fixed array of 1024 events and
  drops the event when the array is full. The queue is a class over an
  `array<Event>` and a counter.
- **OBJ loading** (`mesh.dfy`, module `Mesh`).
  - `read_line` cuts a character stream into lines. Each line keeps its
    newline and gets a `'\0'` after it. A last line that the stream ends
    without a newline is returned as it is, with neither.
  - The loader dispatches each line on its prefix (`"v "`, `"vt "`, `"vn "`,
    `"f "`) into six growing lists. It turns the 1-based face indices into
    0-based ones.
  - It then flattens one vertex per face corner and writes the index buffer
    0, 1, ..., 3n-1.
- **Vector, quaternion and matrix algebra** (`maths.dfy`, module `Maths`;
  `quat_laws.dfy`, module `QuatLaws`). These are over exact reals.
  - Matrices are four columns of four entries, `elements[column][row]`, as
    in the source.
  - `mat4_mul` and `mat4_to_quat` are methods proved against reference
    functions. `mat4_mul_float` is a method whose ensures states each of
    the 16 elements outright.
  - The Hamilton product is proved associative, its conjugate is reversed,
    and its squared length is multiplicative.
  - `quat_matrix.dfy` (module `QuatMatrix`) proves the round trip of
    `quat_to_mat4` and `mat4_to_quat`. For a unit quaternion, `mat4_to_quat`
    gives back the quaternion or its negation, and `quat_to_mat4` of that
    is the same matrix again.
- **The fly-through camera** (`camera.dfy`, module `Camera`). A class with
  the four fields of `struct Camera`.
  - `update_camera` moves the position by 0.1 along the sum of the W/S/A/D
    directions. The sum is normalised only when its length is positive. The
    zero sum is kept as it is, because normalising it would divide by 0.
  - It turns the orientation by a yaw and a pitch taken from the mouse offset
    from the window centre.
  - It renormalises the orientation and recomputes the view matrix.

`sqrt`, `sin` and `cos` are the uninterpreted fields of a `Libm` value that
callers pass in. Lemmas that need `sqrt` to be correct say so with
`SqrtSound(lib)`, or name the exact values they need.

Float division `a / b` is `Quot`: exact when `b != 0`, and an unspecified
value `lib.overZero(a)` otherwise (the source's inf/NaN). That way no
division needs a precondition the C code does not have.

`base` in `MemoryArena` is a `u64 *`. So `base + used` is pointer
arithmetic in units of eight bytes, while `used` and `size` count bytes. The
model keeps this as written: a push returns `U64Ptr(base, used)`, and
`ByteAddress` of that pointer is `base + 8 * used`. In `Memory.Scenario`
the second push of 40 therefore designates byte `base + 320`, not
`base + 40`. That is past the arena's 100 bytes.

Likewise the loader's index buffer has `3 * num_vertices` entries holding
`0 .. 3n-1`, so every index from `n` on is at least the vertex count. A face
line whose scan reports 3 items passes the `items == 3 || items == 9`
assertion even though the active branch scans nine fields.

## Model

| member | source | states |
|---|---|---|
| Memory.Arena.AllocArena | src/memory.c:3-8 | size and base are the arguments, used is 0, and no span has been handed out |
| Memory.Arena.Push | src/memory.c:10-16 | requires used + n <= size (the assert); returns base advanced by the old used in u64 units; used grows by exactly n; size and base unchanged; the new span [old used, old used + n) is appended; keeps used <= size and the spans tiled |
| Memory.Arena.PushStruct | src/memory.h:10 | a push of sizeof(type) bytes, with the same guarantees as push_memory |
| Memory.Arena.PushArray | src/memory.h:11 | a push of count * sizeof(type) bytes, with the same guarantees as push_memory |
| Memory.ByteAddress | src/memory.h:6 | a u64 pointer base + i designates byte base + 8i |
| Memory.TiledDisjoint | src/memory.c:13-14 | spans laid end to end lie below used and are increasing and pairwise disjoint |
| Memory.TiledPush | src/memory.c:13-14 | appending [used, used + n) keeps the spans laid end to end, ending at used + n |
| Memory.PushesDisjoint | src/memory.c:12-14 | for any valid arena, every span handed out lies inside [0, used) with used <= size, and spans are increasing and disjoint |
| Memory.Scenario | src/memory.c:12-14 | on an arena of 100, pushes of 40 and 40 return offsets 0 and 40; the second designates byte base + 320, past the arena's bytes [base, base + 100); a third push of 40 would fail the assertion, with used still 80 |
| Platform.KeyPressEvent | src/platform.c:3-13 | type EVENT_KEY_PRESS, the given code and modifiers, pressed and the given repeat flag; every other field zero |
| Platform.KeyReleaseEvent | src/platform.c:15-25 | type EVENT_KEY_RELEASE, the given code and modifiers, not pressed and not repeated; every other field zero |
| Platform.MousePressEvent | src/platform.c:27-36 | type EVENT_MOUSE_PRESS, the given button pressed, the given position; every other field zero |
| Platform.MouseReleaseEvent | src/platform.c:38-47 | type EVENT_MOUSE_RELEASE, the given button released, the given position; every other field zero |
| Platform.MouseScrollEvent | src/platform.c:49-56 | type EVENT_MOUSE_SCROLL and the given wheel delta; every other field zero |
| Platform.MouseMoveEvent | src/platform.c:58-66 | type EVENT_MOUSE_MOVE, the given position and delta; every other field zero |
| Platform.ConstructedEventsQueueable | src/platform.c:3-66 | no constructed event has type EVENT_NONE, so each meets the queue's assertion |
| Platform.PressReleaseDiffer | src/platform.c:3-47 | a press and the matching release differ only in type and pressed flag |
| Platform.Enqueue | src/platform.c:76-77 | the queue gains the event at its end exactly when it has fewer than 1024 events, keeps its old contents, and never exceeds 1024 |
| Platform.EnqueueAllBounded | src/platform.c:76-77 | after any sequence of pushes the queue holds min(old + pushed, 1024) events, with the old ones first |
| Platform.EnqueueAll | src/platform.c:73-78 | the queue after pushing a sequence of events in order, one Enqueue each; EnqueueAllBounded states its length and that the old events stay first |
| Platform.Platform.PushEventToQueue | src/platform.c:73-78 | requires type != EVENT_NONE; below capacity the event goes to slot old event_count, the count grows by one, and every other slot is unchanged; when full nothing changes |
| Mesh.LineEnd | src/mesh.c:30-37 | the end of the line at pos: just past the first newline at or after pos, or the end of the stream |
| Mesh.NextLine | src/mesh.c:26-39 | the line read at pos and the position after it: no line at the end of the stream, else the characters up to the first newline plus '\0', or the unterminated rest; NextLineShape and LinesRoundTrip state its properties |
| Mesh.ReadLine | src/mesh.c:26-39 | the character loop returns the line and the next position that NextLine describes |
| Mesh.NextLineShape | src/mesh.c:26-39 | NULL exactly at the end of the stream; a returned line either ends in newline then '\0' over exactly the characters read, or is the unterminated rest of the stream without a newline |
| Mesh.UnterminatedLine | src/mesh.c:33-36 | dropping the added '\0' gives back the characters read |
| Mesh.LinesRoundTrip | src/mesh.c:26-39 | the lines read until NULL, with their '\0' removed, concatenate to the rest of the stream |
| Mesh.Classify | src/mesh.c:58-90 | which branch of the prefix chain a line takes: the first of "v ", "vt ", "vn " and "f " it starts with, or none; AttributeLinesAreNotPositions states the order matters |
| Mesh.ApplyLine | src/mesh.c:58-91 | one pass of the loop body: the branch's list grows by the scanned value, or the line's assertion fails; OtherLinesIgnored, AttributeLinesKeepPositions and FaceLineAppendsThree state its effect |
| Mesh.ParseLines | src/mesh.c:54-93 | the lines applied in order, stopping at the first failed assertion; ParseLinesAligned states the index lists stay aligned |
| Mesh.ParseObj | src/mesh.c:54-93 | the lists built from all lines of the stream; ReadObjLists is proved to compute it |
| Mesh.AttributeLinesAreNotPositions | src/mesh.c:58-72 | a "vt " or "vn " line is classified as a texcoord or normal line, never as a position |
| Mesh.OtherLinesIgnored | src/mesh.c:58-90 | a line matching none of the four prefixes leaves all six lists unchanged |
| Mesh.AttributeLinesKeepPositions | src/mesh.c:63-72 | a texcoord or normal line never changes the positions |
| Mesh.ZeroBased | src/mesh.c:86-88 | each converted face index is one less than the parsed one |
| Mesh.FaceLineAppendsThree | src/mesh.c:73-89 | an accepted face line appends exactly three entries to each index list, each one less than the parsed value, and changes nothing else |
| Mesh.ThreeItemFaceAccepted | src/mesh.c:84 | a face line whose scan reports 3 items passes the assertion |
| Mesh.ParseLinesAligned | src/mesh.c:54-93 | the three index lists keep the same length through the whole load |
| Mesh.DispatchLine | src/mesh.c:58-91 | the prefix dispatch of one line returns what ApplyLine describes, including the failed assertions |
| Mesh.ReadObjLists | src/mesh.c:54-93 | the read-and-dispatch loop returns the lists of ParseObj, or the first failed assertion |
| Mesh.Flattened | src/mesh.c:96-112 | the de-indexed mesh: vertex i reads the attributes named by the i-th index triple, and the index buffer is 0 .. 3n-1; BuildMesh is proved to compute it |
| Mesh.BuildMesh | src/mesh.c:96-112 | num_vertices is the number of position indices and num_indices is 3 * num_vertices; vertex i is (positions[pi[i]], texcoords[ti[i]], normals[ni[i]]); indices[j] == j |
| Mesh.IndicesExceedVertexCount | src/mesh.c:97-112 | for a non-empty mesh the last index is 3n-1, and every index from n on is at least the vertex count |
| Mesh.LoadMeshFromFile | src/mesh.c:41-112 | the load succeeds exactly when every line's assertion holds, reports the first failing line otherwise, and on success returns the flattened mesh |
| Maths.TruncDiv | src/camera.c:76-77 | C integer division by a positive divisor: for a >= 0 the quotient is the floor (r * b <= a < r * b + b), for a < 0 the ceiling (r * b - b < a <= r * b), so it truncates toward zero and has the sign of the dividend |
| Maths.QuotExact | src/maths.h:41 | division by a non-zero divisor is exact |
| Maths.ToRadians | src/maths.h:8 | degrees * (PI / 180), stated as r * 180 == degrees * PI |
| Maths.Add | src/maths.h:33 | vec3_add, the component-wise sum; SubAddCancel, ZeroVector and MulFloatDistributes state its laws |
| Maths.Sub | src/maths.h:34 | vec3_sub, the component-wise difference; SubAddCancel states it undoes vec3_add |
| Maths.MulFloat | src/maths.h:36 | vec3_mul_float, every component times f; ZeroVector, MulFloatDistributes and LengthSqMulFloat state its laws |
| Maths.Neg | src/camera.c:36 | the negated position of update_camera_view; NegIsMulFloat states it is scaling by -1 |
| Maths.Dot | src/maths.h:43 | vec3_dot; DotSymmetric and LengthSqIsSelfDot state its laws |
| Maths.Cross | src/maths.h:44-48 | vec3_cross; CrossAntiCommutative, CrossOrthogonal and CrossLinear state its laws |
| Maths.LengthSq | src/maths.h:39 | vec3_length_sq, the sum of the squared components; LengthSqIsSelfDot and LengthSqPositive state it is non-negative and zero only at the zero vector |
| Maths.Length | src/maths.h:40 | vec3_length, sqrt of the squared length; LengthZeroIff states it is 0 exactly at the zero vector under a correct sqrt |
| Maths.Norm | src/maths.h:41 | vec3_norm, v scaled by 1 / length; at length 0 an unspecified value (the source's NaN); NormOf and NormIsUnit state its results |
| Maths.SubAddCancel | src/maths.h:33-34 | vec3_sub(vec3_add(a, b), b) == a |
| Maths.DotSymmetric | src/maths.h:43 | the dot product is symmetric |
| Maths.LengthSqIsSelfDot | src/maths.h:39-43 | vec3_length_sq(v) == vec3_dot(v, v) >= 0 |
| Maths.CrossAntiCommutative | src/maths.h:44-48 | cross(a, b) == -cross(b, a) |
| Maths.CrossOrthogonal | src/maths.h:43-48 | cross(a, b) is orthogonal to both a and b |
| Maths.ZeroVector | src/maths.h:33-36 | v * 0 is the zero vector, and the zero vector is neutral for vec3_add |
| Maths.MulFloatDistributes | src/maths.h:33-36 | scaling distributes over addition |
| Maths.CrossLinear | src/maths.h:44-48 | the cross product is additive and homogeneous in its second argument |
| Maths.NegIsMulFloat | src/maths.h:36 | negation is scaling by -1 |
| Maths.LengthSqMulFloat | src/maths.h:36-39 | length_sq(v * f) == f * f * length_sq(v) |
| Maths.LengthSqPositive | src/maths.h:39 | a vector other than the zero vector has positive squared length |
| Maths.SqrtOfSquare | src/maths.h:40 | a correct sqrt of a * a is a, for a >= 0 |
| Maths.SqrtZero | src/maths.h:40 | a correct sqrt of 0 is 0 |
| Maths.LengthZeroIff | src/maths.h:39-40 | with a correct sqrt, vec3_length(v) == 0 exactly when v is the zero vector, in both directions |
| Maths.NormOf | src/maths.h:40-41 | a vector whose length is l != 0 is normalised by scaling with 1 / l |
| Maths.NormIsUnit | src/maths.h:39-41 | with a correct sqrt, every vector other than the zero vector has positive length and normalises to unit squared length |
| Maths.QuatMulFloat | src/maths.h:91 | quat_mul_float, every component times f; QuatLengthSqMulFloat and QuatMulFloatLeft state its laws |
| Maths.QuatLengthSq | src/maths.h:94 | quat_length_sq, the sum of the four squares; QuatLengthSqNonNegative and QuatLengthSqMul state its laws |
| Maths.QuatLength | src/maths.h:95 | quat_length, sqrt of the squared length |
| Maths.QuatNorm | src/maths.h:96 | quat_norm, q scaled by 1 / length; at length 0 an unspecified value; QuatNormIsUnit states its result |
| Maths.QuatLengthSqMulFloat | src/maths.h:91-94 | quat_length_sq(quat_mul_float(q, f)) == f * f * quat_length_sq(q) |
| Maths.QuatLengthSqNonNegative | src/maths.h:94 | the squared length of a quaternion is never negative |
| Maths.QuatNormIsUnit | src/maths.h:94-96 | with a correct sqrt, quat_norm of a non-zero quaternion is a unit quaternion |
| Maths.QuatMul | src/maths.c:147-157 | the Hamilton product; QuatMulIdentity and the QuatLaws lemmas state its laws |
| Maths.QuatMulVec3 | src/maths.c:159-163 | rotation of a vector by the two-cross-product formula; QuatMulVec3Parts, QuatMulVec3Linear and QuatMulVec3Identity state its laws |
| Maths.QuatConjugate | src/maths.c:165-175 | quat_conjugate; QuatConjugateInvolution and QuatConjugateOfProduct state its laws |
| Maths.AngleAxis | src/maths.c:177-191 | the quaternion (n sin(angle / 2), cos(angle / 2)) with n the normalised axis; AngleAxisZero states that angle 0 gives the identity |
| Maths.QuatMulIdentity | src/maths.c:147-157 | (0, 0, 0, 1) is a two-sided identity of quat_mul |
| Maths.QuatConjugateInvolution | src/maths.c:165-175 | quat_conjugate negates x, y and z, keeps w, and undoes itself |
| Maths.QuatMulVec3Parts | src/maths.c:159-163 | quat_mul_vec3 is v + w t + axis x t, with t = 2 (axis x v) |
| Maths.TwistLinear | src/maths.c:159-161 | t = 2 (axis x v) is linear in v |
| Maths.QuatMulVec3Linear | src/maths.c:159-163 | quat_mul_vec3(q, .) is additive and homogeneous |
| Maths.QuatMulVec3Identity | src/maths.c:159-163 | the identity quaternion leaves every vector unchanged |
| Maths.AngleAxisZero | src/maths.c:177-191 | a turn by angle 0 is the identity quaternion, given sin 0 = 0 and cos 0 = 1 |
| Maths.Mat4 | src/maths.c:3-13 | f on the four diagonal entries and 0 everywhere else |
| Maths.SetEntry | src/maths.c:73-82 | one element replaced, all others unchanged |
| Maths.Product | src/maths.c:15-29 | entry [i][j] is the sum over k of a[k][j] * b[i][k] |
| Maths.Mat4Mul | src/maths.c:15-29 | the nested loops compute exactly the product |
| Maths.Mat4MulFloat | src/maths.c:31-39 | every one of the 16 elements is multiplied by f |
| Maths.Mat4IdentityNeutral | src/maths.c:3-29 | mat4(1) is a two-sided identity of mat4_mul |
| Maths.Translate | src/maths.c:73-82 | mat4_translate; TranslateLayout, TranslateColumns and TranslateCompose state its shape and composition |
| Maths.Scale | src/maths.c:109-118 | mat4_scale; ScaleLayout and ScaleCompose state its shape and composition |
| Maths.TranslateLayout | src/maths.c:73-82 | mat4_translate(t) is mat4(1) except elements[3][0..2] == t |
| Maths.TranslateColumns | src/maths.c:73-82 | mat4_translate(t) written out column by column |
| Maths.ScaleLayout | src/maths.c:109-118 | mat4_scale(s) is mat4(1) except the diagonal entries 0..2, which are s |
| Maths.TranslateCompose | src/maths.c:15-29 | two translations compose to the translation by the sum |
| Maths.ScaleCompose | src/maths.c:109-118 | two scalings compose to the scaling by the component-wise product |
| Maths.QuatToMat4 | src/maths.c:193-220 | the rotation matrix of a quaternion; QuatToMat4Identity and the QuatMatrix lemmas state its properties |
| Maths.QuatToMat4Identity | src/maths.c:193-220 | quat_to_mat4 of the identity quaternion is mat4(1) |
| Maths.LookAt | src/maths.c:120-145 | mat4_lookat built from the normalised forward and side axes; LookAtOfAxes states its layout |
| Maths.LookAtOfAxes | src/maths.c:120-145 | the look-at matrix holds the rows x, y, -z of the rotation and the eye projected onto them |
| Maths.Candidates | src/maths.c:230-233 | the four candidates of biggest_index, in the order w, x, y, z |
| Maths.FirstMaxUnique | src/maths.c:235-247 | the first greatest index is unique |
| Maths.FirstGreatest | src/maths.c:235-247 | the first index holding the greatest candidate |
| Maths.QuatFromBiggest | src/maths.c:252-280 | the selected component is biggest_value |
| Maths.Mat4ToQuat | src/maths.c:222-283 | the if-chain selects the first strictly greatest candidate (w wins ties) and returns QuatOfMatrix |
| Maths.QuatOfMatrixSelection | src/maths.c:235-276 | the component at the first greatest index is sqrt(candidate + 1) / 2 |
| QuatLaws.QuatConjugateOfProduct | src/maths.c:147-175 | conjugate(a b) == conjugate(b) conjugate(a) |
| QuatLaws.QuatMulAssociative | src/maths.c:147-157 | quat_mul is associative |
| QuatLaws.QuatMulConjugate | src/maths.c:147-175 | q conjugate(q) is the real quaternion quat_length_sq(q) |
| QuatLaws.QuatLengthSqMul | src/maths.c:147-157 | quat_length_sq(a b) == quat_length_sq(a) * quat_length_sq(b) |
| QuatLaws.QuatMulFloatLeft | src/maths.c:147-157 | a scale factor on the left operand moves out of the product |
| QuatLaws.QuatMulRealRight | src/maths.c:147-157 | multiplying by (0, 0, 0, k) on the right is scaling by k |
| QuatMatrix.RotationEntries | src/maths.c:193-220 | the nine rotation entries of quat_to_mat4 in terms of the quaternion's products |
| QuatMatrix.RotationBorder | src/maths.c:193-220 | the last row and column of quat_to_mat4 are those of mat4(1) |
| QuatMatrix.RotationCandidates | src/maths.c:230-233 | for a unit quaternion the four candidates are 4w^2 - 1, 4x^2 - 1, 4y^2 - 1 and 4z^2 - 1 |
| QuatMatrix.RotationOffDiagonal | src/maths.c:252-280 | the sums and differences of opposite off-diagonal entries that the switch reads are 4wx, 4wy, 4wz, 4xy, 4xz and 4yz |
| QuatMatrix.GreatestOfZeroSum | src/maths.c:235-247 | when four candidates sum to 0 the first greatest is not negative |
| QuatMatrix.SelectedCandidate | src/maths.c:230-247 | the selected candidate of a unit quaternion's matrix is 4s^2 - 1 >= 0, s the selected component |
| QuatMatrix.BiggestIsMagnitude | src/maths.c:249 | with a correct sqrt, biggest_value = sqrt(4s^2 - 1 + 1) * 0.5 is the magnitude of s, and it is positive |
| QuatMatrix.SelectedBiggest | src/maths.c:249-250 | with a correct sqrt, biggest_value is the non-zero magnitude of the selected component |
| QuatMatrix.SwitchOfRotation | src/maths.c:252-280 | each case of the switch, on entries of quat_to_mat4(q) with mult = 0.25 / biggest_value, gives q times the sign of the selected component |
| QuatMatrix.QuatOfEntries | src/maths.c:222-283 | once biggest_value is the magnitude of the selected component, mat4_to_quat returns q times that component's sign |
| QuatMatrix.MatrixToQuatOfRotation | src/maths.c:193-283 | with a correct sqrt, mat4_to_quat(quat_to_mat4(q)) of a unit quaternion q is q when the selected component is not negative and -q otherwise |
| QuatMatrix.RotationOfNegation | src/maths.c:193-220 | q and -q give the same matrix |
| QuatMatrix.SameProducts | src/maths.c:193-220 | two quaternions with the same nine products give the same matrix |
| QuatMatrix.RotationRoundTrip | src/maths.c:193-283 | with a correct sqrt, quat_to_mat4(mat4_to_quat(quat_to_mat4(q))) == quat_to_mat4(q) for every unit quaternion q |
| Camera.OppositeDirections | src/camera.c:3-31 | backward == -forward, left == -right and down == -up for every orientation |
| Camera.Forward | src/camera.c:3-6 | (0, 0, -1) rotated by the conjugate orientation; OppositeDirections states Backward is its negation |
| Camera.Backward | src/camera.c:8-11 | (0, 0, 1) rotated by the conjugate orientation; OppositeDirections states it is -Forward |
| Camera.Right | src/camera.c:13-16 | (1, 0, 0) rotated by the conjugate orientation; OppositeDirections states Left is its negation |
| Camera.Left | src/camera.c:18-21 | (-1, 0, 0) rotated by the conjugate orientation; OppositeDirections states it is -Right |
| Camera.Up | src/camera.c:23-26 | (0, 1, 0) rotated by the conjugate orientation; OppositeDirections states Down is its negation |
| Camera.Down | src/camera.c:28-31 | (0, -1, 0) rotated by the conjugate orientation; OppositeDirections states it is -Up |
| Camera.Direction | src/camera.c:57-68 | velocity_dir before the guard: the sum of the directions whose keys are held; AccumulateCancels states opposite keys cancel |
| Camera.AccumulateCancels | src/camera.c:60-68 | opposite directions pressed together sum to zero |
| Camera.NormalisedZero | src/camera.c:70-71 | the guarded normalisation keeps the zero vector, whatever sqrt returns |
| Camera.Normalised | src/camera.c:70-71 | the guard: normalise only a vector whose reported length is positive; GuardedNormalisation states what it passes |
| Camera.UnguardedZeroNorm | src/maths.h:39-41 | without the guard, vec3_norm of the zero vector under a correct sqrt is the unspecified result of a division by length 0 |
| Camera.GuardedNormalisation | src/camera.c:70-71 | with a correct sqrt the guard passes exactly the vectors other than zero, which it normalises to unit squared length; the zero vector has length 0 and is kept as it is |
| Camera.MoveDirection | src/camera.c:57-71 | velocity_dir after the guard |
| Camera.NextPosition | src/camera.c:57-73 | the position after a 0.1 step along the guarded direction; PositionStep states the step |
| Camera.CancellingKeysKeepPosition | src/camera.c:60-73 | with W and S in the same state and A and D in the same state, the summed direction is zero, the guard passes it on unnormalised, and the position does not change |
| Camera.CancelledDirectionFailsGuard | src/camera.c:60-71 | with a correct sqrt the cancelled direction has length 0, so the guard's test vec3_length(velocity_dir) > 0 fails |
| Camera.NoKeysKeepPosition | src/camera.c:57-73 | with no movement key pressed the direction is zero, it is used unnormalised, and the position does not change |
| Camera.PositionStep | src/camera.c:58-73 | the position moves by exactly 0.1 times the guarded direction; with a correct sqrt and a non-zero sum the step has squared length 0.1 * 0.1 |
| Camera.MouseDelta | src/camera.c:75-77 | the mouse offset from the window centre, the halves taken by C integer division (TruncDiv) |
| Camera.Yaw | src/camera.c:79 | a turn about the world up axis (0, 1, 0) by the angle 0.005 * to_radians(delta.x) |
| Camera.Pitch | src/camera.c:80 | a turn about the camera's right axis by the angle 0.005 * to_radians(delta.y) |
| Camera.NextOrientation | src/camera.c:79-85 | the orientation after a frame: quat_norm(orientation * (yaw * pitch)); OrientationOrder, OrientationIsUnit and CentredMouseKeepsOrientation state its properties |
| Camera.OrientationOrder | src/camera.c:79-85 | the new orientation is quat_norm(orientation * (yaw * pitch)), which equals quat_norm((orientation * yaw) * pitch) |
| Camera.OrientationIsUnit | src/camera.c:79-85 | with a correct sqrt and non-zero old orientation, yaw and pitch, the new orientation is a unit quaternion |
| Camera.CentredMouseKeepsOrientation | src/camera.c:75-85 | a mouse at the window centre (integer halves) does not turn the camera: yaw and pitch are the identity and the orientation is only renormalised |
| Camera.IdentityView | src/camera.c:33-38 | at the identity orientation the view matrix is the translation by -position |
| Camera.ViewOf | src/camera.c:33-38 | the view matrix quat_to_mat4(orientation) * mat4_translate(-position); IdentityView and InitialState state it at the identity orientation |
| Camera.InitialAxes | src/camera.c:45-47 | the look-at from (0, 0, 5) to the origin has forward (0, 0, -1) and right (1, 0, 0) |
| Camera.InitialFrame | src/camera.c:45-47 | the initial axes form a right-handed frame with the eye on the view axis |
| Camera.InitialLookAtColumns | src/camera.c:47 | the initial look-at matrix, column by column |
| Camera.InitialLookAt | src/camera.c:47 | the initial look-at matrix is the translation by -(0, 0, 5) |
| Camera.TranslationCandidates | src/maths.c:230-247 | for a pure translation the w candidate, 3, is the first greatest |
| Camera.QuatOfTranslation | src/camera.c:48 | mat4_to_quat of a pure translation is the identity quaternion |
| Camera.InitialState | src/camera.c:40-53 | init_camera's orientation is the identity and its view matrix the translation by -(0, 0, 5) |
| Camera.Camera.UpdateView | src/camera.c:33-38 | the view matrix becomes quat_to_mat4(orientation) * mat4_translate(-position); nothing else changes |
| Camera.Camera.Store | src/camera.c:73-87 | position, orientation and view matrix take the given values; the projection is untouched |
| Camera.Camera.Update | src/camera.c:55-88 | position and orientation become NextPosition and NextOrientation of the old state, the view matrix is recomputed from them, and the projection is never modified |
| Camera.ViewMatrix | src/camera.c:33-38 | computes the view matrix of an orientation and a position |
| Camera.MovedPosition | src/camera.c:57-73 | the key-by-key accumulation, guarded normalisation and 0.1 step compute NextPosition |
| Camera.TurnedOrientation | src/camera.c:75-85 | the mouse delta, yaw, pitch, product and renormalisation compute NextOrientation |
| Camera.InitCamera | src/camera.c:40-53 | pushes sizeof(Camera) on the arena, recording the span [old used, old used + sizeof(Camera)); stores the projection; position (0, 0, 5); orientation mat4_to_quat of the look-at; view matrix recomputed from them |

## Left out

- File input: `fopen`, `fgetc` and `fclose` in `src/mesh.c` are replaced by a `seq<char>` stream and a position in it. `read_file` in `src/utils.c` is not part of this model.
- `sscanf`: the numbers on OBJ lines and each call's item count come from a `Scanner` parameter. Fields that `sscanf` did not fill are whatever the scanner reports, where the C code would read uninitialised locals.
- Floating point: every `f32` is an exact `real`. Rounding, NaN and infinity are not modelled. A float division by zero gives the unspecified value `lib.overZero(a)`.
- `sqrt`, `sin` and `cos` are uninterpreted. No property of `tan` is needed.
- `mat4_perspective` (`tan`), `mat4_ortho` (plain arithmetic) and `mat4_rotate` (`sin`, `cos`, and `sqrt` through `vec3_norm`) are not modelled. Nothing in this core calls them.
- `window_resize_event` (`src/platform.c:68-71`) has an empty body.
- `upload_mesh` and the GL, WGL and Win32 code: OpenGL and window-system calls only.
- The arena pushes of `load_mesh_from_file` (`push_struct(arena, Mesh)` at `src/mesh.c:95` and the two `push_array` calls at `src/mesh.c:114-115`) and its `memcpy` calls (`src/mesh.c:117-118`) are not modelled. `LoadMeshFromFile` returns the mesh data by value instead of copying it into arena memory.
- Integer widths: `usize`, `u32` and `s32` are unbounded. A `used + size` that wraps around, or an index count beyond 2^32, is not modelled.
- `b32` flags are `bool`.
- `update_camera` reads `platform->keys[...]` and `platform->mouse_position` (`src/camera.c:55-77`). `src/camera.h:13` declares a different signature, and `struct Platform` has neither field. The model takes the inputs as a `CameraInput`: four key flags, the mouse position, and the window's integer width and height.
- `strncmp` on a line shorter than its prefix stops at the line's `'\0'`, or, on an unterminated last line, at its end, and reports a mismatch. The model reads that as "no match".
- Out-of-range face indices are undefined behaviour in C, since nothing checks them. `BuildMesh` and `LoadMeshFromFile` require them to be in range.
- `update_camera` is split into `MovedPosition`, `TurnedOrientation` and `ViewMatrix`, and their results are written by one `Store`. In C the position is stored before the turn is computed. The stored values are the same, because the turn reads only the orientation, which the move does not change.
- Camera.OrientationIsUnit: requires the old orientation and both turns to be non-zero. An uninterpreted sin and cos can produce a zero turn.
- Camera.InitialState, Camera.InitialLookAt, Camera.InitialLookAtColumns, Camera.InitialAxes and Camera.QuatOfTranslation: hold given that sqrt is exact at 25, 4 and 1 (just the values each needs), not for an arbitrary sqrt.
- Camera.InitCamera: states the orientation as mat4_to_quat of the look-at matrix. That it is the identity is the separate lemma Camera.InitialState, which carries the sqrt assumptions.
- Camera.InitCamera: the `Camera` object is a fresh Dafny object, not storage at the address `push_struct` returns. The model records the push in the arena but does not tie the camera's fields to those bytes.
- Maths.QuatOfMatrix: when `biggest_value` is 0, `mult = 0.25 / biggest_value` is the unspecified `lib.overZero(0.25)`, not infinity. No matrix of a unit quaternion reaches that case under a correct sqrt (`QuatMatrix.SelectedBiggest`).
