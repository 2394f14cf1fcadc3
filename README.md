# SimpleSoftRenderer, modelled in Dafny

SimpleSoftRenderer is a CPU renderer written in C++. Two generations of it live in one repository:

- The current engine (`Core/`) has two pipelines:
  - a rasterizer with colour and depth buffers and a per-triangle edge-function scan;
  - a progressive path tracer. It accumulates one sample per pixel per frame and shows the running mean.

  A `Renderer` forwards window resizes to both pipelines and picks one of them by mode. A `Camera` caches the viewport size, the projection, the view and a table of per-pixel ray directions. Models are imported from Assimp scenes, and their textures are decoded by stb.
- The older Eigen engine (`src/`) has a flipped-row frame buffer, a rasterizer with incremental edge functions and an early row exit, an orbiting `SurroundCamera`, its own model loader and a command-line parser, `ArgParser`.

This project models that logic in Dafny and proves what it promises:

- the parser's registration and four-pass parse;
- the buffers, the scans and the depth tests of both rasterizers;
- the tracer's frame counter, accumulation, nearest-hit search and bounce loop;
- the texture lookups;
- the camera state;
- both model loaders: channel expansion, directory extraction, pre-order mesh collection, face flattening and the texture cache.

How the C++ is represented:

- Floats are `real`. A float-to-integer cast is truncation toward zero (`LinAlg.Trunc`).
- `normalize`, `sqrt`, `pow`, trigonometry, `lookAt`, `perspectiveFov`, `inverse` and quaternion rotation are arbitrary functions. They are passed in as fields of a record (`LinAlg.MathLib`, `Cameras.CameraMath`, `OrbitCamera.OrbitMath`).
- Classes whose fields the C++ updates in place are Dafny classes. Their methods are proved against pure specification functions.
- Each `std::exit(-1)` of the parser becomes an error value.
- The importer's scene, the decoder's bytes and the random bounce directions are inputs.

Modules follow the source files:

- `ArgSpec`, `ArgParsing`, `ArgFacts`: `src/ArgParser.hpp`
- `Meshes`: `Core/mesh.h`
- `Utils`: `Core/utils.hpp`
- `Geometry`: `Core/geometry.h`
- `Scenes`: `Core/scene.h` and the model matrix shared by both `Core` pipelines
- `Cameras`: `Core/camera.cpp`
- `RasterShaders`: `Core/Rasterizer/shader.h`
- `Rasterization`: `Core/Rasterizer/rasterizer.cpp`
- `Tracing`: `Core/Tracer/tracer.cpp`
- `Rendering`: `Core/renderer.cpp`
- `Images`: the image object the pipelines publish to
- `Importer`, `TextureCache`, `ModelImport`: `Core/model.cpp`
- `LegacyModels`: `src/Model.cpp`
- `LegacyBuffers`: `src/Renderer.h`, `src/FrameBuf.cpp`
- `LegacyShaders`: `src/Shader.cpp`
- `LegacyRendering`: `src/Renderer.cpp`
- `OrbitCamera`: `src/SurroundCamera.cpp`

`LinAlg`, `Grid` and `Wrappers` hold the shared vectors, matrices, index arithmetic and `Option`/`Result`.

## Model

| member | source | states |
|---|---|---|
| ArgSpec.InitialVisit | src/ArgParser.hpp:319-320 | The marker vector has one entry per token; only token 0, the program name, starts out visited. |
| ArgSpec.NamePairs | src/ArgParser.hpp:104-128 | The (short, long) pairs are checked in the order the uniqueness loops visit them: short-circuit options first, then ordinary options. |
| ArgSpec.CollisionFrom | src/ArgParser.hpp:104-128 | The existence check can only fail with "short name taken" or "long name taken". |
| ArgSpec.ArgumentNames | src/ArgParser.hpp:131-146 | The names an argument must differ from: every positional argument's, then every named argument's. |
| ArgSpec.FirstFrom | src/ArgParser.hpp:104-128 | The first-match search returns the first index whose element satisfies the test, and None only when no element does. |
| ArgSpec.ScTokenMatch | src/ArgParser.hpp:148-172 | A fired short-circuit option is a registered one. |
| ArgSpec.ScFireFrom | src/ArgParser.hpp:148-172 | The short-circuit pass reports only registered options. |
| ArgSpec.LongFrom | src/ArgParser.hpp:177-197 | A long token changes option values only, never names or types, and only ever marks tokens visited. |
| ArgSpec.ShortFrom | src/ArgParser.hpp:198-236 | A single-dash token changes option values only and only ever marks tokens visited. |
| ArgSpec.OptionToken | src/ArgParser.hpp:174-239 | One token of the option pass keeps the option declarations and only adds visited marks. |
| ArgSpec.OptionsFrom | src/ArgParser.hpp:174-239 | The whole option pass keeps the option declarations and only adds visited marks. |
| ArgSpec.AssignNamed | src/ArgParser.hpp:249-256 | Every named argument called `name` receives the value; all others keep theirs, and no declaration changes. |
| ArgSpec.NamedToken | src/ArgParser.hpp:241-268 | One `name=value` token keeps the declarations and only adds visited marks. |
| ArgSpec.NamedFrom | src/ArgParser.hpp:241-268 | The named-argument pass keeps the declarations and only adds visited marks. |
| ArgSpec.NextUnvisited | src/ArgParser.hpp:273 | The corrected scan stops at the first unvisited token at or after the cursor, or at the end; every token it skips is visited. |
| ArgSpec.PositionalFrom | src/ArgParser.hpp:270-282 | The positional pass keeps the declarations and only adds visited marks. |
| ArgSpec.RunPasses | src/ArgParser.hpp:318-324 | When the four passes run through, the marker vector still covers every token and keeps token 0 visited. |
| ArgSpec.Lowered | src/ArgParser.hpp:58-74 | Lower-casing keeps the length and maps every character. |
| ArgSpec.Uppered | src/ArgParser.hpp:58-74 | Upper-casing keeps the length and maps every character. |
| ArgParsing.FindFirst | src/ArgParser.hpp:348-373 | The early-return loop finds the first element satisfying the test. |
| ArgParsing.FindNameClash | src/ArgParser.hpp:104-128 | The two existence loops report what the specification of the uniqueness check reports. |
| ArgParsing.ArgParser.constructor | src/ArgParser.hpp:285 | A new parser has no declarations and satisfies the registration invariant. |
| ArgParsing.ArgParser.CheckOptionName | src/ArgParser.hpp:83-129 | The error is the format error if there is one, else the first name clash. |
| ArgParsing.ArgParser.CheckArgumentName | src/ArgParser.hpp:131-146 | The error is the first clash with a positional or named argument. |
| ArgParsing.ArgParser.AddOption | src/ArgParser.hpp:287-296 | An option is appended exactly when its names are accepted, with its description, type and default text. Otherwise nothing changes. The invariant is kept. |
| ArgParsing.ArgParser.AddFlag | src/ArgParser.hpp:298-301 | A flag is an option of type bool with value "0", appended exactly when its names are accepted. |
| ArgParsing.ArgParser.AddScOption | src/ArgParser.hpp:303-306 | A short-circuit option is appended exactly when its names are accepted. |
| ArgParsing.ArgParser.AddArgument | src/ArgParser.hpp:308-311 | A positional argument with an empty value is appended exactly when its name is unused. |
| ArgParsing.ArgParser.AddNamedArgument | src/ArgParser.hpp:313-316 | A named argument with an empty value is appended exactly when its name is unused. |
| ArgParsing.ArgParser.ParseScOptions | src/ArgParser.hpp:148-172 | The loops fire the option the short-circuit specification picks. |
| ArgParsing.ArgParser.ParseLongToken | src/ArgParser.hpp:177-197 | The in-place loop over options writes the values and marks its specification computes, or fails with its error. Nothing else changes. |
| ArgParsing.ArgParser.ParseShortToken | src/ArgParser.hpp:198-236 | The loop over the letters of a token matches the specification, error for error. |
| ArgParsing.ArgParser.ParseOptions | src/ArgParser.hpp:174-239 | The option pass in place agrees with `OptionsFrom`, on success and on failure. |
| ArgParsing.ArgParser.AssignNamedArgument | src/ArgParser.hpp:249-256 | Every named argument with that name gets the value. The result says whether one exists. |
| ArgParsing.ArgParser.ParseNamedArguments | src/ArgParser.hpp:241-268 | The named pass in place agrees with `NamedFrom`, on success and on failure. |
| ArgParsing.ArgParser.ParseArguments | src/ArgParser.hpp:270-282 | The positional pass in place agrees with `PositionalFrom`. The scan tests its bound first. |
| ArgParsing.ArgParser.Parse | src/ArgParser.hpp:318-346 | `parse` returns the status of the four passes followed by the excess and missing checks. On success the declarations are the passes' result and stay registered. |
| ArgParsing.ArgParser.GetOption | src/ArgParser.hpp:348-357 | The raw value of the first option with that short or long name, or an error. |
| ArgParsing.ArgParser.GetFlag | src/ArgParser.hpp:348-357 | `get_option<bool>`: the lookup's error, or `cast_string<bool>` of the value. |
| ArgParsing.ArgParser.GetArgument | src/ArgParser.hpp:359-373 | The value of the first named argument with that name, else of the first positional one, else an error. |
| ArgFacts.OptionNameAccepted | src/ArgParser.hpp:83-129 | A name pair is accepted if and only if all of these hold: not both names are empty; each non-empty name is well formed; and neither name equals a registered name literally. So two options with empty short names collide. |
| ArgFacts.CollisionFromNone | src/ArgParser.hpp:104-128 | The existence check passes if and only if no later entry shares either name. |
| ArgFacts.InsertKeepsDistinct | src/ArgParser.hpp:104-128 | A pair clashing with no entry keeps the pairs distinct wherever it is inserted. |
| ArgFacts.InsertKeepsDistinctNames | src/ArgParser.hpp:131-146 | A fresh name keeps argument names distinct. |
| ArgFacts.InsertKeepsWellFormed | src/ArgParser.hpp:84-103 | A well-formed pair keeps all pairs well formed. |
| ArgFacts.AddOptionKeepsRegistered | src/ArgParser.hpp:287-301 | Appending an accepted option keeps names well formed and unique. |
| ArgFacts.NamePairsAfterScOption | src/ArgParser.hpp:104-128 | A new short-circuit option's names go between the old short-circuit options and the ordinary options. |
| ArgFacts.AddScOptionKeepsRegistered | src/ArgParser.hpp:303-306 | Appending an accepted short-circuit option keeps the invariant. |
| ArgFacts.AddArgumentKeepsRegistered | src/ArgParser.hpp:308-316 | Appending an accepted positional or named argument keeps the invariant. |
| ArgFacts.LongNamesDistinct | src/ArgParser.hpp:104-128 | Registered long names are pairwise different. |
| ArgFacts.DoubleDashNeverShortCircuits | src/ArgParser.hpp:98 | The long branch of the short-circuit pass compares with "--", which never equals a registered long name (those are empty or at least 3 characters). |
| ArgFacts.ScFireCondition | src/ArgParser.hpp:148-172 | A short-circuit option fires if and only if some unvisited token is "-c", where c is not '-' and ends that option's short name. |
| ArgFacts.LongFromSkips | src/ArgParser.hpp:177-197 | Options whose long name differs from the token are passed over. |
| ArgFacts.LongTokenSetsOption | src/ArgParser.hpp:177-197 | A matched bool option gets "1". A valued option takes the next token, which must exist and must not start with '-'. Both tokens become visited. |
| ArgFacts.ShortMatchIgnoresValues | src/ArgParser.hpp:201-204 | The letter search depends on short names only. |
| ArgFacts.SetValueKeepsShortMatch | src/ArgParser.hpp:201-204 | Writing a value leaves every letter search as it was. |
| ArgFacts.ShortTokenLetters | src/ArgParser.hpp:198-236 | A single-dash token parses only when every letter ends some short name, and in a token longer than 2 every letter must name a flag. |
| ArgFacts.MissingValueBeforeAggregation | src/ArgParser.hpp:198-236 | A valued letter without a following value fails as "missing value" before the length of the token is checked. |
| ArgFacts.NamedTokenSplitsAtFirstEquals | src/ArgParser.hpp:241-268 | A token whose first '=' is at j: if the name before j is declared, that argument receives the text after j and the token becomes visited. Otherwise parsing fails. |
| ArgFacts.Unvisited | src/ArgParser.hpp:270-282 | The unvisited tokens from a position on, in increasing order. |
| ArgFacts.NextIsFirstUnvisited | src/ArgParser.hpp:273 | The scan lands on the first unvisited token. |
| ArgFacts.UnvisitedAfterMark | src/ArgParser.hpp:276-277 | Marking the token just taken leaves the later unvisited tokens as they were. |
| ArgFacts.PositionalsTakeUnvisitedInOrder | src/ArgParser.hpp:270-282 | The m-th positional argument receives the m-th unvisited token. Arguments beyond the unvisited tokens keep their values. |
| ArgFacts.ScanAsWrittenReadsPastEnd | src/ArgParser.hpp:273 | The scan as written agrees with the corrected scan while an unvisited token remains. Otherwise it reads `visit[argc]`. |
| ArgFacts.ProgramNameAloneReadsPastEnd | src/ArgParser.hpp:273 | A command line holding only the program name makes the scan as written read `visit[1]` of a one-element vector. |
| ArgFacts.ParsedMeansComplete | src/ArgParser.hpp:325-345 | A successful parse consumed every token and left no named or positional argument empty. |
| ArgFacts.SameShapeKeepsRegistered | src/ArgParser.hpp:318-346 | Changing values only keeps the registration invariant. |
| ArgFacts.ParseKeepsRegistered | src/ArgParser.hpp:318-346 | `parse` writes values only, so the declarations stay registered. |
| ArgFacts.OptionFoundByEitherName | src/ArgParser.hpp:348-357 | A registered option is found by either of its non-empty names. |
| ArgFacts.PositionalFoundByName | src/ArgParser.hpp:359-373 | A positional argument is found by name, although named arguments are searched first. |
| ArgFacts.NamedFoundByName | src/ArgParser.hpp:359-373 | A named argument is found by its name. |
| ArgFacts.CastBoolIgnoresCase | src/ArgParser.hpp:58-74 | `cast_string<bool>` gives the same result for any upper- or lower-casing of its text. |
| ArgFacts.CastBoolSpellings | src/ArgParser.hpp:58-74 | "TRUE", "True" and "1" give true; "FALSE" and "0" give false; "yes", "" and "01" are errors. |
| Meshes.WrapInUnit | Core/mesh.h:24-35 | Both wrap loops together move a coordinate by a whole number into [0, 1]. A coordinate already in [0, 1] is kept. |
| Meshes.WrapUpSpec | Core/mesh.h:24-26 | The rising loop moves a coordinate by whole steps to at least 0; one already at least 0 is kept, and a negative one ends below 1. |
| Meshes.WrapDownSpec | Core/mesh.h:27-29 | From at least 0, the falling loop moves a coordinate by whole steps into [0, 1]; one at most 1 is kept, and one above 1 ends above 0. |
| Meshes.WrapClosedForm | Core/mesh.h:24-35 | A wrapped coordinate is its fractional part, except that whole numbers go to 0 when they are at most 0 and to 1 when positive. |
| Meshes.WrapPeriodic | Core/mesh.h:24-35 | A coordinate in (0, 1) and the same plus one wrap alike. |
| Meshes.ClampInt | Core/mesh.h:36 | The clamp lands in [lo, hi] and keeps values already there. |
| Meshes.TexelInTable | Core/mesh.h:36 | Wrapped coordinates select a column below the width and a row below the height. |
| Meshes.ClampedIndex | Core/mesh.h:36-37 | The clamped index is always inside the texel table, and it splits into the selected column and row. |
| Meshes.TexelIndex | Core/mesh.h:36 | The index read for (u, v) lies in [0, width * height). Its column is trunc((width - 1) * u) and its row is trunc(v * (height - 1)), on wrapped u and v. |
| Meshes.GetValue | Core/mesh.h:17-38 | The wrap loops and the clamped read return the texel at that index. |
| Meshes.SamplePeriodic | Core/mesh.h:24-36 | Adding one to a coordinate in (0, 1) samples the same texel, in u and in v. |
| Meshes.EdgeColumnsDiffer | Core/mesh.h:24-36 | u = 1 reads the last column and u = 0 the first, so they differ when the width exceeds 1. |
| Meshes.EmissionZero | Core/mesh.h:42-62 | The emission is zero exactly when the power or the colour is zero, so the default material (power 0) emits nothing. |
| Utils.ChannelWordByte | Core/utils.hpp:7-10 | A channel in [0, 1] becomes the byte trunc(c * 255). |
| Utils.PackColorBytes | Core/utils.hpp:6-14 | For channels in [0, 1], shifting and masking the packed word recovers each channel's byte: r in the low byte, then g, b, a. |
| Utils.OrOfBytes | Core/utils.hpp:12-13 | OR-ing a << 24, b << 16, g << 8 and r, each below 256, leaves r, g, b and a as the four bytes of the word. |
| Utils.PackColorExtremes | Core/utils.hpp:6-14 | Opaque black packs to 0xFF000000 and opaque white to 0xFFFFFFFF. |
| Utils.UnitIsPackable | Core/utils.hpp:6-14 | A colour in [0, 1] packs without leaving the byte range. |
| Utils.LerpIsLerp3 | Core/utils.hpp:16-24 | The two-weight lerp is the three-weight lerp with gamma = 1 - alpha - beta. |
| Utils.Lerp3Corners | Core/utils.hpp:21-24 | Weights (1,0,0), (0,1,0) and (0,0,1) return x, y and z. |
| Utils.ScaleTranslateMaps | Core/utils.hpp:35-43 | The column-major matrix maps (p, 1) to (scale * p + translate, 1). |
| LinAlg.Trunc | Core/mesh.h:36 | A float-to-int cast truncates toward zero: at or above 0 it is the largest integer not above the value, below 0 the smallest integer not below it. |
| LinAlg.Clamp | Core/Rasterizer/shader.h:117 | `clamp` lands in [lo, hi] and keeps values already there. |
| LinAlg.ResizeSeq | Core/Rasterizer/rasterizer.cpp:21-22 | `vector::resize` leaves exactly n entries: the old ones below n, then the fill value. |
| LinAlg.Cramer | Core/Tracer/tracer.cpp:128-155 | With a non-zero determinant the three Cramer quotients recombine d, a and b into o: they solve the ray-triangle system. |
| Geometry.CubeVertices | Core/geometry.h:15-24 | There are eight distinct vertices, each coordinate ±0.1: all corners of the cube. |
| Geometry.CubeIndices | Core/geometry.h:25-38 | There are 36 indices (12 triangles), each naming one of the vertices. |
| Geometry.CubeUsesEveryVertex | Core/geometry.h:25-38 | Every vertex is used by some triangle. |
| Scenes.TriangleStarts | Core/Rasterizer/rasterizer.cpp:111-116 | The triangles start at 0, 3, 6, ... while i + 2 is an index: n / 3 of them, and a trailing partial triple is skipped. |
| Scenes.ModelTransformMaps | Core/Rasterizer/rasterizer.cpp:86-89 | `glm::scale` then `glm::translate` maps p to scale * (p + translate), unlike `calcScaleTranslateMat4`. |
| Scenes.ReadyMesh | Core/scene.h:1-16 | Every mesh of a drawable scene is drawable. |
| Cameras.ViewportMaps | Core/camera.cpp:100-108 | The viewport matrix maps (x, y, z, 1) to (x w/2 + w/2, y h/2 + h/2, z, 1): [-1, 1] onto [0, w] x [0, h]. |
| Cameras.NdcRange | Core/camera.cpp:124-125 | Pixel coordinates map into [-1, 1), and pixel 0 sits at -1: the table is built from pixel corners. |
| Cameras.RayTableAt | Core/camera.cpp:120-131 | The table has w * h entries, and pixel (x, y) is at x + y * w. |
| Cameras.NoKeyNoMove | Core/camera.cpp:38-61 | Without a movement key the position is unchanged. W moves forward by speed * ts. |
| Cameras.Camera.constructor | Core/camera.cpp:9-16 | The camera starts at (0, 0, 6) facing (0, 0, -1), with the view looking at (0, 0, 5), an empty ray table and a 0 x 0 viewport transform. |
| Cameras.Camera.CalculateViewportTransform | Core/camera.cpp:100-108 | The viewport matrix follows the stored size. |
| Cameras.Camera.CalculateProjection | Core/camera.cpp:110-113 | The projection and its inverse follow the field of view, the clip planes and the size. |
| Cameras.Camera.CalculateView | Core/camera.cpp:115-118 | The view and its inverse follow the pose. |
| Cameras.Camera.FillRow | Core/camera.cpp:122-130 | The inner loop fills one more row of the ray table. |
| Cameras.Camera.CalculateRayDirections | Core/camera.cpp:120-132 | After the nested loop the table is exactly the ray of every pixel, at x + y * w. |
| Cameras.Camera.OnResize | Core/camera.cpp:83-94 | The same size leaves the whole camera unchanged. A new size is stored, and the projection, the ray table and the viewport matrix are recomputed; the pose is kept. |
| Cameras.Camera.OnUpdate | Core/camera.cpp:18-81 | With the right button up only the mouse position changes, and the result is false. A reported move recomputes view, projection and rays together. |
| Cameras.Camera.MoveTo | Core/camera.cpp:74-78 | The moved branch stores the new pose and recomputes view, projection and ray table. |
| RasterShaders.BasicVertexShader.constructor | Core/Rasterizer/shader.h:32-42 | All three matrices start as the identity. |
| RasterShaders.BasicVertexShader.SetModel | Core/Rasterizer/shader.h:32 | Only the model matrix changes. |
| RasterShaders.BasicVertexShader.SetView | Core/Rasterizer/shader.h:36 | Only the view matrix changes. |
| RasterShaders.BasicVertexShader.SetProjection | Core/Rasterizer/shader.h:40 | Only the projection changes. |
| RasterShaders.BasicVertexShader.Vert | Core/Rasterizer/shader.h:44-52 | The clip position is projection · view · model · position, and the world position is model · position. Albedo, normal and texture coordinates pass through. |
| RasterShaders.ShadingNormalSelection | Core/Rasterizer/shader.h:80-106 | Without maps the interpolated normal is used. A normal map replaces it, and a displacement or bump map (displacement first) replaces both. |
| RasterShaders.FragColorInUnit | Core/Rasterizer/shader.h:117 | The output is clamped to [0, 1] with alpha 1. |
| RasterShaders.FragColorNoLights | Core/Rasterizer/shader.h:58-118 | With no lights only clamp(0.2 · ka) remains. |
| RasterShaders.FragIgnoresWorldPosition | Core/Rasterizer/shader.h:103-109 | The world position, and the displaced one, never affect the colour. The view direction is normalize(viewDir). |
| RasterShaders.AddLights | Core/Rasterizer/shader.h:111-116 | The loop adds one diffuse and one specular term per light, equal to the sum over the lights. |
| RasterShaders.Frag | Core/Rasterizer/shader.h:57-118 | `frag` computes its colour from the selected coefficients (first map sample or material scalar), the selected normal and the lights. |
| Rasterization.BoxInImage | Core/Rasterizer/rasterizer.cpp:29-47 | The clipped box keeps every visited index y * width + x inside the buffers. |
| Rasterization.PixelDepthIsMin | Core/Rasterizer/rasterizer.cpp:51-55 | Early-z then `min` keeps min(old, z) at a covered pixel and leaves other pixels alone. The colour changes only where the fragment is at least as near. |
| Rasterization.DrawTriangle | Core/Rasterizer/rasterizer.cpp:25-72 | Specifies one triangle; its contract keeps the buffer lengths, and `DrawTriangleAt` and `DrawTriangleFollows` state its effect. |
| Rasterization.DrawTriangleAt | Core/Rasterizer/rasterizer.cpp:39-68 | A pixel changes only if it is in the box and all three edge values are at least 0. It then takes the nearer depth, and the shaded colour when not farther. |
| Rasterization.DrawTriangleFollows | Core/Rasterizer/rasterizer.cpp:51-68 | The buffer lengths are kept, no depth increases, and a frame whose colours are in [0, 1] keeps them there. |
| Rasterization.DrawTrianglesFromFollows | Core/Rasterizer/rasterizer.cpp:111-116 | The primitive loop of one mesh keeps the buffer lengths and never raises a depth. |
| Rasterization.DrawTrianglesFromStarts | Core/Rasterizer/rasterizer.cpp:111-116 | The primitive loop draws the triangles starting at the indices `TriangleStartsFrom` lists (0, 3, 6, ... while i + 2 is an index), each once and in that order. |
| Rasterization.DrawMeshesFromFollows | Core/Rasterizer/rasterizer.cpp:91-117 | The mesh loop of one model keeps the buffer lengths and never raises a depth. |
| Rasterization.DrawModelsFromFollows | Core/Rasterizer/rasterizer.cpp:86-116 | Over a whole scene no depth entry ever increases. |
| Rasterization.RenderFrameBounds | Core/Rasterizer/rasterizer.cpp:74-121 | After `render` every colour lies in [0, 1] and no depth exceeds FLT_MAX. |
| Rasterization.EmptySceneIsClear | Core/Rasterizer/rasterizer.cpp:78-79 | A scene without models leaves the cleared frame: opaque black, packed as 0xFF000000. |
| Rasterization.PackedFrame | Core/Rasterizer/rasterizer.cpp:119-121 | One packed word per colour. |
| Rasterization.Rasterizer.constructor | Core/Rasterizer/rasterizer.h:1-35 | No image and empty buffers. |
| Rasterization.Rasterizer.Resize | Core/Rasterizer/rasterizer.cpp:7-23 | The same size changes nothing. Otherwise imageData and both buffers get width * height entries and the image takes the new size. |
| Rasterization.Rasterizer.ShadePixel | Core/Rasterizer/rasterizer.cpp:41-69 | One box pixel is updated at index y * width + x, and no other entry changes. |
| Rasterization.Rasterizer.Rasterize | Core/Rasterizer/rasterizer.cpp:25-72 | The nested scan leaves the buffers as `DrawTriangle` says. |
| Rasterization.Rasterizer.Render | Core/Rasterizer/rasterizer.cpp:74-123 | `render` clears the frame to (0,0,0,1) and FLT_MAX, draws every triangle of every mesh of every model, and publishes imageData[i] = pack(color[i]). |
| Rasterization.Rasterizer.Publish | Core/Rasterizer/rasterizer.cpp:119-122 | Every colour is packed into imageData and handed to the image. |
| Rasterization.Rasterizer.DrawModelOnce | Core/Rasterizer/rasterizer.cpp:86-91 | One model sets its S · T matrix and draws its meshes in order. |
| Rasterization.Rasterizer.DrawMeshOnce | Core/Rasterizer/rasterizer.cpp:91-117 | One mesh: its vertices through `vert`, then its complete index triples. |
| Tracing.RayTriangleHit | Core/Tracer/tracer.cpp:128-155 | A hit is reported exactly when det ≠ 0, t ≥ 0, alpha ∈ [0, 1] and beta ∈ [0, 1 - alpha]. The hit point is then the weighted corner point (Cramer's rule). |
| Tracing.Shade | Core/Tracer/tracer.cpp:81-102 | Without diffuse maps the albedo is the material's kd, and without normal maps the normal is the hit's world normal. |
| Tracing.HitsOf | Core/Tracer/tracer.cpp:169-171 | One test result per tested triangle. |
| Tracing.Fold | Core/Tracer/tracer.cpp:175-191 | The running minimum either finds nothing or names one of the tested triangles. |
| Tracing.Search | Core/Tracer/tracer.cpp:157-199 | A found triangle is a complete triple of an existing mesh of an existing model. |
| Tracing.TrianglesOf | Core/Tracer/tracer.cpp:169-171 | The first `count` triangles of a mesh, at index positions 0, 3, 6, ... |
| Tracing.CandidatesComplete | Core/Tracer/tracer.cpp:162-171 | Every complete index triple of every mesh of every model is tested. |
| Tracing.FoldIsNearest | Core/Tracer/tracer.cpp:175-186 | The running minimum is at most FLT_MAX and at most every hit's distance. |
| Tracing.FoldMisses | Core/Tracer/tracer.cpp:175-191 | Nothing is found exactly when no hit lies within FLT_MAX. |
| Tracing.FoldPicksLastNearest | Core/Tracer/tracer.cpp:175 | The found triangle carries its own distance and weights, and every later hit is strictly farther: ties go to the later triangle. |
| Tracing.SearchIsFold | Core/Tracer/tracer.cpp:157-199 | The scan over the triangles is the fold over their test results. |
| Tracing.Miss | Core/Tracer/tracer.cpp:213-219 | A miss has distance -1 and no model or mesh. |
| Tracing.TraceRay | Core/Tracer/tracer.cpp:157-199 | A reported hit names an existing model and mesh. |
| Tracing.TraceRayMisses | Core/Tracer/tracer.cpp:157-199 | `traceRay` misses exactly when no complete triple is hit within FLT_MAX, and it then returns `miss()`. |
| Tracing.TraceRayIsNearest | Core/Tracer/tracer.cpp:157-199 | A reported hit distance is at most every triangle's hit distance. |
| Tracing.TraceRayOnTriangle | Core/Tracer/tracer.cpp:157-211 | A reported hit lies on a tested triangle at that triangle's distance. Its world position is that triangle's point with the hit weights. |
| Tracing.DarkSceneBounce | Core/Tracer/tracer.cpp:104-126 | A scene that emits nothing under a black sky gathers no light, whatever the bounce directions. |
| Tracing.RadianceFirstBounce | Core/Tracer/tracer.cpp:104-126 | With no bounces the pixel is black. When the camera ray escapes, the pixel is the sky colour. Alpha is 1. |
| Tracing.Shown | Core/Tracer/tracer.cpp:62-66 | Whatever the accumulator holds, the shown colour (accumulator over frame index, clamped) lies in [0, 1]. |
| Tracing.ProgressiveMean | Core/Tracer/tracer.cpp:32-79 | With accumulation on, n frames after a reset the accumulator is the sum of the n samples and the frame index is n + 1, so the picture is their mean. |
| Tracing.NoAccumulationShowsLast | Core/Tracer/tracer.cpp:73-78 | With accumulation off each frame shows only its own sample. |
| Tracing.PixelSampleAt | Core/Tracer/tracer.cpp:58-66 | Entry x + y w is the sample of pixel (x, y). |
| Tracing.Iota | Core/Tracer/tracer.cpp:26-29 | `std::iota` gives 0, 1, ..., n - 1. |
| Tracing.TracerSettings.constructor | Core/Tracer/tracer.h:25-27 | Accumulation is off, and there are 2 bounces. |
| Tracing.Tracer.constructor | Core/Tracer/tracer.h:34-53 | Default settings, no image or buffers, frame index -1. |
| Tracing.Tracer.ResetFrame | Core/Tracer/tracer.cpp:221-223 | The frame index becomes 1. |
| Tracing.Tracer.Resize | Core/Tracer/tracer.cpp:8-30 | The same size changes nothing. Otherwise new buffers are allocated, the frame index becomes 1, and the image takes the new size. |
| Tracing.Tracer.ScanTriangle | Core/Tracer/tracer.cpp:169-186 | One more triangle extends the nearest-hit search by that triangle. |
| Tracing.Tracer.ScanMesh | Core/Tracer/tracer.cpp:167-187 | The triangle loop extends the search by every complete triple of the mesh. |
| Tracing.Tracer.ReportNearest | Core/Tracer/tracer.cpp:189-199 | A miss when nothing was found, otherwise `closestHit` on the found triangle. |
| Tracing.Tracer.TraceRayScan | Core/Tracer/tracer.cpp:157-199 | The nested loops compute `TraceRay`, the nearest hit. |
| Tracing.Tracer.BounceOnce | Core/Tracer/tracer.cpp:111-124 | One pass of the bounce loop: a miss adds the sky and stops; a hit adds the emission and scales the contribution by kd. |
| Tracing.Tracer.PerPixel | Core/Tracer/tracer.cpp:104-126 | The loop runs at most `bounceTimes` passes and returns the radiance of the bounce specification. |
| Tracing.Tracer.RenderPixel | Core/Tracer/tracer.cpp:60-65 | One pixel's sample is added to its accumulator, and its shown word is stored; no other entry changes. |
| Tracing.Tracer.AccumulatePixel | Core/Tracer/tracer.cpp:62-65 | accumulation[i] += color and image[i] = pack(clamp(accumulation[i] / frameIndex)). Other entries are unchanged. |
| Tracing.Tracer.RenderRow | Core/Tracer/tracer.cpp:58-66 | One row of pixels is accumulated and shown. |
| Tracing.Tracer.RenderRows | Core/Tracer/tracer.cpp:58-67 | Every pixel's sample is accumulated and shown. |
| Tracing.Tracer.Render | Core/Tracer/tracer.cpp:32-79 | The accumulator is zeroed on frame 1, and every pixel adds its sample and shows the packed mean. The frame index then advances with accumulation on, or becomes 1 without it. |
| Rendering.Renderer.constructor | Core/renderer.cpp:3-5 | The settings pointer is the tracer's own settings object. The mode is Rasterization. |
| Rendering.Renderer.Resize | Core/renderer.cpp:7-10 | Both pipelines get the same size. |
| Rendering.Renderer.Render | Core/renderer.cpp:12-21 | In Rasterization mode only the rasterizer draws, and its image is published. In RayTracing mode only the tracer draws. The other pipeline is untouched. |
| Rendering.Renderer.ResetTracerFrame | Core/renderer.cpp:23-25 | Only the tracer's frame index changes, to 1. |
| Images.Image.constructor | Appframe/image.cpp:246-252 | The image records its size and holds no pixels yet. |
| Images.Image.Resize | Appframe/image.cpp:258-268 | A new size drops the published pixels, and the same size keeps them. |
| Images.Image.SetData | Appframe/image.cpp:115-203 | The published pixels are the given words. |
| Importer.FlattenTriangles | Core/model.cpp:101-107 | With triangular faces the index list holds face f's indices at 3f to 3f + 2, each naming a vertex. |
| Importer.PreOrderHasChild | Core/model.cpp:57-65 | Every mesh of a child's subtree appears in its parent's pre-order. |
| Importer.ConvertAllConcat | Core/model.cpp:57-65 | Converting a then b is converting a + b, with the texture cache threaded through. |
| Importer.ConvertChild | Core/model.cpp:62-64 | Child i's subtree is converted after the earlier children's, with the cache they left. |
| Importer.ConvertAll | Core/model.cpp:57-65 | Converting a list of mesh indices appends exactly one mesh per index and keeps the meshes already collected. |
| Importer.LastIndexOf | Core/model.cpp:49-52 | `find_last_of` finds the last occurrence, and npos means there is none. |
| Importer.PrefixTo | Core/model.cpp:53 | `substr(0, n)` is a prefix of the path. |
| TextureCache.FindFrom | Core/model.cpp:151-157 | The cache search finds the first entry with that file name, or reports that there is none. |
| TextureCache.FindFromAppend | Core/model.cpp:164 | Appending to the cache never changes an earlier first match. |
| TextureCache.LoadSpec | Core/model.cpp:145-169 | One texture per listed name, in order, each carrying its name. A cached name gives the cached texture without a reload. The cache grows only at its end, by fresh loads, and never holds a file twice. |
| ModelImport.Texels | Core/model.cpp:12-34 | There are width * height texels, and texel i is the conversion of the decoded bytes of pixel i (`TexelsInUnit` states its range and channels). |
| ModelImport.LoadedTexture | Core/model.cpp:11-37 | A decode becomes a texture of its size with one texel per pixel. A failed one holds no texels. |
| ModelImport.TexelsInUnit | Core/model.cpp:17-34 | Every channel lies in [0, 1]. Grey and RGB texels are opaque, and grey sits in red only. |
| ModelImport.ChannelInUnit | Core/model.cpp:17-33 | A byte divided by 255 lies in [0, 1]. |
| ModelImport.LoadedSampleable | Core/model.cpp:11-37 | A texture can be sampled exactly when the decode succeeded with at least one texel each way. |
| ModelImport.TextureFromFile | Core/model.cpp:4-40 | The conversion loop yields `LoadedTexture` of the decode of directory + '\\' + file. |
| ModelImport.Directory | Core/model.cpp:49-53 | The directory is a prefix of the path; `DirectorySplit` states where it ends. |
| ModelImport.DirectorySplit | Core/model.cpp:49-53 | The directory ends just before the last separator of the preferred kind, and the file name after it holds none of that kind. |
| ModelImport.LoadSampleable | Core/model.cpp:145-169 | When every image decodes, the cache and the textures stay sampleable. |
| ModelImport.ImportedVertices | Core/model.cpp:71-99 | There is one vertex per imported position, vertex i converted from position i, its normal and its texture coordinate. |
| ModelImport.ImportedMaterialDefaults | Core/model.cpp:124-137 | ka, kd, ks and ns are overwritten only when the lookup succeeds, and the defaults 0.1, 0.5, 0.5 and 12 remain otherwise. Normal maps come from HEIGHT, displacement maps from DISPLACEMENT, and bump maps stay empty. No emission. |
| ModelImport.MeshTexturesSampleable | Core/model.cpp:108-116 | All four texture lists of a mesh are sampleable. |
| ModelImport.ImportedMeshReady | Core/model.cpp:67-143 | A triangulated mesh imports as one both pipelines can draw. |
| ModelImport.WalkReady | Core/model.cpp:57-65 | A whole pre-order walk keeps every mesh drawable and every cached texture sampleable. |
| ModelImport.LoadedModelReady | Core/model.cpp:42-65 | A model loaded from a usable triangulated scene is drawable by both pipelines. |
| ModelImport.ConvertVertices | Core/model.cpp:71-99 | The vertex loop converts every vertex in order. |
| ModelImport.FlattenIndices | Core/model.cpp:101-107 | The face loop concatenates face index lists in face order. |
| ModelImport.Model.constructor | Core/model.cpp:171-172 | Unit scale, no translation, then `loadModel`. |
| ModelImport.Model.LoadModel | Core/model.cpp:42-55 | A missing, incomplete or rootless scene changes nothing. Otherwise the directory is set and the meshes are the pre-order conversion. |
| ModelImport.Model.ProcessNode | Core/model.cpp:57-65 | A node's own meshes come first, then each child's subtree in order. |
| ModelImport.Model.ProcessChildren | Core/model.cpp:62-64 | The child loop appends each subtree in order. |
| ModelImport.Model.ProcessMeshes | Core/model.cpp:58-61 | The node's meshes are converted and appended in order. |
| ModelImport.Model.ProcessMesh | Core/model.cpp:67-143 | The vertices, the flattened indices, the four texture lists through the cache, and the successful colour lookups over the default material. |
| ModelImport.Model.LoadMaterialTextures | Core/model.cpp:145-169 | The loop computes `TextureCache.Load`: cached names are reused, and new ones are appended to the result and to the cache. |
| LegacyModels.TexelBytes | src/Model.cpp:12-31 | Each texel expands to exactly four bytes; `LoadedTexels` states which. |
| LegacyModels.ExpandedBytes | src/Model.cpp:10-31 | Four bytes per texel; `ExpandedBytesAt` places them. |
| LegacyModels.ExpandedBytesAt | src/Model.cpp:12-31 | Bytes 4i to 4i + 3 are texel i's. |
| LegacyModels.FourChannelsVerbatim | src/Model.cpp:25-30 | A four-channel image is copied byte for byte. |
| LegacyModels.LoadedTexture | src/Model.cpp:9-39 | A decode gives 4 · w · h bytes and its size. A failed load gives an empty texture. |
| LegacyModels.LoadedTexels | src/Model.cpp:12-31 | Texel by texel: grey becomes opaque grey, RGB gains an opaque alpha, and other counts stay transparent black. |
| LegacyModels.LoadedFourChannels | src/Model.cpp:25-30 | A four-channel texture equals its decoded bytes. |
| LegacyModels.TextureFromFile | src/Model.cpp:3-40 | The conversion loop yields `LoadedTexture` of the decode of directory + '/' + file. |
| LegacyModels.ImportedVertices | src/Model.cpp:69-100 | There is one vertex per imported position, vertex i converted from position i; `ImportedMeshShape` states w = 1 and the (0, 0) default. |
| LegacyModels.ImportedMeshShape | src/Model.cpp:65-127 | A triangulated mesh imports with three indices per face, each naming a vertex, and every position has w = 1. |
| LegacyModels.MeshTexturesSpec | src/Model.cpp:108-116 | The texture list holds the DIFFUSE, SPECULAR, HEIGHT and AMBIENT files, in that order, each texture carrying its own path. The cache only grows, and a cache holding each path once still does. |
| LegacyModels.WalkCache | src/Model.cpp:55-63 | Across the whole walk the cache only grows, and a cache holding each path once still does, so no file is decoded twice. |
| LegacyModels.Directory | src/Model.cpp:51 | The directory is a prefix of the path; `DirectorySplit` states where it ends. |
| LegacyModels.DirectorySplit | src/Model.cpp:51 | With a '/', the path is the directory, a '/' and a file name without '/'. |
| LegacyModels.ConvertVertices | src/Model.cpp:69-100 | The vertex loop converts every vertex in order. |
| LegacyModels.FlattenIndices | src/Model.cpp:102-107 | The face loop concatenates face index lists in face order. |
| LegacyModels.Model.Empty | src/Model.h:1-27 | A model before loading has no meshes, no directory and an empty cache. |
| LegacyModels.Model.constructor | src/Model.cpp:154-156 | `load_model` on an empty model. |
| LegacyModels.Model.LoadModel | src/Model.cpp:43-53 | A missing, incomplete or rootless scene changes nothing. Otherwise the directory is set and the meshes are collected in pre-order. |
| LegacyModels.Model.ProcessNode | src/Model.cpp:55-63 | Own meshes first, then each child's subtree. |
| LegacyModels.Model.ProcessChildren | src/Model.cpp:60-62 | The child loop, in order. |
| LegacyModels.Model.ProcessMeshes | src/Model.cpp:56-59 | The node's meshes, in order. |
| LegacyModels.Model.ProcessMesh | src/Model.cpp:65-127 | The vertices, the indices, the four texture lists and the colour lookups, where a failed lookup keeps the previous colour. |
| LegacyModels.Model.LoadMaterialTextures | src/Model.cpp:129-152 | The loop computes `TextureCache.Load` with the path as key. |
| LegacyBuffers.FlippedIndex | src/Renderer.h:21-23 | For an in-range pixel the index lies in [0, w · h), with column x and row height - 1 - y. |
| LegacyBuffers.FlippedIndexInjective | src/Renderer.h:21-23 | Distinct pixels get distinct indices. |
| LegacyBuffers.FlippedIndexOnto | src/FrameBuf.cpp:14-16 | Every buffer index is the index of exactly one pixel. |
| LegacyBuffers.Buffer.constructor | src/Renderer.h:13 | The buffer has w · h elements, each the element type's initial value, and records its size. |
| LegacyBuffers.Buffer.Reset | src/Renderer.h:17-19 | Every element becomes the value, and the length stays. |
| LegacyBuffers.FrameBuffer.constructor | src/Renderer.h:41 | 4 · w · h zero bytes. |
| LegacyBuffers.FrameBuffer.Reset | src/Renderer.h:38-40 | Every byte becomes zero, and the length stays. |
| LegacyBuffers.FrameBuf.constructor | src/FrameBuf.cpp:3-7 | 4 · w · h zero bytes and w · h lowest-float depths. |
| LegacyBuffers.FrameBuf.Reset | src/FrameBuf.cpp:9-12 | Exactly the constructor's fills again, with the lengths and the size unchanged. |
| LegacyBuffers.FrameBuf.GetIndex | src/FrameBuf.cpp:14-16 | `get_index` is the flipped row-major index. |
| LegacyShaders.GetValue | src/Shader.cpp:3-9 | With the guard `index >= width * height`, an out-of-range index gives (0,0,0,0) and any other index gives its four bytes, each in [0, 255]. |
| LegacyShaders.GetValueReadsPastEnd | src/Shader.cpp:5 | On a complete texture the guard as written reads past the data exactly when the index equals width * height. |
| LegacyShaders.GetValueCounterexample | src/Shader.cpp:4-8 | A 1 x 1 texture read at (0, 2) has index 1. It passes the guard as written and reads bytes 4 to 7 of 4. |
| LegacyShaders.GetValueAgrees | src/Shader.cpp:3-9 | The corrected read agrees with the read as written everywhere except that one index. |
| LegacyShaders.VertexStage | src/Shader.cpp:47-54 | The position is P · V · M · pos, and colour, normal and texture coordinates are copied. |
| LegacyShaders.DefaultVertexStageKeepsPosition | src/Shader.cpp:11-16 | With the default matrices a vertex keeps its position. |
| LegacyShaders.VertexShader.constructor | src/Shader.cpp:11-16 | All three matrices are the identity. |
| LegacyShaders.VertexShader.WithMatrices | src/Shader.cpp:18-21 | The three matrices given are stored. |
| LegacyShaders.VertexShader.SetModel | src/Shader.cpp:23-25 | Only the model matrix changes. |
| LegacyShaders.VertexShader.SetView | src/Shader.cpp:27-29 | Only the view matrix changes. |
| LegacyShaders.VertexShader.SetProjection | src/Shader.cpp:31-33 | Only the projection changes. |
| LegacyShaders.VertexShader.GetModel | src/Shader.cpp:35-37 | Returns the model matrix. |
| LegacyShaders.VertexShader.GetView | src/Shader.cpp:39-41 | Returns the view matrix. |
| LegacyShaders.VertexShader.GetProjection | src/Shader.cpp:43-45 | Returns the projection. |
| LegacyShaders.VertexShader.Shade | src/Shader.cpp:47-54 | `vertex_shader` with the stored matrices. |
| LegacyShaders.FragmentShader.constructor | src/Shader.cpp:56-61 | All four texture pointers are null. |
| LegacyShaders.FragmentShader.SetEyePos | src/Shader.cpp:144-146 | Only the eye position changes. |
| LegacyShaders.FragmentShader.SetDiffuseTexture | src/Shader.cpp:148-150 | Only the diffuse slot changes. |
| LegacyShaders.FragmentShader.SetSpecularTexture | src/Shader.cpp:152-154 | Only the specular slot changes. |
| LegacyShaders.FragmentShader.SetNormalTexture | src/Shader.cpp:156-158 | Only the normal slot changes. |
| LegacyShaders.FragmentShader.SetHeightTexture | src/Shader.cpp:160-162 | Only the height slot changes. |
| LegacyShaders.FragmentShader.SetKa | src/Shader.cpp:164-166 | Only ka changes. |
| LegacyShaders.FragmentShader.SetKd | src/Shader.cpp:167-169 | Only kd changes. |
| LegacyShaders.FragmentShader.SetKs | src/Shader.cpp:170-172 | Only ks changes. |
| LegacyShaders.FragmentShader.SetNs | src/Shader.h:93 | Only the exponent changes. |
| LegacyShaders.FragmentShader.ResetTexture | src/Shader.h:95 | The four texture slots become null. |
| LegacyRendering.RouteAllPicksLast | src/Renderer.cpp:3-16 | After routing a list each slot holds the last texture of its type, or its old texture when there is none. The height slot is never touched. |
| LegacyRendering.SetTexture | src/Renderer.cpp:3-16 | Diffuse, specular and normal types go to their slots. "texture_height" and unknown types change nothing. |
| LegacyRendering.OrientationSwap | src/Renderer.cpp:18-35 | Exchanging the last two corners negates the orientation. |
| LegacyRendering.Ccw | src/Renderer.cpp:18-35 | Afterwards the orientation is at least 0, the first corner is kept, and the corners are the same three. |
| LegacyRendering.Counterclockwise | src/Renderer.cpp:18-35 | The in-place swap leaves `Ccw` of the old corners. |
| LegacyRendering.BoundingBox | src/Renderer.cpp:50-53 | The box is clipped to the buffer: its lower corner is at least (0, 0) and its upper corner at most (width - 1, height - 1). |
| LegacyRendering.EdgeStep | src/Renderer.cpp:105-107 | One column right lowers each edge value by its y difference. |
| LegacyRendering.EdgeIsCross | src/Renderer.cpp:56-71 | pa is the cross product of edge a→b with the offset of the pixel centre, so a pixel is covered exactly when its centre is strictly left of all three edges. |
| LegacyRendering.NextIsEdgesAt | src/Renderer.cpp:66-68 | The stepped values are the edge values at the next column, which is the loop invariant pa = ab_x(j + 0.5) - ab_y(i + 0.5) + C1. |
| LegacyRendering.PixelStep | src/Renderer.cpp:82-99 | Specifies one covered pixel (weights, perspective correction, depth test); its contract keeps the frame sizes, and `PixelStepEffect` states its effect. |
| LegacyRendering.PixelStepEffect | src/Renderer.cpp:82-99 | Only the pixel's own index changes, and only when its depth is strictly greater. |
| LegacyRendering.RowFrom | src/Renderer.cpp:70-107 | Specifies the rest of a row, where the first uncovered pixel after a covered one ends the row. Its contract keeps the frame sizes; `RowFromAt` states its effect pixel by pixel. |
| LegacyRendering.Row | src/Renderer.cpp:65-107 | Specifies a row from its first column. Its contract keeps the frame sizes; `RowFromAt`, from column xmin with no pixel yet entered, states its effect. |
| LegacyRendering.RowsFrom | src/Renderer.cpp:65-108 | Specifies the rows before ymax, which is excluded. Its contract keeps the frame sizes; `RowsFromAt` states its effect pixel by pixel. |
| LegacyRendering.DrawTriangle | src/Renderer.cpp:49-110 | Specifies one triangle: the box of the corners as given, the rows of the re-wound triangle. Its contract keeps the frame sizes; `DrawTriangleAt`, `DrawTriangleAdvances` and `DrawTriangleStaysInBox` state its effect. |
| LegacyRendering.DrawTriangleAdvances | src/Renderer.cpp:82-99 | No depth is lowered, and a colour changes only where the depth was raised. |
| LegacyRendering.DrawTriangleStaysInBox | src/Renderer.cpp:50-70 | No pixel outside the box changes. Column xmax and row ymax are never visited. |
| LegacyRendering.EdgesFall | src/Renderer.cpp:105-107 | Stepping right never raises an edge value whose y difference is not negative. |
| LegacyRendering.LeavingStaysOut | src/Renderer.cpp:70-107 | Once a row goes from a covered pixel to an uncovered one, no later pixel of that row is covered, so the early `break` skips no covered pixel. |
| LegacyRendering.PixelStepLocal | src/Renderer.cpp:82-99 | The depth test at a pixel depends only on that pixel's stored colour and depth. |
| LegacyRendering.RowFromAt | src/Renderer.cpp:70-107 | From column i, with the edge values of column i and `entered` only after a covered column, each covered pixel of the row before xmax is depth-tested once. Every other index keeps its colour and depth. |
| LegacyRendering.RowsFromAt | src/Renderer.cpp:65-108 | Each covered pixel of rows j to ymax and columns xmin to xmax (upper bounds excluded) is depth-tested once. Every other index keeps its colour and depth. |
| LegacyRendering.DrawTriangleAt | src/Renderer.cpp:49-110 | Index k changes exactly as one depth test of its pixel when that pixel lies in the clipped box and the re-wound triangle covers its centre. Otherwise both buffers keep entry k. |
| LegacyRendering.ToScreen | src/Renderer.cpp:143-151 | The screen vertex keeps w, the colour, the normal, the texture coordinates and the view-space position. |
| LegacyRendering.WholeTriangleLeft | src/Renderer.cpp:140-153 | With a multiple of 3 indices, every step of 3 has a whole triangle left. |
| LegacyRendering.TrianglesFrom | src/Renderer.cpp:140-153 | Specifies the triangles at index positions 3n, 3n + 3, ..., drawn in order; its contract keeps the frame sizes. |
| LegacyRendering.MeshV2Fs | src/Renderer.cpp:115-123 | Specifies the shaded vertices: one per mesh vertex. |
| LegacyRendering.DrawMesh | src/Renderer.cpp:112-155 | Specifies one mesh drawn with the shader state set up for it; its contract keeps the frame sizes. |
| LegacyRendering.MeshesFrom | src/Renderer.cpp:157-161 | Specifies the meshes in order, each with the shader state left by the previous one; its contract keeps the frame sizes, and `MeshesFromAdvances` and `MeshesFromLeavesLastMesh` state its effect. |
| LegacyRendering.MeshesFromAdvances | src/Renderer.cpp:157-161 | Drawing meshes only ever brings pixels nearer. |
| LegacyRendering.MeshesFromLeavesLastMesh | src/Renderer.cpp:126-133 | After a model the shader holds the last mesh's colours, exponent and textures, no height texture, and the original eye position. |
| LegacyRendering.UCharCast | src/Renderer.cpp:178-181 | On [0, 256), the only range where C++ defines the conversion, `static_cast<unsigned char>` gives the floor. Outside that range the model truncates and wraps modulo 256 (see Left out). |
| LegacyRendering.PixelBytes | src/Renderer.cpp:178-181 | A colour gives exactly four bytes; `FrameBytesExact` states which. |
| LegacyRendering.FrameBytes | src/Renderer.cpp:173-182 | Four bytes per pixel; `FrameBytesAt` places them. |
| LegacyRendering.FrameBytesAt | src/Renderer.cpp:173-182 | Bytes 4p to 4p + 3 are those of colour p. |
| LegacyRendering.UCharCastExact | src/Renderer.cpp:178-181 | A whole number in [0, 255] survives the cast. |
| LegacyRendering.FrameBytesExact | src/Renderer.cpp:173-182 | A colour with whole channels in [0, 255] reads back unchanged from the frame. |
| LegacyRendering.UndrawnStaysBlack | src/Renderer.cpp:163-167 | A pixel whose depth is still the lowest after any draws from a cleared frame is still black. |
| LegacyRendering.WritePixelBytes | src/Renderer.cpp:176-181 | One pixel's bytes extend the finished prefix of the frame. |
| LegacyRendering.ViewportTransform | src/Renderer.cpp:135-139 | The viewport step in place on three corners. |
| LegacyRendering.ShadePixel | src/Renderer.cpp:72-99 | One covered pixel: the weights, the perspective correction and the depth test. |
| LegacyRendering.ScanPixel | src/Renderer.cpp:71-104 | One column: shade or stop the row. |
| LegacyRendering.RowStart | src/Renderer.cpp:66-68 | The edge values at the first column of the row. |
| LegacyRendering.ScanRow | src/Renderer.cpp:70-108 | The inner loop computes `Row`. |
| LegacyRendering.ScanBox | src/Renderer.cpp:65-109 | The outer loop computes `RowsFrom`. |
| LegacyRendering.AssembleTriangle | src/Renderer.cpp:141-151 | Three shaded vertices through the perspective divide and the viewport. |
| LegacyRendering.LegacyRenderer.constructor | src/Renderer.cpp:169-171 | Three buffers of that size. |
| LegacyRendering.LegacyRenderer.ResetBuffer | src/Renderer.cpp:163-167 | The depth becomes the lowest float and the colour zero everywhere. |
| LegacyRendering.LegacyRenderer.Rasterize | src/Renderer.cpp:49-110 | The corners are re-wound, and the buffers become `DrawTriangle` of the old ones: per `DrawTriangleAt`, one depth test at each covered box pixel and no other change. |
| LegacyRendering.LegacyRenderer.RenderMesh | src/Renderer.cpp:112-155 | The buffers become `DrawMesh` of the old ones. |
| LegacyRendering.LegacyRenderer.DrawTriangles | src/Renderer.cpp:140-153 | The primitive loop computes `TrianglesFrom`. |
| LegacyRendering.LegacyRenderer.ShadeVertices | src/Renderer.cpp:115-123 | The two vertex loops compute `MeshV2Fs`. |
| LegacyRendering.LegacyRenderer.SetUpShader | src/Renderer.cpp:126-133 | The texture pointers are cleared, each texture is routed, and then the colours and exponent are set. |
| LegacyRendering.LegacyRenderer.RenderModel | src/Renderer.cpp:157-161 | The meshes in order, as `MeshesFrom`. |
| LegacyRendering.LegacyRenderer.GenerateFrame | src/Renderer.cpp:173-182 | The frame bytes become `FrameBytes` of the colour buffer, so by `FrameBytesAt` bytes 4i to 4i + 3 are the cast channels of colour i. |
| OrbitCamera.Wrap360Spec | src/SurroundCamera.cpp:7-15 | The result lies in [-360, 360] and differs from the input by whole turns. Inputs in range are kept; above 360 lands in (0, 360], below -360 in [-360, 0). |
| OrbitCamera.UnwindSpec | src/SurroundCamera.cpp:8-10 | The first loop subtracts whole turns until the angle is at most 360; an angle at most 360 is kept, and one above ends above 0. |
| OrbitCamera.RewindSpec | src/SurroundCamera.cpp:11-13 | The second loop adds whole turns until the angle is at least -360; an angle at least -360 is kept, and one below ends below 0. |
| OrbitCamera.ConvertTo0To360 | src/SurroundCamera.cpp:7-15 | The two while loops compute `Wrap360`. |
| OrbitCamera.OrbitRadius | src/SurroundCamera.cpp:21-32 | The placed camera is at distance `distance` from the surround point when sin² + cos² = 1. |
| OrbitCamera.FlipKeepsPosition | src/SurroundCamera.cpp:53-69 | theta' = 360 - theta with phi' = phi + 180 names the same point. |
| OrbitCamera.ViewCoordinates | src/SurroundCamera.cpp:81-87 | The rows (right, -P·right), (up, -P·up), (-front, P·front), (0,0,0,1) give a point's offsets along right, up and -front. So the eye maps to the origin. |
| OrbitCamera.ViewAxes | src/SurroundCamera.cpp:71-88 | With an orthonormal frame, one step right, up or forward lands on +x, +y and -z. |
| OrbitCamera.ProjectionDepth | src/SurroundCamera.cpp:104-107 | A depth row (0, 0, a, b) sends z to (za + b) / z. |
| OrbitCamera.PerspectiveDepthRange | src/SurroundCamera.cpp:95-107 | The corrected depth row sends the near plane to 1 and the far plane to -1. |
| OrbitCamera.PerspectiveAsWrittenDepth | src/SurroundCamera.cpp:106 | As written, with n = -1 and f = -2, near goes to -4 and far to -5. |
| OrbitCamera.PerspectiveRowsAgree | src/SurroundCamera.cpp:104-107 | Both versions agree on x, y and w. |
| OrbitCamera.FacingAngles | src/SurroundCamera.cpp:53-69 | theta > 180 mirrors to 360 - theta, with phi wrapped after adding 180. theta is then clamped to [5, 175]. |
| OrbitCamera.PlacedOnSphere | src/SurroundCamera.cpp:21-32 | A placed camera lies on the sphere of radius `distance` around the surround point. |
| OrbitCamera.SurroundCamera.UpdateCamera | src/SurroundCamera.cpp:21-32 | The position follows the angles and the distance, and the frame follows the position. |
| OrbitCamera.SurroundCamera.Aim | src/SurroundCamera.cpp:34-51 | Distance and angles are read from the offset, and theta is clamped to [5, 175] before placing. |
| OrbitCamera.SurroundCamera.AtPosition | src/SurroundCamera.cpp:34-51 | The position constructor keeps 5 ≤ theta ≤ 175 and places the camera. |
| OrbitCamera.SurroundCamera.AtAngles | src/SurroundCamera.cpp:53-69 | The angle constructor stores `FacingAngles` and places the camera. |
| OrbitCamera.SurroundCamera.GetViewMatrix | src/SurroundCamera.cpp:71-88 | Returns the view matrix of the current frame. |
| OrbitCamera.SurroundCamera.GetPerspectiveProjectionMatrix | src/SurroundCamera.cpp:90-109 | Returns the projection with the corrected depth row. |
| OrbitCamera.SurroundCamera.GetPosition | src/SurroundCamera.cpp:111-113 | Returns the position. |
| OrbitCamera.SurroundCamera.MoveCamera | src/SurroundCamera.cpp:115-128 | theta becomes clamp(theta + dθ, 5, 175), phi becomes Wrap360(phi + dφ), and the camera is placed again. |
| OrbitCamera.SurroundCamera.ModifyFov | src/SurroundCamera.cpp:130-138 | The field of view becomes clamp(fov + d, 1, 45). |
| OrbitCamera.SurroundCamera.SetSurroundPoint | src/SurroundCamera.cpp:140-158 | The same point leaves the camera unchanged. A new point is aimed at from the current position. |

## Left out

- The Vulkan image upload (`Appframe/image.cpp`) is reduced to storing the published words (`Images`). OpenGL texture creation (`src/Renderer.cpp:184-193`, `src/FrameBuf.cpp:18-27`) is not modelled.
- Windowing, ImGui and input polling are not modelled. `Camera::onUpdate` receives the key and mouse state as an `Input` value.
- The parallel `std::for_each` branch of the tracer's `render` is not modelled: it performs the same per-pixel update as the sequential branch, which is modelled.
- The random generator is not modelled. The bounce directions are an input function of pixel and bounce.
- Float semantics (rounding, NaN, infinities) are not modelled: arithmetic is exact on `real`.
- `normalize`, `sqrt`, `pow`, `length`, trigonometry, `acos`, `tan`, `lookAt`, `perspectiveFov`, `inverse` and quaternion rotation are arbitrary functions. Properties that need their values (such as the sphere lemmas) state their identities as hypotheses.
- The Blinn-Phong lighting of `FragmentShader::fragment_shader` (`src/Shader.cpp:63-142`) is an arbitrary function of the shader state and the interpolated vertex. Only the state it reads is modelled.
- The diffuse and specular lighting terms of `BasicFragmentShader::frag` are abstract. Their selection, normal choice, summation and clamp are modelled.
- Assimp (`ReadFile`, `material->Get`) and stb (`stbi_load`, the flip-on-load setting) are not modelled. Their results are inputs: a node tree with meshes and materials, and decoded bytes per file name.
- `Model::render` (`src/Model.cpp:158-162`) calls a `Mesh::render` that is not part of this model and is left out.
- The C++ path strings, with separator '/' (`src/Model.cpp`) or '\\' (`Core/model.cpp`), are kept only as the file-name keys of the decoder input.
- `ModelImport.LoadedTexture`: a failed decode is taken as a 0 x 0 texture. The C++ resizes its table by an uninitialised width and height there.
- `LegacyModels.LoadedTexture`: a failed decode is taken as an empty texture, for the same reason.
- Fields the C++ leaves uninitialised (the legacy colour buffer, parts of a miss record, the fragment shader's scalars) are zero in the model.
- `src/Model.cpp` builds a `Mesh` from six arguments with no exponent. The exponent is 0 in the model, because `src/Mesh.cpp` is not part of this model.
- `ArgParsing.ArgParser.AddOption`: `typeid(T).name() == "bool"` compares pointers, so that branch is taken never to fire. The type is recorded as a name.
- `ArgParsing.ArgParser.GetOption`: the generic `cast_string<T>` and `to_string` through streams are not modelled. Values are returned as text, and only `cast_string<bool>` is modelled (`GetFlag`).
- The parser's `std::cout` messages are not modelled, and `std::exit(-1)` becomes an error status. Short-circuit callbacks are represented by the index of the fired option.
- `ArgParsing.ArgParser.ParseArguments`: the scan tests its bound before reading `visit`. The scan as written reads one past the end (see Findings).
- `LegacyShaders.GetValue`: the guard is `index >= width * height`. The guard as written lets one index past the end through (see Findings).
- `OrbitCamera.SurroundCamera.GetPerspectiveProjectionMatrix`: uses the corrected depth row (see Findings).
- `LegacyRendering.UCharCast`: C++ leaves the conversion of a float outside [0, 256) to `unsigned char` undefined, and `fragment_shader` multiplies its unclamped colour by 255 (src/Shader.cpp:139), so such values can reach it; the model truncates and wraps modulo 256 instead of leaving the result unspecified.
- `ArgSpec.ShortFrom`: `short_name.back()` on an empty short name (src/ArgParser.hpp:163, 203) is undefined in C++; `ArgSpec.EndsWith` makes such an option never match a short flag.
- `ArgSpec.ScTokenMatch`: the short-circuit pass reads `short_name.back()` the same way (src/ArgParser.hpp:163); an empty short name never matches there either.
- `OrbitCamera.ConvertTo0To360`: keeps the source's name, but the result range is [-360, 360], not [0, 360].
- `LegacyShaders.FragmentShader.SetNs` and `LegacyShaders.FragmentShader.ResetTexture` are declared in `src/Shader.h` without a definition. They are taken to store the exponent and to null the four texture slots.
- `Tracing.Tracer.Render`: the statement about the accumulator is made for a non-zero width. A zero-width image has no pixels.
- The `Camera::onUpdate` movement keys other than forward are modelled but described only through `Cameras.NoKeyNoMove`.

## Findings

| source | as written | input that shows it | evidently intended | confidence | as-written member | corrected member |
|---|---|---|---|---|---|---|
| src/ArgParser.hpp:273 | `while (visit[cur_pos] && cur_pos < argc)` reads `visit[cur_pos]` before checking the bound | a command line holding only the program name, with one positional argument declared: `visit = [true]`, and the scan reads `visit[1]` | test `cur_pos < argc` first | high, not executed | ArgFacts.ProgramNameAloneReadsPastEnd | ArgParsing.ArgParser.ParseArguments |
| src/Shader.cpp:5 | `index > width * height` lets `index == width * height` through, and `data[4 * index]` is then past the 4 · w · h bytes | a 1 x 1 texture read at (u, v) = (0, 2): index = 0 + trunc(2 - 1) · 1 = 1 | `index >= width * height` | high, not executed | LegacyShaders.GetValueCounterexample | LegacyShaders.GetValue |
| src/SurroundCamera.cpp:106 | depth row 2(n + f)/(n - f), -n f/(n - f) | n = -1, f = -2: the near plane maps to -4 and the far plane to -5, outside [-1, 1] | (n + f)/(n - f), -2 n f/(n - f): the product of the perspective and orthographic matrices in the comment above it, completed by the translation the comment leaves out | medium (depth order is still kept), not executed | OrbitCamera.PerspectiveAsWrittenDepth | OrbitCamera.PerspectiveDepthRange |
