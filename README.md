# Scene3D scene builder, modelled in Dafny

This project models the scene-description builder `Scene3D` (Scene3D.py) and
its two small clients in simplescene.py.

A `Scene3D` object is an append-only text buffer. Its constructor seeds the
buffer with `let canvas = new SceneCanvas();` and a line break. Every `add_*`
method appends one `canvas.addX(...);` statement. The statement lists the
method's arguments in their declared order, rendered as Python's f-strings
render them and separated by bare commas. `save_scene` wraps the buffer in a
fixed HTML page, adds the scene's name and a repaint statement, and writes the
page to a file.

Files:

- `text.dfy` (module `Text`) holds the character-level pieces.
  - Joining on a separator, and `Split`, which undoes it.
  - The first and last index of a character.
  - Python's `str(int)` (`IntText`) and a parser that undoes it.
- `scene3d.dfy` (module `Scene3D`) holds the builder.
  - `Num` is a numeric argument: an `Int`, rendered in decimal as `str(int)` renders it, or a `Float` whose text is taken as given.
  - `Entity` has one constructor per kind of statement, holding every argument, defaults included. `add_sphere` logs an `Ellipsoid`.
  - `Fragment` is the text an `add_*` call appends.
  - `Decode` reads a statement back.
  - `BuildHtml` assembles the saved page, and `ParseHtml` reads the buffer and the name back out of it.
  - The class `Scene3D` has the mutable field `sceneCode` and one method per `add_*`. A ghost log `calls` records the entities added so far. The invariant `Valid()` says that the buffer is the initial statement followed by the fragments of the logged entities, in call order.
- `simplescene.dfy` (module `SimpleScene`) models `draw_sign` and the builder calls of `draw_scene`.
  - These are methods that take a `Scene3D` object.
  - Their postconditions state the exact list of entities appended.

## Model

| member | source | states |
|---|---|---|
| Scene3D.Scene3D.constructor | Scene3D.py:63-64 | A new builder's buffer is exactly `let canvas = new SceneCanvas();` plus a line break, and nothing has been added yet. |
| Scene3D.Scene3D.AddBox | Scene3D.py:66-89 | The old buffer is kept unchanged as a prefix, and exactly one box statement is appended after it. Omitted rotations are `Int(0)`. The log grows by that one box. |
| Scene3D.Scene3D.AddCylinder | Scene3D.py:91-116 | Appends exactly one cylinder statement after the unchanged old buffer. Rotations default to 0 and scales to 1. |
| Scene3D.Scene3D.AddCone | Scene3D.py:118-143 | Appends exactly one cone statement after the unchanged old buffer. The statement has no trailing line break. Rotations default to 0 and scales to 1. |
| Scene3D.Scene3D.AddEllipsoid | Scene3D.py:145-168 | Appends exactly one ellipsoid statement after the unchanged old buffer. Rotations default to 0. |
| Scene3D.Scene3D.AddSphere | Scene3D.py:170-187 | Appends exactly the text, and logs exactly the entity, of an ellipsoid with three equal radii `radius` and rotation `0,0,0`. |
| Scene3D.Scene3D.AddMesh | Scene3D.py:189-213 | Appends exactly one mesh statement, with the path first, after the unchanged old buffer. |
| Scene3D.Scene3D.AddTexturedMesh | Scene3D.py:215-234 | Appends exactly one textured-mesh statement, with both paths first, after the unchanged old buffer. |
| Scene3D.Scene3D.AddCamera | Scene3D.py:236-246 | Appends exactly one camera statement after the unchanged old buffer. |
| Scene3D.Scene3D.AddPointLight | Scene3D.py:248-262 | Appends exactly one point-light statement after the unchanged old buffer. |
| Scene3D.Scene3D.AddDirectionalLight | Scene3D.py:264-279 | Appends exactly one directional-light statement after the unchanged old buffer. |
| Scene3D.Scene3D.SaveScene | Scene3D.py:281-293 | Returns the page `BuildHtml(sceneCode, name)`, which is prefix, `<script>` and a line break, buffer, name assignment, repaint, `</script>`, suffix. It changes nothing, so two saves with no add in between give the same page. For a name without `"`, the page reads back as this buffer and this name. |
| Scene3D.Fragment | Scene3D.py:116-143 | Every statement starts with `canvas.`. A cone's ends in `);`, and every other kind's ends in `);` plus a line break. |
| Scene3D.Scene3D.Append | Scene3D.py:89 | The `+=` that every `add_*` method shares: the buffer grows by exactly the entity's fragment, the log by exactly the entity, and `Valid()` is kept. |
| Scene3D.Fmt | Scene3D.py:89 | The text an f-string substitutes for a number. An int's text parses back to that int. A float's text is the text given. |
| Scene3D.Verb | Scene3D.py:89-279 | Every statement's method name starts with `add` and holds no `(` and no line break, so a statement's name ends at its first `(`. |
| Scene3D.Params | Scene3D.py:89-279 | Every statement has at least four arguments. A mesh's first argument is its path, and a textured mesh's first two are its mesh path and its material path. |
| Scene3D.Statement | Scene3D.py:89 | The frame `canvas.<verb>(<args joined by ",">);`, with or without a trailing line break. Its read-back is stated by `StatementDecodes`. |
| Scene3D.CameraArgs | Scene3D.py:246 | A camera's four argument texts are `x,y,z,rot`, in that order. |
| Scene3D.PointLightArgs | Scene3D.py:262 | A point light's seven argument texts are `x,y,z,r,g,b,intensity`, in that order. |
| Scene3D.CameraJoined | Scene3D.py:246 | A camera's argument texts, joined by commas. |
| Scene3D.PointLightJoined | Scene3D.py:262 | A point light's argument texts, joined by commas. |
| Scene3D.BoxLine | Scene3D.py:89 | A box's statement is `canvas.addBox(` followed by its fourteen argument texts separated by commas, then `);`. |
| Scene3D.BuildHtml | Scene3D.py:289-293 | The saved page. Its shape is stated by `PageShape`, and its read-back by `HtmlRoundTrip`. |
| Scene3D.StatementDecodes | Scene3D.py:89 | A statement `canvas.<verb>(<args joined by ",">);` reads back as that verb, exactly those argument texts in order, and the line break flag, provided no argument holds a comma. |
| Scene3D.FragmentDecodes | Scene3D.py:66-279 | Every fragment of well-formed arguments reads back as its entity's verb and its arguments rendered in declared order. Paths are wrapped in double quotes. The fragment ends in a line break exactly when it is not a cone. |
| Scene3D.FragmentInjective | Scene3D.py:66-279 | Two well-formed calls append the same text if and only if they call the same canvas method with the same argument texts and agree on being a cone. |
| Scene3D.BoxArgs | Scene3D.py:89 | The fourteen argument texts of a box, in add_box's order. |
| Scene3D.CylinderArgs | Scene3D.py:116 | The sixteen argument texts of a cylinder, in add_cylinder's order. |
| Scene3D.RotationDefaults | Scene3D.py:66-168 | A box or ellipsoid with the default rotation ends its argument list with `0,0,0`. |
| Scene3D.ScaleDefaults | Scene3D.py:91-143 | A cylinder or cone with the default rotation and scale ends its argument list with `0,0,0,1,1,1`. |
| Scene3D.ScriptSnoc | Scene3D.py:89 | The script of the calls followed by one more call is the old script followed by that call's fragment. Appending never disturbs the earlier text. |
| Scene3D.BufferGrows | Scene3D.py:89 | A `+=` of one fragment onto a buffer that holds the script of the calls so far gives the script of the extended call list. |
| Scene3D.LineHasNoBreak | Scene3D.py:89 | A statement without its trailing line break holds no line break. |
| Scene3D.ScriptLines | Scene3D.py:66-279 | A script without cones, read line by line, is one statement per call in call order, with nothing after the last line break. |
| Scene3D.BufferLines | Scene3D.py:63-279 | A whole buffer without cones, read line by line, is the initial statement, then one line per call in call order. |
| Scene3D.ConeSharesLine | Scene3D.py:143 | A cone's statement has no line break of its own. The statement after it is written on the same line. |
| Scene3D.PageShape | Scene3D.py:289-293 | The page is the fixed head, the buffer, `canvas.name = "`, the name, and the fixed tail. |
| Scene3D.PageRoundTrip | Scene3D.py:289-293 | A page of that shape parses back to exactly its buffer and name when the name holds no `"`. |
| Scene3D.HtmlRoundTrip | Scene3D.py:289-293 | `ParseHtml(BuildHtml(code, name)) == Some(Page(code, name))` whenever the name holds no `"`. |
| Text.SplitJoin | Scene3D.py:89 | Splitting comma-joined argument texts on `,` gives back exactly those texts, provided none holds a comma. |
| Text.SplitAround | Scene3D.py:89 | Splitting distributes over one separator. |
| Text.IntText | Scene3D.py:89 | Python's `str(int)`. The text is never empty and starts with `-` exactly for negative ints. |
| Text.ParseIntText | Scene3D.py:89 | Parsing Python's rendering of an int gives the int back. |
| Text.IntTextInjective | Scene3D.py:89 | Two ints render the same way if and only if they are equal. |
| SimpleScene.Pole | simplescene.py:25 | The pole that `draw_sign` draws: a grey cylinder. `PoleStatement` states its text. |
| SimpleScene.Board | simplescene.py:26-31 | The board that `draw_sign` draws, shaped by its orientation. `BoardStatement` states its text. |
| SimpleScene.SampleScene | simplescene.py:38-65 | The entities `draw_scene` adds, of which there are 13. |
| SimpleScene.SampleSceneEntities | simplescene.py:41-52 | The first, fifth and seventh entities of the sample scene are the first light, the first camera and the ground. |
| SimpleScene.FirstLightLine | simplescene.py:41 | The first light's line is `canvas.addPointLight(-100,200,0,200,200,200,1.0);`. |
| SimpleScene.FirstCameraLine | simplescene.py:47 | The first camera's line is `canvas.addCamera(0,2,0,0);`. |
| SimpleScene.GroundLine | simplescene.py:52 | The ground's line is `canvas.addBox(0,-25,0,1000,50,1000,100,100,100,1,0,0,0,0);`. |
| SimpleScene.SampleSceneFirstLines | simplescene.py:41-52 | Lines 0, 4 and 6 of the sample scene's script are exactly the first light's, the first camera's and the ground's statements shown above. |
| SimpleScene.DrawSign | simplescene.py:9-31 | Appends exactly two entities: the pole cylinder, then the orientation-dependent box. The buffer grows by their two fragments, in that order. The pole takes no colour argument, so the caller's `r,g,b` reach only the box. |
| SimpleScene.PoleArgs | simplescene.py:25 | The pole's sixteen argument texts. |
| SimpleScene.PoleStatement | simplescene.py:25 | The pole reads back as `addCylinder` at `(cx,1,cz)`, radius `0.05`, height `2`, colour `127,127,127`, roughness `1`, metalness `0`, rotation `0,0,0` and scale `1,1,1`, with a line break. |
| SimpleScene.BoardArgs | simplescene.py:26-31 | The board's fourteen argument texts. East-west extents are `0.5,0.5,0.1`, and otherwise `0.1,0.5,0.5`. |
| SimpleScene.BoardStatement | simplescene.py:26-31 | The board reads back as `addBox` centred at `(cx,2,cz)`, with the orientation's extents, the caller's colour, roughness `1`, metalness `0` and rotation `0,0,0`. |
| SimpleScene.BoardShowsColour | simplescene.py:26-31 | Two boards at the same place and orientation have the same text if and only if their colours render the same. |
| SimpleScene.AddLights | simplescene.py:41-44 | Appends the four point lights, in order. |
| SimpleScene.AddCameras | simplescene.py:47-48 | Appends the two cameras, in order. |
| SimpleScene.AddSigns | simplescene.py:56-60 | Appends the red east-west sign, then the green north-south sign: four entities. |
| SimpleScene.AddProps | simplescene.py:63-65 | Appends the cow mesh, then the textured smokestack. |
| SimpleScene.BuildScene | simplescene.py:38-65 | A fresh builder ends up having logged exactly the 13-entity sample scene. The order is 4 lights, 2 cameras, ground box, red sign (2), green sign (2), cow, smokestack. |
| SimpleScene.DrawScene | simplescene.py:34-67 | Builds the sample scene and returns the page that `save_scene` would write under the name `Simple Sample Scene`. |
| SimpleScene.SampleSceneLines | simplescene.py:38-65 | The sample scene's buffer, read line by line, is the initial statement followed by exactly 13 statement lines, in call order. |

## Left out

- The file write in `save_scene` and its `filename` parameter (Scene3D.py:295-296) are left out because they are I/O. `SaveScene` returns the page instead. `DrawScene` returns that page in place of saving it (simplescene.py:67), so the name `simplescene.html` does not appear.
- `HTML_PREFIX` and `HTML_END` (Scene3D.py:6-59) are copied as constant strings. Nothing is proved about the HTML itself.
- Python's float-to-text conversion is not modelled. A `Float` argument carries the text Python would produce, such as `"0.05"` or `"1.0"`, and the model takes that text as given.
- Text.IntText: renders every int in decimal. Newer CPython versions refuse, with a `ValueError`, to convert an int of more than 4300 digits to text; that limit is not modelled.
- What the statements mean to the renderer (three.js, `SceneCanvas`) is not modelled: it is an external collaborator.
- The `if __name__ == "__main__"` entry point (simplescene.py:70-71) is left out because it is plumbing.
- Quotes and line breaks inside arguments are not escaped, which the source does not do either. The read-back lemmas (`FragmentDecodes`, `HtmlRoundTrip`, `SaveScene`'s second postcondition) therefore require arguments without `,` or line breaks, paths without `"`, and a scene name without `"`.
- Two details of the code are kept as written:
  - `add_cone` writes no trailing line break, although every other statement ends in one (Scene3D.py:143). This is kept, and `ConeSharesLine` states its effect.
  - The constructor writes the initial `let canvas = new SceneCanvas();` statement (Scene3D.py:64), so every buffer, and the script of every saved page, starts with it.
- `draw_sign`'s docstring speaks of a 0.02 m thick sign (simplescene.py:12). The code uses 0.1 (simplescene.py:28, 31), and the model follows the code.
- `draw_scene`'s groups of calls (lights, cameras, signs, props) are split into the helper methods `AddLights`, `AddCameras`, `AddSigns` and `AddProps`. Only the structure differs: the calls and their order are the source's.
