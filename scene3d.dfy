/**
  The scene-description builder of Scene3D.py.

  A `Scene3D` object owns one text buffer, `sceneCode`, seeded with the
  statement that creates the renderer-facing `canvas` object. Every `Add...`
  method appends one `canvas.addX(...);` statement whose arguments are the
  method's parameters in their declared order, rendered as Python's f-strings
  render them and separated by bare commas. `SaveScene` wraps the buffer in the
  fixed page template, with the scene's name and a repaint statement.

  Besides the text, every object keeps a ghost log `calls` of the entities it
  was given; `Valid()` says that the buffer is the initial statement followed
  by the fragments of the logged entities, in order.
 */
module Scene3D {
  import opened Text

  // ---------------------------------------------------------------------------
  // Arguments

  /**
    A numeric argument. Python renders an int exactly (`IntText`); the text
    of a float is whatever Python's float-to-text conversion produced, which
    this model takes as given.
   */
  datatype Num = Int(value: int) | Float(text: string)

  /** The text an f-string substitutes for `n`. */
  function Fmt(n: Num): (s: string)
    ensures n.Int? ==> ParseInt(s) == Some(n.value)
  {
    match n
    case Int(i) => ParseIntText(i); IntText(i)
    case Float(t) => t
  }

  /** An argument of a statement: a number, or a file path written between double quotes. */
  datatype Arg = Number(n: Num) | Path(path: string)

  function Render(a: Arg): string
  {
    match a
    case Number(n) => Fmt(n)
    case Path(p) => "\"" + p + "\""
  }

  function RenderAll(ps: seq<Arg>): (r: seq<string>)
    ensures |r| == |ps|
    ensures forall i :: 0 <= i < |ps| ==> r[i] == Render(ps[i])
  {
    if |ps| == 0 then [] else [Render(ps[0])] + RenderAll(ps[1..])
  }

  lemma RenderFour(p: seq<Arg>)
    requires |p| == 4
    ensures RenderAll(p) == [Render(p[0]), Render(p[1]), Render(p[2]), Render(p[3])]
  {
  }

  lemma RenderSeven(p: seq<Arg>)
    requires |p| == 7
    ensures RenderAll(p) == [Render(p[0]), Render(p[1]), Render(p[2]), Render(p[3]), Render(p[4]), Render(p[5]), Render(p[6])]
  {
  }

  lemma RenderFourteen(p: seq<Arg>)
    requires |p| == 14
    ensures RenderAll(p) == [Render(p[0]), Render(p[1]), Render(p[2]), Render(p[3]), Render(p[4]), Render(p[5]), Render(p[6]), Render(p[7]), Render(p[8]), Render(p[9]), Render(p[10]), Render(p[11]), Render(p[12]), Render(p[13])]
  {
  }

  lemma RenderSixteen(p: seq<Arg>)
    requires |p| == 16
    ensures RenderAll(p) == [Render(p[0]), Render(p[1]), Render(p[2]), Render(p[3]), Render(p[4]), Render(p[5]), Render(p[6]), Render(p[7]), Render(p[8]), Render(p[9]), Render(p[10]), Render(p[11]), Render(p[12]), Render(p[13]), Render(p[14]), Render(p[15])]
  {
  }

  /** Text that can stand as one argument on one line: no argument separator, no line break. */
  predicate Plain(s: string)
  {
    ',' !in s && '\n' !in s
  }

  /**
    An argument that keeps the statement readable: a float's text is plain, a
    path is plain and holds no double quote (paths are quoted, never escaped).
   */
  predicate PlainArg(a: Arg)
  {
    match a
    case Number(n) => PlainNum(n)
    case Path(p) => PlainPath(p)
  }

  /** A path that can stand between quotes as one argument. */
  predicate PlainPath(p: string)
  {
    Plain(p) && '"' !in p
  }

  predicate PlainNum(n: Num)
  {
    n.Float? ==> Plain(n.text)
  }

  lemma RenderPlain(a: Arg)
    requires PlainArg(a)
    ensures Plain(Render(a))
  {
    match a
    case Number(n) =>
      if n.Int? {
        IntTextCharacters(n.value);
      }
    case Path(p) =>
  }

  // ---------------------------------------------------------------------------
  // Entities and their statements

  /** One `add_*` call of the builder, with every argument, defaults included. */
  datatype Entity =
    | Box(cx: Num, cy: Num, cz: Num, xlen: Num, ylen: Num, zlen: Num,
          r: Num, g: Num, b: Num, roughness: Num, metalness: Num,
          rx: Num, ry: Num, rz: Num)
    | Cylinder(cx: Num, cy: Num, cz: Num, radius: Num, height: Num,
               r: Num, g: Num, b: Num, roughness: Num, metalness: Num,
               rx: Num, ry: Num, rz: Num, sx: Num, sy: Num, sz: Num)
    | Cone(cx: Num, cy: Num, cz: Num, radius: Num, height: Num,
           r: Num, g: Num, b: Num, roughness: Num, metalness: Num,
           rx: Num, ry: Num, rz: Num, sx: Num, sy: Num, sz: Num)
    | Ellipsoid(cx: Num, cy: Num, cz: Num, radx: Num, rady: Num, radz: Num,
                r: Num, g: Num, b: Num, roughness: Num, metalness: Num,
                rx: Num, ry: Num, rz: Num)
    | Mesh(path: string, cx: Num, cy: Num, cz: Num,
           rx: Num, ry: Num, rz: Num, sx: Num, sy: Num, sz: Num,
           r: Num, g: Num, b: Num, roughness: Num, metalness: Num)
    | TexturedMesh(path: string, matpath: string, cx: Num, cy: Num, cz: Num,
                   rx: Num, ry: Num, rz: Num, sx: Num, sy: Num, sz: Num,
                   shininess: Num)
    | Camera(x: Num, y: Num, z: Num, rot: Num)
    | PointLight(x: Num, y: Num, z: Num, r: Num, g: Num, b: Num, intensity: Num)
    | DirectionalLight(x: Num, y: Num, z: Num, r: Num, g: Num, b: Num, intensity: Num)

  /** The `canvas` method an entity's statement calls. */
  function Verb(e: Entity): (v: string)
    ensures |v| > 3 && v[..3] == "add"
    ensures '(' !in v && '\n' !in v
  {
    if e.Box? then "addBox"
    else if e.Cylinder? then "addCylinder"
    else if e.Cone? then "addCone"
    else if e.Ellipsoid? then "addEllipsoid"
    else if e.Mesh? then "addMesh"
    else if e.TexturedMesh? then "addTexturedMesh"
    else if e.Camera? then "addCamera"
    else if e.PointLight? then "addPointLight"
    else "addDirectionalLight"
  }

  /** The arguments of an entity's statement, in the order the statement lists them. */
  function Params(e: Entity): (p: seq<Arg>)
    ensures |p| >= 4
    ensures e.Mesh? ==> p[0] == Path(e.path)
    ensures e.TexturedMesh? ==> p[0] == Path(e.path) && p[1] == Path(e.matpath)
  {
    match e
    case Box(cx, cy, cz, xlen, ylen, zlen, r, g, b, roughness, metalness, rx, ry, rz) =>
      [Number(cx), Number(cy), Number(cz), Number(xlen), Number(ylen), Number(zlen),
       Number(r), Number(g), Number(b), Number(roughness), Number(metalness),
       Number(rx), Number(ry), Number(rz)]
    case Cylinder(cx, cy, cz, radius, height, r, g, b, roughness, metalness, rx, ry, rz, sx, sy, sz) =>
      [Number(cx), Number(cy), Number(cz), Number(radius), Number(height),
       Number(r), Number(g), Number(b), Number(roughness), Number(metalness),
       Number(rx), Number(ry), Number(rz), Number(sx), Number(sy), Number(sz)]
    case Cone(cx, cy, cz, radius, height, r, g, b, roughness, metalness, rx, ry, rz, sx, sy, sz) =>
      [Number(cx), Number(cy), Number(cz), Number(radius), Number(height),
       Number(r), Number(g), Number(b), Number(roughness), Number(metalness),
       Number(rx), Number(ry), Number(rz), Number(sx), Number(sy), Number(sz)]
    case Ellipsoid(cx, cy, cz, radx, rady, radz, r, g, b, roughness, metalness, rx, ry, rz) =>
      [Number(cx), Number(cy), Number(cz), Number(radx), Number(rady), Number(radz),
       Number(r), Number(g), Number(b), Number(roughness), Number(metalness),
       Number(rx), Number(ry), Number(rz)]
    case Mesh(path, cx, cy, cz, rx, ry, rz, sx, sy, sz, r, g, b, roughness, metalness) =>
      [Path(path), Number(cx), Number(cy), Number(cz), Number(rx), Number(ry), Number(rz),
       Number(sx), Number(sy), Number(sz), Number(r), Number(g), Number(b),
       Number(roughness), Number(metalness)]
    case TexturedMesh(path, matpath, cx, cy, cz, rx, ry, rz, sx, sy, sz, shininess) =>
      [Path(path), Path(matpath), Number(cx), Number(cy), Number(cz),
       Number(rx), Number(ry), Number(rz), Number(sx), Number(sy), Number(sz),
       Number(shininess)]
    case Camera(x, y, z, rot) =>
      [Number(x), Number(y), Number(z), Number(rot)]
    case PointLight(x, y, z, r, g, b, intensity) =>
      [Number(x), Number(y), Number(z), Number(r), Number(g), Number(b), Number(intensity)]
    case DirectionalLight(x, y, z, r, g, b, intensity) =>
      [Number(x), Number(y), Number(z), Number(r), Number(g), Number(b), Number(intensity)]
  }

  function Args(e: Entity): seq<string>
  {
    RenderAll(Params(e))
  }

  /** Every argument of the entity is plain (see `PlainArg`). */
  predicate WellFormed(e: Entity)
  {
    forall i :: 0 <= i < |Params(e)| ==> PlainArg(Params(e)[i])
  }

  const Receiver: string := "canvas."

  /** `canvas.<verb>(<args joined by commas>);`, followed by a line break when asked. */
  function Statement(verb: string, args: seq<string>, newline: bool): string
  {
    Receiver + verb + "(" + Join(args, ',') + ");" + (if newline then "\n" else "")
  }

  /**
    The text an `add_*` call appends. Every statement ends with a line break
    except the cone's, which add_cone writes without one.
   */
  function Fragment(e: Entity): (s: string)
    ensures |s| > |Receiver| + 2 && s[..|Receiver|] == Receiver
    ensures e.Cone? ==> s[|s| - 2..] == ");"
    ensures !e.Cone? ==> s[|s| - 3..] == ");\n"
  {
    Statement(Verb(e), Args(e), !e.Cone?)
  }

  /** The statement of `e` without any line break. */
  function Line(e: Entity): string
  {
    Statement(Verb(e), Args(e), false)
  }

  /** The fragments of `es`, in order. */
  function Script(es: seq<Entity>): string
  {
    if |es| == 0 then "" else Fragment(es[0]) + Script(es[1..])
  }

  lemma {:induction false} ScriptSnoc(es: seq<Entity>, e: Entity)
    ensures Script(es + [e]) == Script(es) + Fragment(e)
    decreases |es|
  {
    if |es| == 0 {
      assert es + [e] == [e];
    } else {
      assert (es + [e])[1..] == es[1..] + [e];
      ScriptSnoc(es[1..], e);
    }
  }

  /** Appending a fragment to a buffer that holds the script of `es` gives the script of `es + [e]`. */
  lemma BufferGrows(init: string, code: string, es: seq<Entity>, e: Entity)
    requires code == init + Script(es)
    ensures code + Fragment(e) == init + Script(es + [e])
  {
    ScriptSnoc(es, e);
  }

  // ---------------------------------------------------------------------------
  // Reading a statement back

  /** What a statement says: the method called, its argument texts, and whether a line break follows. */
  datatype Call = Call(verb: string, args: seq<string>, newline: bool)

  /** Reads one statement of the form `Statement` produces. */
  function Decode(s: string): Option<Call>
  {
    if |s| < |Receiver| || s[..|Receiver|] != Receiver then None
    else DecodeBody(s[|Receiver|..])
  }

  /** What follows the receiver: a call and `);`, then possibly a line break. */
  function DecodeBody(body: string): Option<Call>
  {
    var newline := |body| > 0 && body[|body| - 1] == '\n';
    var stmt := if newline then body[..|body| - 1] else body;
    if |stmt| < 2 || stmt[|stmt| - 2..] != ");" then None
    else DecodeCall(stmt[..|stmt| - 2], newline)
  }

  /** A verb, then `(` and the comma-separated arguments. */
  function DecodeCall(call: string, newline: bool): Option<Call>
  {
    match IndexOf(call, '(')
    case None => None
    case Some(k) => Some(Call(call[..k], Split(call[k + 1..], ','), newline))
  }

  lemma DecodeReceiver(body: string)
    ensures Decode(Receiver + body) == DecodeBody(body)
  {
    var s := Receiver + body;
    assert s[..|Receiver|] == Receiver && s[|Receiver|..] == body;
  }

  lemma DecodeEnd(call: string, newline: bool)
    ensures DecodeBody(call + ");" + (if newline then "\n" else "")) == DecodeCall(call, newline)
  {
    var stmt := call + ");";
    var body := stmt + (if newline then "\n" else "");
    assert newline ==> body[..|body| - 1] == stmt;
    assert !newline ==> body == stmt;
    assert stmt[|stmt| - 1] == ';' && stmt[|stmt| - 2..] == ");";
    assert stmt[..|stmt| - 2] == call;
  }

  lemma DecodeVerb(verb: string, joined: string, newline: bool)
    requires '(' !in verb
    ensures DecodeCall(verb + "(" + joined, newline) == Some(Call(verb, Split(joined, ','), newline))
  {
    var call := verb + "(" + joined;
    assert call == verb + ['('] + joined;
    IndexOfAfterPrefix(verb, '(', joined);
    assert call[..|verb|] == verb && call[|verb| + 1..] == joined;
  }

  /** A statement reads back as its verb, its arguments in order, and its line break. */
  lemma StatementDecodes(verb: string, args: seq<string>, newline: bool)
    requires '(' !in verb
    requires |args| > 0
    requires forall i :: 0 <= i < |args| ==> ',' !in args[i]
    ensures Decode(Statement(verb, args, newline)) == Some(Call(verb, args, newline))
  {
    var joined := Join(args, ',');
    assert Statement(verb, args, newline)
        == Receiver + ((verb + "(" + joined) + ");" + (if newline then "\n" else ""));
    DecodeReceiver((verb + "(" + joined) + ");" + (if newline then "\n" else ""));
    DecodeEnd(verb + "(" + joined, newline);
    DecodeVerb(verb, joined, newline);
    SplitJoin(args, ',');
  }

  lemma ArgsPlain(e: Entity)
    requires WellFormed(e)
    ensures |Args(e)| == |Params(e)| > 0
    ensures forall i :: 0 <= i < |Args(e)| ==> Plain(Args(e)[i])
  {
    forall i | 0 <= i < |Args(e)|
      ensures Plain(Args(e)[i])
    {
      RenderPlain(Params(e)[i]);
    }
  }

  /**
    Each fragment reads back as its entity's verb and the rendered arguments in
    their declared order, ending in a line break exactly when it is not a cone.
   */
  lemma FragmentDecodes(e: Entity)
    requires WellFormed(e)
    ensures Decode(Fragment(e)) == Some(Call(Verb(e), Args(e), !e.Cone?))
    ensures |Args(e)| == |Params(e)|
    ensures forall i :: 0 <= i < |Args(e)| ==> Args(e)[i] == Render(Params(e)[i])
  {
    ArgsPlain(e);
    StatementDecodes(Verb(e), Args(e), !e.Cone?);
  }

  /** The argument texts of a box, in the order add_box writes them. */
  lemma BoxArgs(cx: Num, cy: Num, cz: Num, xlen: Num, ylen: Num, zlen: Num,
                r: Num, g: Num, b: Num, roughness: Num, metalness: Num, rx: Num, ry: Num, rz: Num)
    ensures Args(Box(cx, cy, cz, xlen, ylen, zlen, r, g, b, roughness, metalness, rx, ry, rz))
         == [Fmt(cx), Fmt(cy), Fmt(cz), Fmt(xlen), Fmt(ylen), Fmt(zlen), Fmt(r), Fmt(g), Fmt(b),
             Fmt(roughness), Fmt(metalness), Fmt(rx), Fmt(ry), Fmt(rz)]
  {
    RenderFourteen(Params(Box(cx, cy, cz, xlen, ylen, zlen, r, g, b, roughness, metalness, rx, ry, rz)));
  }

  /** The argument texts of a cylinder, in the order add_cylinder writes them. */
  lemma CylinderArgs(cx: Num, cy: Num, cz: Num, radius: Num, height: Num, r: Num, g: Num, b: Num,
                     roughness: Num, metalness: Num, rx: Num, ry: Num, rz: Num, sx: Num, sy: Num, sz: Num)
    ensures Args(Cylinder(cx, cy, cz, radius, height, r, g, b, roughness, metalness, rx, ry, rz, sx, sy, sz))
         == [Fmt(cx), Fmt(cy), Fmt(cz), Fmt(radius), Fmt(height), Fmt(r), Fmt(g), Fmt(b),
             Fmt(roughness), Fmt(metalness), Fmt(rx), Fmt(ry), Fmt(rz), Fmt(sx), Fmt(sy), Fmt(sz)]
  {
    RenderSixteen(Params(Cylinder(cx, cy, cz, radius, height, r, g, b, roughness, metalness, rx, ry, rz, sx, sy, sz)));
  }

  /** The argument texts of a camera, in the order add_camera writes them. */
  lemma CameraArgs(x: Num, y: Num, z: Num, rot: Num)
    ensures Args(Camera(x, y, z, rot)) == [Fmt(x), Fmt(y), Fmt(z), Fmt(rot)]
  {
    RenderFour(Params(Camera(x, y, z, rot)));
  }

  /** The argument texts of a point light, in the order add_point_light writes them. */
  lemma PointLightArgs(x: Num, y: Num, z: Num, r: Num, g: Num, b: Num, intensity: Num)
    ensures Args(PointLight(x, y, z, r, g, b, intensity))
         == [Fmt(x), Fmt(y), Fmt(z), Fmt(r), Fmt(g), Fmt(b), Fmt(intensity)]
  {
    RenderSeven(Params(PointLight(x, y, z, r, g, b, intensity)));
  }

  /** The argument list of a camera's statement, written out. */
  lemma CameraJoined(x: Num, y: Num, z: Num, rot: Num)
    ensures Join(Args(Camera(x, y, z, rot)), ',') == Fmt(x) + "," + (Fmt(y) + "," + (Fmt(z) + "," + Fmt(rot)))
  {
    CameraArgs(x, y, z, rot);
    JoinFour(Fmt(x), Fmt(y), Fmt(z), Fmt(rot), ',');
  }

  /** The argument list of a point light's statement, written out. */
  lemma PointLightJoined(x: Num, y: Num, z: Num, r: Num, g: Num, b: Num, intensity: Num)
    ensures Join(Args(PointLight(x, y, z, r, g, b, intensity)), ',')
         == Fmt(x) + "," + (Fmt(y) + "," + (Fmt(z) + "," + (Fmt(r) + "," + (Fmt(g) + "," + (Fmt(b) + "," + Fmt(intensity))))))
  {
    PointLightArgs(x, y, z, r, g, b, intensity);
    JoinSeven(Fmt(x), Fmt(y), Fmt(z), Fmt(r), Fmt(g), Fmt(b), Fmt(intensity), ',');
  }

  /** A box's statement, written out from left to right. */
  lemma BoxLine(cx: Num, cy: Num, cz: Num, xlen: Num, ylen: Num, zlen: Num,
                r: Num, g: Num, b: Num, roughness: Num, metalness: Num, rx: Num, ry: Num, rz: Num)
    ensures Line(Box(cx, cy, cz, xlen, ylen, zlen, r, g, b, roughness, metalness, rx, ry, rz))
         == Receiver + "addBox" + "(" + Fmt(cx) + "," + Fmt(cy) + "," + Fmt(cz) + "," + Fmt(xlen) + "," + Fmt(ylen) + ","
            + Fmt(zlen) + "," + Fmt(r) + "," + Fmt(g) + "," + Fmt(b) + "," + Fmt(roughness) + "," + Fmt(metalness) + ","
            + Fmt(rx) + "," + Fmt(ry) + "," + Fmt(rz) + ");"
  {
    BoxArgs(cx, cy, cz, xlen, ylen, zlen, r, g, b, roughness, metalness, rx, ry, rz);
    JoinFourteenAfter(Receiver + "addBox" + "(", Fmt(cx), Fmt(cy), Fmt(cz), Fmt(xlen), Fmt(ylen), Fmt(zlen), Fmt(r), Fmt(g), Fmt(b), Fmt(roughness), Fmt(metalness), Fmt(rx), Fmt(ry), Fmt(rz), ',');
  }

  /** add_box and add_ellipsoid write omitted rotations as `0`. */
  lemma RotationDefaults(cx: Num, cy: Num, cz: Num, xlen: Num, ylen: Num, zlen: Num,
                         r: Num, g: Num, b: Num, roughness: Num, metalness: Num)
    ensures Args(Box(cx, cy, cz, xlen, ylen, zlen, r, g, b, roughness, metalness, Int(0), Int(0), Int(0)))[11..]
         == ["0", "0", "0"]
    ensures Args(Ellipsoid(cx, cy, cz, xlen, ylen, zlen, r, g, b, roughness, metalness, Int(0), Int(0), Int(0)))[11..]
         == ["0", "0", "0"]
  {
    RenderFourteen(Params(Box(cx, cy, cz, xlen, ylen, zlen, r, g, b, roughness, metalness, Int(0), Int(0), Int(0))));
    RenderFourteen(Params(Ellipsoid(cx, cy, cz, xlen, ylen, zlen, r, g, b, roughness, metalness, Int(0), Int(0), Int(0))));
  }

  /** add_cylinder and add_cone write omitted rotations as `0` and omitted scales as `1`. */
  lemma ScaleDefaults(cx: Num, cy: Num, cz: Num, radius: Num, height: Num,
                      r: Num, g: Num, b: Num, roughness: Num, metalness: Num)
    ensures Args(Cylinder(cx, cy, cz, radius, height, r, g, b, roughness, metalness, Int(0), Int(0), Int(0), Int(1), Int(1), Int(1)))[10..]
         == ["0", "0", "0", "1", "1", "1"]
    ensures Args(Cone(cx, cy, cz, radius, height, r, g, b, roughness, metalness, Int(0), Int(0), Int(0), Int(1), Int(1), Int(1)))[10..]
         == ["0", "0", "0", "1", "1", "1"]
  {
    RenderSixteen(Params(Cylinder(cx, cy, cz, radius, height, r, g, b, roughness, metalness, Int(0), Int(0), Int(0), Int(1), Int(1), Int(1))));
    RenderSixteen(Params(Cone(cx, cy, cz, radius, height, r, g, b, roughness, metalness, Int(0), Int(0), Int(0), Int(1), Int(1), Int(1))));
  }

  lemma BoxWellFormed(cx: Num, cy: Num, cz: Num, xlen: Num, ylen: Num, zlen: Num, r: Num, g: Num, b: Num, roughness: Num, metalness: Num, rx: Num, ry: Num, rz: Num)
    requires PlainNum(cx) && PlainNum(cy) && PlainNum(cz) && PlainNum(xlen) && PlainNum(ylen) && PlainNum(zlen) && PlainNum(r) && PlainNum(g) && PlainNum(b) && PlainNum(roughness) && PlainNum(metalness) && PlainNum(rx) && PlainNum(ry) && PlainNum(rz)
    ensures WellFormed(Box(cx, cy, cz, xlen, ylen, zlen, r, g, b, roughness, metalness, rx, ry, rz))
  {
  }

  lemma CylinderWellFormed(cx: Num, cy: Num, cz: Num, radius: Num, height: Num, r: Num, g: Num, b: Num, roughness: Num, metalness: Num, rx: Num, ry: Num, rz: Num, sx: Num, sy: Num, sz: Num)
    requires PlainNum(cx) && PlainNum(cy) && PlainNum(cz) && PlainNum(radius) && PlainNum(height) && PlainNum(r) && PlainNum(g) && PlainNum(b) && PlainNum(roughness) && PlainNum(metalness) && PlainNum(rx) && PlainNum(ry) && PlainNum(rz) && PlainNum(sx) && PlainNum(sy) && PlainNum(sz)
    ensures WellFormed(Cylinder(cx, cy, cz, radius, height, r, g, b, roughness, metalness, rx, ry, rz, sx, sy, sz))
  {
  }

  lemma ConeWellFormed(cx: Num, cy: Num, cz: Num, radius: Num, height: Num, r: Num, g: Num, b: Num, roughness: Num, metalness: Num, rx: Num, ry: Num, rz: Num, sx: Num, sy: Num, sz: Num)
    requires PlainNum(cx) && PlainNum(cy) && PlainNum(cz) && PlainNum(radius) && PlainNum(height) && PlainNum(r) && PlainNum(g) && PlainNum(b) && PlainNum(roughness) && PlainNum(metalness) && PlainNum(rx) && PlainNum(ry) && PlainNum(rz) && PlainNum(sx) && PlainNum(sy) && PlainNum(sz)
    ensures WellFormed(Cone(cx, cy, cz, radius, height, r, g, b, roughness, metalness, rx, ry, rz, sx, sy, sz))
  {
  }

  lemma EllipsoidWellFormed(cx: Num, cy: Num, cz: Num, radx: Num, rady: Num, radz: Num, r: Num, g: Num, b: Num, roughness: Num, metalness: Num, rx: Num, ry: Num, rz: Num)
    requires PlainNum(cx) && PlainNum(cy) && PlainNum(cz) && PlainNum(radx) && PlainNum(rady) && PlainNum(radz) && PlainNum(r) && PlainNum(g) && PlainNum(b) && PlainNum(roughness) && PlainNum(metalness) && PlainNum(rx) && PlainNum(ry) && PlainNum(rz)
    ensures WellFormed(Ellipsoid(cx, cy, cz, radx, rady, radz, r, g, b, roughness, metalness, rx, ry, rz))
  {
  }

  lemma MeshWellFormed(path: string, cx: Num, cy: Num, cz: Num, rx: Num, ry: Num, rz: Num, sx: Num, sy: Num, sz: Num, r: Num, g: Num, b: Num, roughness: Num, metalness: Num)
    requires PlainPath(path) && PlainNum(cx) && PlainNum(cy) && PlainNum(cz) && PlainNum(rx) && PlainNum(ry) && PlainNum(rz) && PlainNum(sx) && PlainNum(sy) && PlainNum(sz) && PlainNum(r) && PlainNum(g) && PlainNum(b) && PlainNum(roughness) && PlainNum(metalness)
    ensures WellFormed(Mesh(path, cx, cy, cz, rx, ry, rz, sx, sy, sz, r, g, b, roughness, metalness))
  {
  }

  lemma TexturedMeshWellFormed(path: string, matpath: string, cx: Num, cy: Num, cz: Num, rx: Num, ry: Num, rz: Num, sx: Num, sy: Num, sz: Num, shininess: Num)
    requires PlainPath(path) && PlainPath(matpath) && PlainNum(cx) && PlainNum(cy) && PlainNum(cz) && PlainNum(rx) && PlainNum(ry) && PlainNum(rz) && PlainNum(sx) && PlainNum(sy) && PlainNum(sz) && PlainNum(shininess)
    ensures WellFormed(TexturedMesh(path, matpath, cx, cy, cz, rx, ry, rz, sx, sy, sz, shininess))
  {
  }

  lemma CameraWellFormed(x: Num, y: Num, z: Num, rot: Num)
    requires PlainNum(x) && PlainNum(y) && PlainNum(z) && PlainNum(rot)
    ensures WellFormed(Camera(x, y, z, rot))
  {
  }

  lemma PointLightWellFormed(x: Num, y: Num, z: Num, r: Num, g: Num, b: Num, intensity: Num)
    requires PlainNum(x) && PlainNum(y) && PlainNum(z) && PlainNum(r) && PlainNum(g) && PlainNum(b) && PlainNum(intensity)
    ensures WellFormed(PointLight(x, y, z, r, g, b, intensity))
  {
  }

  lemma DirectionalLightWellFormed(x: Num, y: Num, z: Num, r: Num, g: Num, b: Num, intensity: Num)
    requires PlainNum(x) && PlainNum(y) && PlainNum(z) && PlainNum(r) && PlainNum(g) && PlainNum(b) && PlainNum(intensity)
    ensures WellFormed(DirectionalLight(x, y, z, r, g, b, intensity))
  {
  }

  /** Two well-formed entities give the same statement exactly when they call the same method with the same argument texts. */
  lemma FragmentInjective(e1: Entity, e2: Entity)
    requires WellFormed(e1) && WellFormed(e2)
    ensures Fragment(e1) == Fragment(e2) <==> Verb(e1) == Verb(e2) && Args(e1) == Args(e2) && e1.Cone? == e2.Cone?
  {
    FragmentDecodes(e1);
    FragmentDecodes(e2);
  }

  // ---------------------------------------------------------------------------
  // The buffer, line by line

  const InitLine: string := "let canvas = new SceneCanvas();"

  /** The statement a new builder starts with. */
  const InitStatement: string := InitLine + "\n"

  lemma InitLineUnbroken()
    ensures '\n' !in InitLine
  {
  }

  /** Entities each of which writes exactly one line: well-formed, and not a cone. */
  predicate OneLineEach(es: seq<Entity>)
  {
    forall i :: 0 <= i < |es| ==> WellFormed(es[i]) && !es[i].Cone?
  }

  lemma OneLineEachAppend(a: seq<Entity>, b: seq<Entity>)
    requires OneLineEach(a) && OneLineEach(b)
    ensures OneLineEach(a + b)
  {
    forall i | 0 <= i < |a + b|
      ensures WellFormed((a + b)[i]) && !(a + b)[i].Cone?
    {
      if i >= |a| {
        assert (a + b)[i] == b[i - |a|];
      }
    }
  }

  /** The statements of `es`, one per entity, without line breaks. */
  function Lines(es: seq<Entity>): (ls: seq<string>)
    ensures |ls| == |es|
    ensures forall i :: 0 <= i < |es| ==> ls[i] == Line(es[i])
  {
    if |es| == 0 then [] else [Line(es[0])] + Lines(es[1..])
  }

  lemma StatementUnbroken(verb: string, args: seq<string>)
    requires '\n' !in verb
    requires forall i :: 0 <= i < |args| ==> '\n' !in args[i]
    ensures '\n' !in Statement(verb, args, false)
  {
    JoinAvoids(args, ',', '\n');
  }

  lemma LineHasNoBreak(e: Entity)
    requires WellFormed(e)
    ensures '\n' !in Line(e)
  {
    ArgsPlain(e);
    StatementUnbroken(Verb(e), Args(e));
  }

  lemma {:induction false} ScriptLines(es: seq<Entity>)
    requires OneLineEach(es)
    ensures Split(Script(es), '\n') == Lines(es) + [""]
    decreases |es|
  {
    if |es| > 0 {
      var e := es[0];
      assert Fragment(e) == Line(e) + "\n";
      assert Script(es) == Line(e) + ['\n'] + Script(es[1..]);
      SplitAround(Line(e), '\n', Script(es[1..]));
      LineHasNoBreak(e);
      SplitWithoutSeparator(Line(e), '\n');
      ScriptLines(es[1..]);
    }
  }

  lemma LinesAfter(first: string, es: seq<Entity>)
    requires '\n' !in first
    requires OneLineEach(es)
    ensures Split(first + "\n" + Script(es), '\n') == [first] + Lines(es) + [""]
  {
    assert first + "\n" + Script(es) == first + ['\n'] + Script(es);
    SplitAround(first, '\n', Script(es));
    SplitWithoutSeparator(first, '\n');
    ScriptLines(es);
  }

  /**
    Read line by line, a buffer without cones is the initial statement and then
    one line per call, in call order, with nothing after the last line break.
   */
  lemma BufferLines(es: seq<Entity>)
    requires OneLineEach(es)
    ensures Split(InitStatement + Script(es), '\n') == [InitLine] + Lines(es) + [""]
  {
    InitLineUnbroken();
    LinesAfter(InitLine, es);
  }

  /**
    A cone's statement has no line break of its own, so the statement added
    after it continues the same line.
   */
  lemma ConeSharesLine(c: Entity, e: Entity)
    requires c.Cone? && WellFormed(c)
    requires WellFormed(e) && !e.Cone?
    ensures Fragment(c) == Line(c)
    ensures Split(Fragment(c) + Fragment(e), '\n') == [Line(c) + Line(e), ""]
  {
    LineHasNoBreak(c);
    LineHasNoBreak(e);
    assert Fragment(c) + Fragment(e) == (Line(c) + Line(e)) + ['\n'] + "";
    SplitAround(Line(c) + Line(e), '\n', "");
    SplitWithoutSeparator(Line(c) + Line(e), '\n');
  }

  // ---------------------------------------------------------------------------
  // The saved page

  const HtmlPrefix: string :=
    "<!DOCTYPE html>\n"
    + "<html>\n"
    + "    <head>\n"
    + "        <meta charset=\"utf-8\"/>\n"
    + "    </head>\n"
    + "    <body>\n"
    + "        <!-- three.js scripts -->\n"
    + "        <!-- startup three.js -->\n"
    + "        <script src=\"jsmodules/three.min.js\"></script>\n"
    + "        <script src=\"jsmodules/three.module.js\"></script>\n"
    + "        <script src=\"jsmodules/gif.js\"></script>\n"
    + "        <!-- load models and look at them-->\n"
    + "        <script src=\"jsmodules/OBJLoader.js\"></script>\n"
    + "        <script src=\"jsmodules/MTLLoader.js\"></script>\n"
    + "        <!-- postprocessing -->\n"
    + "        <script src=\"jsmodules/CopyShader.js\"></script>\n"
    + "        <script src=\"jsmodules/Pass.js\"></script>\n"
    + "        <script src=\"jsmodules/ShaderPass.js\"></script>\n"
    + "        <script src=\"jsmodules/MaskPass.js\"></script>\n"
    + "        <script src=\"jsmodules/EffectComposer.js\"></script>\n"
    + "        <script src=\"jsmodules/RenderPass.js\"></script>\n"
    + "        <script src=\"jsmodules/DigitalGlitch.js\"></script>\n"
    + "        <script src=\"jsmodules/GlitchPass.js\"></script>\n"
    + "\n"
    + "        <!--Other outside libraries -->\n"
    + "        <script type=\"text/javascript\" src=\"jsmodules/jquery-3.5.1.min.js\"></script>\n"
    + "        <script type=\"text/javascript\" src=\"jsmodules/dat.gui.min.js\"></script>\n"
    + "        <script type=\"text/javascript\" src=\"jsmodules/gl-matrix-min.js\"></script>\n"
    + "\n"
    + "        <!-- Our code -->\n"
    + "        <script type=\"text/javascript\" src=\"cameras3d.js\"></script>\n"
    + "        <script type=\"text/javascript\" src=\"scenecanvas.js\"></script>\n"
    + "\n"
    + "\n"

  const HtmlEnd: string :=
    "<table cellpadding>\n"
    + "    <tr>\n"
    + "        <td>\n"
    + "            <h3>Controls</h3>\n"
    + "            <ul>\n"
    + "                <li><b>Mouse</b>: Click and drag to look around</li>\n"
    + "                <li><b>W:</b> Forward</li>\n"
    + "                <li><b>S:</b> Backwards</li>\n"
    + "                <li><b>A:</b> Left</li>\n"
    + "                <li><b>D:</b> Right</li>\n"
    + "                <li><b>E:</b> Up</li>\n"
    + "                <li><b>C:</b> Down</li>\n"
    + "            </ul>\n"
    + "        </td>\n"
    + "    </tr>\n"
    + "</table>\n"
    + "    </body>\n"
    + "</html>"

  /** The pieces save_scene puts around the buffer and the name. */
  const ScriptOpen: string := "<script>\n"
  const NameOpen: string := "canvas.name = \""
  const NameClose: string := "\";\n"
  const ScriptClose: string := "canvas.repaint();\n</script>"

  /** Everything of the page before the buffer. */
  const PageHead: string := HtmlPrefix + ScriptOpen
  /** Everything of the page after the scene's name. */
  const PageTail: string := NameClose + ScriptClose + HtmlEnd

  /**
    The page save_scene writes: the prefix, the script opened, the buffer, the
    name assignment, the repaint statement, the script closed, the suffix.
   */
  function BuildHtml(code: string, name: string): string
  {
    HtmlPrefix + ScriptOpen + code + NameOpen + name + NameClose + ScriptClose + HtmlEnd
  }

  /** What a page carries: the script buffer and the scene's name. */
  datatype Page = Page(code: string, name: string)

  /**
    Strips `head` and `tail` off `html`; what is left must end in `open`
    followed by the name, with the last double quote closing `open`.
   */
  function ParsePage(html: string, head: string, open: string, tail: string): Option<Page>
  {
    if |html| < |head| + |tail| then None
    else if html[..|head|] != head || html[|html| - |tail|..] != tail then None
    else
      var middle := html[|head|..|html| - |tail|];
      match LastIndexOf(middle, '"')
      case None => None
      case Some(q) =>
        if q + 1 < |open| || middle[q + 1 - |open|..q + 1] != open then None
        else Some(Page(middle[..q + 1 - |open|], middle[q + 1..]))
  }

  /** Reads the buffer and the name back out of a saved page. */
  function ParseHtml(html: string): Option<Page>
  {
    ParsePage(html, PageHead, NameOpen, PageTail)
  }

  lemma NameOpenEndsInQuote()
    ensures |NameOpen| > 0 && NameOpen[|NameOpen| - 1] == '"'
  {
  }

  lemma Regroup8(a: string, b: string, c: string, d: string, e: string, f: string, g: string, h: string)
    ensures a + b + c + d + e + f + g + h == (a + b) + c + d + e + (f + g + h)
  {
  }

  lemma PageShape(code: string, name: string)
    ensures BuildHtml(code, name) == PageHead + code + NameOpen + name + PageTail
  {
    Regroup8(HtmlPrefix, ScriptOpen, code, NameOpen, name, NameClose, ScriptClose, HtmlEnd);
  }

  lemma Regroup(head: string, code: string, open: string, name: string, tail: string)
    ensures head + code + open + name + tail == head + (code + open + name) + tail
  {
  }

  lemma StripEnds(head: string, middle: string, tail: string)
    ensures |head + middle + tail| >= |head| + |tail|
    ensures (head + middle + tail)[..|head|] == head
    ensures (head + middle + tail)[|head + middle + tail| - |tail|..] == tail
    ensures (head + middle + tail)[|head|..|head + middle + tail| - |tail|] == middle
  {
  }

  lemma SplitName(code: string, open: string, name: string)
    requires |open| > 0 && open[|open| - 1] == '"'
    requires '"' !in name
    ensures LastIndexOf(code + open + name, '"') == Some(|code| + |open| - 1)
  {
    var s := code + open + name;
    var i := |code| + |open| - 1;
    assert s[i] == open[|open| - 1];
    assert s[i + 1..] == name;
    LastIndexOfAt(s, '"', i);
  }

  lemma ThreeParts(a: string, b: string, c: string)
    ensures (a + b + c)[..|a|] == a
    ensures (a + b + c)[|a|..|a| + |b|] == b
    ensures (a + b + c)[|a| + |b|..] == c
  {
  }

  lemma PageRoundTrip(head: string, open: string, tail: string, code: string, name: string)
    requires |open| > 0 && open[|open| - 1] == '"'
    requires '"' !in name
    ensures ParsePage(head + code + open + name + tail, head, open, tail) == Some(Page(code, name))
  {
    var middle := code + open + name;
    Regroup(head, code, open, name, tail);
    StripEnds(head, middle, tail);
    SplitName(code, open, name);
    ThreeParts(code, open, name);
  }

  /**
    A saved page determines the buffer and the name it was built from, as long
    as the name holds no double quote (names are quoted, never escaped).
   */
  lemma HtmlRoundTrip(code: string, name: string)
    requires '"' !in name
    ensures ParseHtml(BuildHtml(code, name)) == Some(Page(code, name))
  {
    PageShape(code, name);
    NameOpenEndsInQuote();
    PageRoundTrip(PageHead, NameOpen, PageTail, code, name);
  }

  // ---------------------------------------------------------------------------
  // The builder

  class Scene3D {
    /** The script text accumulated so far. */
    var sceneCode: string
    /** The entities added so far, in call order. */
    ghost var calls: seq<Entity>

    ghost predicate Valid()
      reads this
    {
      sceneCode == InitStatement + Script(calls)
    }

    constructor ()
      ensures Valid() && calls == []
      ensures sceneCode == "let canvas = new SceneCanvas();\n"
    {
      sceneCode := InitStatement;
      calls := [];
    }

    /** Appends the fragment of `e` to the buffer and `e` to the log. */
    method Append(e: Entity)
      requires Valid()
      modifies this
      ensures Valid()
      ensures calls == old(calls) + [e]
      ensures sceneCode == old(sceneCode) + Fragment(e)
    {
      BufferGrows(InitStatement, sceneCode, calls, e);
      sceneCode := sceneCode + Fragment(e);
      calls := calls + [e];
    }

    method AddBox(cx: Num, cy: Num, cz: Num, xlen: Num, ylen: Num, zlen: Num,
                  r: Num, g: Num, b: Num, roughness: Num, metalness: Num,
                  rx: Num := Int(0), ry: Num := Int(0), rz: Num := Int(0))
      requires Valid()
      modifies this
      ensures Valid()
      ensures calls == old(calls) + [Box(cx, cy, cz, xlen, ylen, zlen, r, g, b, roughness, metalness, rx, ry, rz)]
      ensures sceneCode == old(sceneCode) + Fragment(Box(cx, cy, cz, xlen, ylen, zlen, r, g, b, roughness, metalness, rx, ry, rz))
    {
      var e := Box(cx, cy, cz, xlen, ylen, zlen, r, g, b, roughness, metalness, rx, ry, rz);
      Append(e);
    }

    method AddCylinder(cx: Num, cy: Num, cz: Num, radius: Num, height: Num,
                       r: Num, g: Num, b: Num, roughness: Num, metalness: Num,
                       rx: Num := Int(0), ry: Num := Int(0), rz: Num := Int(0),
                       sx: Num := Int(1), sy: Num := Int(1), sz: Num := Int(1))
      requires Valid()
      modifies this
      ensures Valid()
      ensures calls == old(calls) + [Cylinder(cx, cy, cz, radius, height, r, g, b, roughness, metalness, rx, ry, rz, sx, sy, sz)]
      ensures sceneCode == old(sceneCode) + Fragment(Cylinder(cx, cy, cz, radius, height, r, g, b, roughness, metalness, rx, ry, rz, sx, sy, sz))
    {
      var e := Cylinder(cx, cy, cz, radius, height, r, g, b, roughness, metalness, rx, ry, rz, sx, sy, sz);
      Append(e);
    }

    method AddCone(cx: Num, cy: Num, cz: Num, radius: Num, height: Num,
                   r: Num, g: Num, b: Num, roughness: Num, metalness: Num,
                   rx: Num := Int(0), ry: Num := Int(0), rz: Num := Int(0),
                   sx: Num := Int(1), sy: Num := Int(1), sz: Num := Int(1))
      requires Valid()
      modifies this
      ensures Valid()
      ensures calls == old(calls) + [Cone(cx, cy, cz, radius, height, r, g, b, roughness, metalness, rx, ry, rz, sx, sy, sz)]
      ensures sceneCode == old(sceneCode) + Fragment(Cone(cx, cy, cz, radius, height, r, g, b, roughness, metalness, rx, ry, rz, sx, sy, sz))
    {
      var e := Cone(cx, cy, cz, radius, height, r, g, b, roughness, metalness, rx, ry, rz, sx, sy, sz);
      Append(e);
    }

    method AddEllipsoid(cx: Num, cy: Num, cz: Num, radx: Num, rady: Num, radz: Num,
                        r: Num, g: Num, b: Num, roughness: Num, metalness: Num,
                        rx: Num := Int(0), ry: Num := Int(0), rz: Num := Int(0))
      requires Valid()
      modifies this
      ensures Valid()
      ensures calls == old(calls) + [Ellipsoid(cx, cy, cz, radx, rady, radz, r, g, b, roughness, metalness, rx, ry, rz)]
      ensures sceneCode == old(sceneCode) + Fragment(Ellipsoid(cx, cy, cz, radx, rady, radz, r, g, b, roughness, metalness, rx, ry, rz))
    {
      var e := Ellipsoid(cx, cy, cz, radx, rady, radz, r, g, b, roughness, metalness, rx, ry, rz);
      Append(e);
    }

    /** A sphere is an ellipsoid with three equal radii and the default (zero) rotation. */
    method AddSphere(cx: Num, cy: Num, cz: Num, radius: Num,
                     r: Num, g: Num, b: Num, roughness: Num, metalness: Num)
      requires Valid()
      modifies this
      ensures Valid()
      ensures calls == old(calls) + [Ellipsoid(cx, cy, cz, radius, radius, radius, r, g, b, roughness, metalness, Int(0), Int(0), Int(0))]
      ensures sceneCode == old(sceneCode) + Fragment(Ellipsoid(cx, cy, cz, radius, radius, radius, r, g, b, roughness, metalness, Int(0), Int(0), Int(0)))
    {
      AddEllipsoid(cx, cy, cz, radius, radius, radius, r, g, b, roughness, metalness);
    }

    method AddMesh(path: string, cx: Num, cy: Num, cz: Num,
                   rx: Num, ry: Num, rz: Num, sx: Num, sy: Num, sz: Num,
                   r: Num, g: Num, b: Num, roughness: Num, metalness: Num)
      requires Valid()
      modifies this
      ensures Valid()
      ensures calls == old(calls) + [Mesh(path, cx, cy, cz, rx, ry, rz, sx, sy, sz, r, g, b, roughness, metalness)]
      ensures sceneCode == old(sceneCode) + Fragment(Mesh(path, cx, cy, cz, rx, ry, rz, sx, sy, sz, r, g, b, roughness, metalness))
    {
      var e := Mesh(path, cx, cy, cz, rx, ry, rz, sx, sy, sz, r, g, b, roughness, metalness);
      Append(e);
    }

    method AddTexturedMesh(path: string, matpath: string, cx: Num, cy: Num, cz: Num,
                           rx: Num, ry: Num, rz: Num, sx: Num, sy: Num, sz: Num,
                           shininess: Num)
      requires Valid()
      modifies this
      ensures Valid()
      ensures calls == old(calls) + [TexturedMesh(path, matpath, cx, cy, cz, rx, ry, rz, sx, sy, sz, shininess)]
      ensures sceneCode == old(sceneCode) + Fragment(TexturedMesh(path, matpath, cx, cy, cz, rx, ry, rz, sx, sy, sz, shininess))
    {
      var e := TexturedMesh(path, matpath, cx, cy, cz, rx, ry, rz, sx, sy, sz, shininess);
      Append(e);
    }

    method AddCamera(x: Num, y: Num, z: Num, rot: Num)
      requires Valid()
      modifies this
      ensures Valid()
      ensures calls == old(calls) + [Camera(x, y, z, rot)]
      ensures sceneCode == old(sceneCode) + Fragment(Camera(x, y, z, rot))
    {
      var e := Camera(x, y, z, rot);
      Append(e);
    }

    method AddPointLight(x: Num, y: Num, z: Num, r: Num, g: Num, b: Num, intensity: Num)
      requires Valid()
      modifies this
      ensures Valid()
      ensures calls == old(calls) + [PointLight(x, y, z, r, g, b, intensity)]
      ensures sceneCode == old(sceneCode) + Fragment(PointLight(x, y, z, r, g, b, intensity))
    {
      var e := PointLight(x, y, z, r, g, b, intensity);
      Append(e);
    }

    method AddDirectionalLight(x: Num, y: Num, z: Num, r: Num, g: Num, b: Num, intensity: Num)
      requires Valid()
      modifies this
      ensures Valid()
      ensures calls == old(calls) + [DirectionalLight(x, y, z, r, g, b, intensity)]
      ensures sceneCode == old(sceneCode) + Fragment(DirectionalLight(x, y, z, r, g, b, intensity))
    {
      var e := DirectionalLight(x, y, z, r, g, b, intensity);
      Append(e);
    }

    /**
      The page save_scene would write for this scene. It only reads the
      buffer, so saving again without adding anything gives the same page.
     */
    method SaveScene(sceneName: string) returns (html: string)
      ensures html == BuildHtml(sceneCode, sceneName)
      ensures '"' !in sceneName ==> ParseHtml(html) == Some(Page(sceneCode, sceneName))
    {
      html := HtmlPrefix + ScriptOpen;
      html := html + sceneCode;
      html := html + NameOpen + sceneName + NameClose;
      html := html + ScriptClose;
      html := html + HtmlEnd;
      if '"' !in sceneName {
        HtmlRoundTrip(sceneCode, sceneName);
      }
    }
  }
}
