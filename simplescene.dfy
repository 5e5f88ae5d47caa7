/**
  The two client routines of simplescene.py: `DrawSign` adds a sign (a pole and
  a board) to a scene, and `DrawScene` builds the sample city-block scene.
 */
module SimpleScene {
  import opened Text
  import opened Scene3D

  /** The pole of a sign: a grey cylinder of radius 0.05 and height 2, centred at (cx, 1, cz). */
  function Pole(cx: Num, cz: Num): Entity
  {
    Cylinder(cx, Int(1), cz, Float("0.05"), Int(2), Int(127), Int(127), Int(127), Int(1), Int(0),
             Int(0), Int(0), Int(0), Int(1), Int(1), Int(1))
  }

  /**
    The board of a sign, centred at (cx, 2, cz) in the caller's colour: thin
    along z when it faces east-west, thin along x otherwise.
   */
  function Board(cx: Num, cz: Num, isEastWest: bool, r: Num, g: Num, b: Num): Entity
  {
    if isEastWest then
      Box(cx, Int(2), cz, Float("0.5"), Float("0.5"), Float("0.1"), r, g, b, Int(1), Int(0),
          Int(0), Int(0), Int(0))
    else
      Box(cx, Int(2), cz, Float("0.1"), Float("0.5"), Float("0.5"), r, g, b, Int(1), Int(0),
          Int(0), Int(0), Int(0))
  }

  /** The calls draw_sign makes, in order. */
  function Sign(cx: Num, cz: Num, isEastWest: bool, r: Num, g: Num, b: Num): seq<Entity>
  {
    [Pole(cx, cz), Board(cx, cz, isEastWest, r, g, b)]
  }

  /** Appending two entries one after the other appends the pair. */
  lemma AppendTwo(s: seq<Entity>, a: Entity, b: Entity)
    ensures s + [a] + [b] == s + [a, b]
  {
  }

  method DrawSign(scene: Scene3D, cx: Num, cz: Num, isEastWest: bool, r: Num, g: Num, b: Num)
    requires scene.Valid()
    modifies scene
    ensures scene.Valid()
    ensures scene.calls == old(scene.calls) + Sign(cx, cz, isEastWest, r, g, b)
    ensures scene.sceneCode == old(scene.sceneCode) + Fragment(Pole(cx, cz)) + Fragment(Board(cx, cz, isEastWest, r, g, b))
  {
    ghost var before := scene.calls;
    scene.AddCylinder(cx, Int(1), cz, Float("0.05"), Int(2), Int(127), Int(127), Int(127), Int(1), Int(0));
    if isEastWest {
      scene.AddBox(cx, Int(2), cz, Float("0.5"), Float("0.5"), Float("0.1"), r, g, b, Int(1), Int(0));
    } else {
      scene.AddBox(cx, Int(2), cz, Float("0.1"), Float("0.5"), Float("0.5"), r, g, b, Int(1), Int(0));
    }
    AppendTwo(before, Pole(cx, cz), Board(cx, cz, isEastWest, r, g, b));
  }

  /** The integers a sign writes, as Python renders them. */
  lemma SignIntegers()
    ensures IntText(0) == "0" && IntText(1) == "1" && IntText(2) == "2" && IntText(127) == "127"
  {
    assert Digits(12) == "12";
  }

  lemma PoleArgs(cx: Num, cz: Num)
    ensures Args(Pole(cx, cz))
      == [Fmt(cx), "1", Fmt(cz), "0.05", "2", "127", "127", "127", "1", "0", "0", "0", "0", "1", "1", "1"]
  {
    SignIntegers();
    CylinderArgs(cx, Int(1), cz, Float("0.05"), Int(2), Int(127), Int(127), Int(127), Int(1), Int(0),
                 Int(0), Int(0), Int(0), Int(1), Int(1), Int(1));
  }

  lemma BoardArgs(cx: Num, cz: Num, isEastWest: bool, r: Num, g: Num, b: Num)
    ensures Args(Board(cx, cz, isEastWest, r, g, b))
      == [Fmt(cx), "2", Fmt(cz), if isEastWest then "0.5" else "0.1", "0.5", if isEastWest then "0.1" else "0.5",
          Fmt(r), Fmt(g), Fmt(b), "1", "0", "0", "0", "0"]
  {
    SignIntegers();
    if isEastWest {
      BoxArgs(cx, Int(2), cz, Float("0.5"), Float("0.5"), Float("0.1"), r, g, b, Int(1), Int(0), Int(0), Int(0), Int(0));
    } else {
      BoxArgs(cx, Int(2), cz, Float("0.1"), Float("0.5"), Float("0.5"), r, g, b, Int(1), Int(0), Int(0), Int(0), Int(0));
    }
  }

  /** A sign's pole reads back as a grey cylinder whose only varying arguments are its position. */
  lemma PoleStatement(cx: Num, cz: Num)
    requires PlainNum(cx) && PlainNum(cz)
    ensures Decode(Fragment(Pole(cx, cz))) == Some(Call("addCylinder",
      [Fmt(cx), "1", Fmt(cz), "0.05", "2", "127", "127", "127", "1", "0", "0", "0", "0", "1", "1", "1"], true))
  {
    PoleWellFormed(cx, cz);
    FragmentDecodes(Pole(cx, cz));
    PoleArgs(cx, cz);
  }

  /**
    A sign's board reads back as a box in the caller's colour, thin along z
    when the sign faces east-west and thin along x otherwise.
   */
  lemma BoardStatement(cx: Num, cz: Num, isEastWest: bool, r: Num, g: Num, b: Num)
    requires PlainNum(cx) && PlainNum(cz) && PlainNum(r) && PlainNum(g) && PlainNum(b)
    ensures Decode(Fragment(Board(cx, cz, isEastWest, r, g, b))) == Some(Call("addBox",
      [Fmt(cx), "2", Fmt(cz), if isEastWest then "0.5" else "0.1", "0.5", if isEastWest then "0.1" else "0.5",
       Fmt(r), Fmt(g), Fmt(b), "1", "0", "0", "0", "0"], true))
  {
    BoardWellFormed(cx, cz, isEastWest, r, g, b);
    FragmentDecodes(Board(cx, cz, isEastWest, r, g, b));
    BoardArgs(cx, cz, isEastWest, r, g, b);
  }

  lemma BoardWellFormed(cx: Num, cz: Num, isEastWest: bool, r: Num, g: Num, b: Num)
    requires PlainNum(cx) && PlainNum(cz) && PlainNum(r) && PlainNum(g) && PlainNum(b)
    ensures WellFormed(Board(cx, cz, isEastWest, r, g, b))
  {
    assert PlainNum(Float("0.5")) && PlainNum(Float("0.1"));
    if isEastWest {
      BoxWellFormed(cx, Int(2), cz, Float("0.5"), Float("0.5"), Float("0.1"), r, g, b, Int(1), Int(0), Int(0), Int(0), Int(0));
    } else {
      BoxWellFormed(cx, Int(2), cz, Float("0.1"), Float("0.5"), Float("0.5"), r, g, b, Int(1), Int(0), Int(0), Int(0), Int(0));
    }
  }

  /** Two boards at the same place and orientation have the same statement exactly when their colours render alike. */
  lemma BoardShowsColour(cx: Num, cz: Num, isEastWest: bool, r: Num, g: Num, b: Num, r': Num, g': Num, b': Num)
    requires PlainNum(cx) && PlainNum(cz) && PlainNum(r) && PlainNum(g) && PlainNum(b)
    requires PlainNum(r') && PlainNum(g') && PlainNum(b')
    ensures Fragment(Board(cx, cz, isEastWest, r, g, b)) == Fragment(Board(cx, cz, isEastWest, r', g', b'))
        <==> Fmt(r) == Fmt(r') && Fmt(g) == Fmt(g') && Fmt(b) == Fmt(b')
  {
    var one, other := Board(cx, cz, isEastWest, r, g, b), Board(cx, cz, isEastWest, r', g', b');
    BoardArgs(cx, cz, isEastWest, r, g, b);
    BoardArgs(cx, cz, isEastWest, r', g', b');
    BoardWellFormed(cx, cz, isEastWest, r, g, b);
    BoardWellFormed(cx, cz, isEastWest, r', g', b');
    FragmentInjective(one, other);
    if Args(one) == Args(other) {
      assert Args(one)[6] == Fmt(r) && Args(one)[7] == Fmt(g) && Args(one)[8] == Fmt(b);
      assert Args(other)[6] == Fmt(r') && Args(other)[7] == Fmt(g') && Args(other)[8] == Fmt(b');
    }
  }

  // ---------------------------------------------------------------------------
  // The sample scene

  const SceneName: string := "Simple Sample Scene"

  /** The four white point lights, one on each side of the block. */
  function Lights(): seq<Entity>
  {
    [PointLight(Int(-100), Int(200), Int(0), Int(200), Int(200), Int(200), Float("1.0")),
     PointLight(Int(100), Int(200), Int(0), Int(200), Int(200), Int(200), Float("1.0")),
     PointLight(Int(0), Int(0), Int(-100), Int(200), Int(200), Int(200), Float("1.0")),
     PointLight(Int(0), Int(0), Int(100), Int(200), Int(200), Int(200), Float("1.0"))]
  }

  /** Two viewpoints at eye height: one at the origin and one 40 units down the z axis, turned around. */
  function Cameras(): seq<Entity>
  {
    [Camera(Int(0), Int(2), Int(0), Int(0)),
     Camera(Int(0), Int(2), Int(-40), Int(180))]
  }

  /** The large grey box that stands for the ground. */
  function Ground(): Entity
  {
    Box(Int(0), Int(-25), Int(0), Int(1000), Int(50), Int(1000), Int(100), Int(100), Int(100), Int(1), Int(0),
        Int(0), Int(0), Int(0))
  }

  /** A red sign facing east-west, two units left and five ahead, and a green one facing north-south, ten ahead. */
  function Signs(): seq<Entity>
  {
    Sign(Int(-2), Int(-5), true, Int(255), Int(0), Int(0))
    + Sign(Int(0), Int(-10), false, Int(0), Int(255), Int(0))
  }

  /** The cyan cow. */
  function Cow(): Entity
  {
    Mesh("meshes/cow.obj", Int(1), Int(1), Int(-7), Int(0), Int(0), Int(0), Int(1), Int(1), Int(1),
         Int(0), Int(255), Int(255), Int(1), Int(0))
  }

  /** The smokestack, a mesh with its own material file. */
  function Smokestack(): Entity
  {
    TexturedMesh("meshes/smokestack/medres.obj", "meshes/smokestack/medres.mtl",
                 Int(0), Int(18), Int(-20), Int(0), Int(180), Int(0), Int(10), Int(10), Int(10), Int(0))
  }

  /** Everything draw_scene adds, in order. */
  function SampleScene(): (es: seq<Entity>)
    ensures |es| == 13
  {
    Lights() + Cameras() + [Ground()] + Signs() + [Cow(), Smokestack()]
  }

  lemma GatherLights(s: seq<Entity>, l1: Entity, l2: Entity, l3: Entity, l4: Entity)
    ensures s + [l1] + [l2] + [l3] + [l4] == s + [l1, l2, l3, l4]
  {
  }

  lemma AppendBoth(s: seq<Entity>, a: seq<Entity>, b: seq<Entity>)
    ensures s + a + b == s + (a + b)
  {
  }

  lemma GatherScene(lights: seq<Entity>, cameras: seq<Entity>, ground: Entity, signs: seq<Entity>, props: seq<Entity>)
    ensures [] + lights + cameras + [ground] + signs + props == lights + cameras + [ground] + signs + props
  {
  }

  /** The lights of draw_scene. */
  method AddLights(scene: Scene3D)
    requires scene.Valid()
    modifies scene
    ensures scene.Valid()
    ensures scene.calls == old(scene.calls) + Lights()
  {
    ghost var before := scene.calls;
    scene.AddPointLight(Int(-100), Int(200), Int(0), Int(200), Int(200), Int(200), Float("1.0"));
    scene.AddPointLight(Int(100), Int(200), Int(0), Int(200), Int(200), Int(200), Float("1.0"));
    scene.AddPointLight(Int(0), Int(0), Int(-100), Int(200), Int(200), Int(200), Float("1.0"));
    scene.AddPointLight(Int(0), Int(0), Int(100), Int(200), Int(200), Int(200), Float("1.0"));
    GatherLights(before,
      PointLight(Int(-100), Int(200), Int(0), Int(200), Int(200), Int(200), Float("1.0")),
      PointLight(Int(100), Int(200), Int(0), Int(200), Int(200), Int(200), Float("1.0")),
      PointLight(Int(0), Int(0), Int(-100), Int(200), Int(200), Int(200), Float("1.0")),
      PointLight(Int(0), Int(0), Int(100), Int(200), Int(200), Int(200), Float("1.0")));
  }

  /** The cameras of draw_scene. */
  method AddCameras(scene: Scene3D)
    requires scene.Valid()
    modifies scene
    ensures scene.Valid()
    ensures scene.calls == old(scene.calls) + Cameras()
  {
    ghost var before := scene.calls;
    scene.AddCamera(Int(0), Int(2), Int(0), Int(0));
    scene.AddCamera(Int(0), Int(2), Int(-40), Int(180));
    AppendTwo(before, Camera(Int(0), Int(2), Int(0), Int(0)), Camera(Int(0), Int(2), Int(-40), Int(180)));
  }

  /** The two signs of draw_scene. */
  method AddSigns(scene: Scene3D)
    requires scene.Valid()
    modifies scene
    ensures scene.Valid()
    ensures scene.calls == old(scene.calls) + Signs()
  {
    ghost var before := scene.calls;
    DrawSign(scene, Int(-2), Int(-5), true, Int(255), Int(0), Int(0));
    DrawSign(scene, Int(0), Int(-10), false, Int(0), Int(255), Int(0));
    AppendBoth(before, Sign(Int(-2), Int(-5), true, Int(255), Int(0), Int(0)),
      Sign(Int(0), Int(-10), false, Int(0), Int(255), Int(0)));
  }

  /** The cow and the smokestack of draw_scene. */
  method AddProps(scene: Scene3D)
    requires scene.Valid()
    modifies scene
    ensures scene.Valid()
    ensures scene.calls == old(scene.calls) + [Cow(), Smokestack()]
  {
    ghost var before := scene.calls;
    scene.AddMesh("meshes/cow.obj", Int(1), Int(1), Int(-7), Int(0), Int(0), Int(0), Int(1), Int(1), Int(1),
                  Int(0), Int(255), Int(255), Int(1), Int(0));
    scene.AddTexturedMesh("meshes/smokestack/medres.obj", "meshes/smokestack/medres.mtl",
                          Int(0), Int(18), Int(-20), Int(0), Int(180), Int(0), Int(10), Int(10), Int(10), Int(0));
    AppendTwo(before, Cow(), Smokestack());
  }

  /** A new builder holding the sample scene. */
  method BuildScene() returns (scene: Scene3D)
    ensures fresh(scene) && scene.Valid()
    ensures scene.calls == SampleScene()
  {
    GatherScene(Lights(), Cameras(), Ground(), Signs(), [Cow(), Smokestack()]);
    scene := new Scene3D();
    AddLights(scene);
    AddCameras(scene);
    scene.AddBox(Int(0), Int(-25), Int(0), Int(1000), Int(50), Int(1000), Int(100), Int(100), Int(100), Int(1), Int(0));
    AddSigns(scene);
    AddProps(scene);
  }

  /** The sample scene, saved under its title. */
  method DrawScene() returns (scene: Scene3D, html: string)
    ensures fresh(scene) && scene.Valid()
    ensures scene.calls == SampleScene()
    ensures html == BuildHtml(scene.sceneCode, SceneName)
  {
    scene := BuildScene();
    html := scene.SaveScene(SceneName);
  }

  lemma LightsOneLine()
    ensures OneLineEach(Lights())
  {
    assert PlainNum(Float("1.0"));
    PointLightWellFormed(Int(-100), Int(200), Int(0), Int(200), Int(200), Int(200), Float("1.0"));
    PointLightWellFormed(Int(100), Int(200), Int(0), Int(200), Int(200), Int(200), Float("1.0"));
    PointLightWellFormed(Int(0), Int(0), Int(-100), Int(200), Int(200), Int(200), Float("1.0"));
    PointLightWellFormed(Int(0), Int(0), Int(100), Int(200), Int(200), Int(200), Float("1.0"));
  }

  lemma CamerasOneLine()
    ensures OneLineEach(Cameras())
  {
    CameraWellFormed(Int(0), Int(2), Int(0), Int(0));
    CameraWellFormed(Int(0), Int(2), Int(-40), Int(180));
  }

  lemma GroundOneLine()
    ensures OneLineEach([Ground()])
  {
    BoxWellFormed(Int(0), Int(-25), Int(0), Int(1000), Int(50), Int(1000), Int(100), Int(100), Int(100), Int(1), Int(0),
                  Int(0), Int(0), Int(0));
  }

  lemma PoleWellFormed(cx: Num, cz: Num)
    requires PlainNum(cx) && PlainNum(cz)
    ensures WellFormed(Pole(cx, cz))
  {
    assert PlainNum(Float("0.05"));
    CylinderWellFormed(cx, Int(1), cz, Float("0.05"), Int(2), Int(127), Int(127), Int(127), Int(1), Int(0),
                       Int(0), Int(0), Int(0), Int(1), Int(1), Int(1));
  }

  lemma SignsOneLine()
    ensures OneLineEach(Signs())
  {
    PoleWellFormed(Int(-2), Int(-5));
    PoleWellFormed(Int(0), Int(-10));
    BoardWellFormed(Int(-2), Int(-5), true, Int(255), Int(0), Int(0));
    BoardWellFormed(Int(0), Int(-10), false, Int(0), Int(255), Int(0));
  }

  lemma CowPathPlain()
    ensures PlainPath("meshes/cow.obj")
  {
  }

  lemma SmokestackPathsPlain()
    ensures PlainPath("meshes/smokestack/medres.obj")
  {
  }

  lemma SmokestackMaterialPlain()
    ensures PlainPath("meshes/smokestack/medres.mtl")
  {
  }

  lemma PropsOneLine()
    ensures OneLineEach([Cow(), Smokestack()])
  {
    CowPathPlain();
    SmokestackPathsPlain();
    SmokestackMaterialPlain();
    MeshWellFormed("meshes/cow.obj", Int(1), Int(1), Int(-7), Int(0), Int(0), Int(0), Int(1), Int(1), Int(1),
                   Int(0), Int(255), Int(255), Int(1), Int(0));
    TexturedMeshWellFormed("meshes/smokestack/medres.obj", "meshes/smokestack/medres.mtl",
                           Int(0), Int(18), Int(-20), Int(0), Int(180), Int(0), Int(10), Int(10), Int(10), Int(0));
  }

  /** Every entry of the sample scene is well-formed and none is a cone. */
  lemma SampleSceneOneLine()
    ensures OneLineEach(SampleScene())
  {
    LightsOneLine();
    CamerasOneLine();
    SignsOneLine();
    PropsOneLine();
    GroundOneLine();
    OneLineEachAppend(Lights(), Cameras());
    OneLineEachAppend(Lights() + Cameras(), [Ground()]);
    OneLineEachAppend(Lights() + Cameras() + [Ground()], Signs());
    OneLineEachAppend(Lights() + Cameras() + [Ground()] + Signs(), [Cow(), Smokestack()]);
  }

  /**
    The saved buffer of the sample scene, read line by line: the initial
    statement, then one statement per call in call order.
   */
  lemma SampleSceneLines()
    ensures Split(InitStatement + Script(SampleScene()), '\n') == [InitLine] + Lines(SampleScene()) + [""]
    ensures |Lines(SampleScene())| == 13
  {
    SampleSceneOneLine();
    BufferLines(SampleScene());
  }

  // ---------------------------------------------------------------------------
  // The text of some sample lines

  lemma LightIntegers()
    ensures IntText(-100) == "-100" && IntText(200) == "200" && IntText(0) == "0"
  {
    assert Digits(20) == "20";
  }

  lemma GroundIntegers()
    ensures IntText(-25) == "-25" && IntText(1000) == "1000" && IntText(50) == "50" && IntText(100) == "100"
  {
    assert Digits(10) == "10" && Digits(100) == "100";
  }

  /** The heads of the statements below. */
  lemma Heads()
    ensures Receiver + "addPointLight" + "(" == "canvas.addPointLight("
    ensures Receiver + "addCamera" + "(" == "canvas.addCamera("
    ensures Receiver + "addBox" + "(" == "canvas.addBox("
  {
  }

  /** The first line draw_scene writes after the initial statement. */
  lemma FirstLightLine()
    ensures Line(PointLight(Int(-100), Int(200), Int(0), Int(200), Int(200), Int(200), Float("1.0")))
         == "canvas.addPointLight(-100,200,0,200,200,200,1.0);"
  {
    PointLightJoined(Int(-100), Int(200), Int(0), Int(200), Int(200), Int(200), Float("1.0"));
    LightIntegers();
    Heads();
    FirstLightText();
  }

  lemma FirstLightText()
    ensures "canvas.addPointLight(" + ("-100" + "," + ("200" + "," + ("0" + "," + ("200" + "," + ("200" + "," + ("200" + "," + "1.0")))))) + ");" + ""
         == "canvas.addPointLight(-100,200,0,200,200,200,1.0);"
  {
  }

  /** The first camera's line. */
  lemma FirstCameraLine()
    ensures Line(Camera(Int(0), Int(2), Int(0), Int(0))) == "canvas.addCamera(0,2,0,0);"
  {
    CameraJoined(Int(0), Int(2), Int(0), Int(0));
    SignIntegers();
    Heads();
    FirstCameraText();
  }

  lemma FirstCameraText()
    ensures "canvas.addCamera(" + ("0" + "," + ("2" + "," + ("0" + "," + "0"))) + ");" + "" == "canvas.addCamera(0,2,0,0);"
  {
  }

  /** The ground's line. */
  lemma GroundLine()
    ensures Line(Ground()) == "canvas.addBox(0,-25,0,1000,50,1000,100,100,100,1,0,0,0,0);"
  {
    BoxLine(Int(0), Int(-25), Int(0), Int(1000), Int(50), Int(1000), Int(100), Int(100), Int(100), Int(1), Int(0), Int(0), Int(0), Int(0));
    SignIntegers();
    GroundIntegers();
    Heads();
    GroundFront();
    GroundText();
  }

  lemma GroundFront()
    ensures "canvas.addBox(" + "0" + "," + "-25" + "," + "0" + "," + "1000" + "," + "50" + "," + "1000" + "," + "100" + "," == "canvas.addBox(0,-25,0,1000,50,1000,100,"
  {
    assert "canvas.addBox(" + "0" == "canvas.addBox(0";
    assert "canvas.addBox(0" + "," == "canvas.addBox(0,";
    assert "canvas.addBox(0," + "-25" == "canvas.addBox(0,-25";
    assert "canvas.addBox(0,-25" + "," == "canvas.addBox(0,-25,";
    assert "canvas.addBox(0,-25," + "0" == "canvas.addBox(0,-25,0";
    assert "canvas.addBox(0,-25,0" + "," == "canvas.addBox(0,-25,0,";
    assert "canvas.addBox(0,-25,0," + "1000" == "canvas.addBox(0,-25,0,1000";
    assert "canvas.addBox(0,-25,0,1000" + "," == "canvas.addBox(0,-25,0,1000,";
    assert "canvas.addBox(0,-25,0,1000," + "50" == "canvas.addBox(0,-25,0,1000,50";
    assert "canvas.addBox(0,-25,0,1000,50" + "," == "canvas.addBox(0,-25,0,1000,50,";
    assert "canvas.addBox(0,-25,0,1000,50," + "1000" == "canvas.addBox(0,-25,0,1000,50,1000";
    assert "canvas.addBox(0,-25,0,1000,50,1000" + "," == "canvas.addBox(0,-25,0,1000,50,1000,";
    assert "canvas.addBox(0,-25,0,1000,50,1000," + "100" == "canvas.addBox(0,-25,0,1000,50,1000,100";
    assert "canvas.addBox(0,-25,0,1000,50,1000,100" + "," == "canvas.addBox(0,-25,0,1000,50,1000,100,";
  }

  lemma GroundText()
    ensures "canvas.addBox(0,-25,0,1000,50,1000,100," + "100" + "," + "100" + "," + "1" + "," + "0" + "," + "0" + "," + "0" + "," + "0" + ");" == "canvas.addBox(0,-25,0,1000,50,1000,100,100,100,1,0,0,0,0);"
  {
    assert "canvas.addBox(0,-25,0,1000,50,1000,100," + "100" == "canvas.addBox(0,-25,0,1000,50,1000,100,100";
    assert "canvas.addBox(0,-25,0,1000,50,1000,100,100" + "," == "canvas.addBox(0,-25,0,1000,50,1000,100,100,";
    assert "canvas.addBox(0,-25,0,1000,50,1000,100,100," + "100" == "canvas.addBox(0,-25,0,1000,50,1000,100,100,100";
    assert "canvas.addBox(0,-25,0,1000,50,1000,100,100,100" + "," == "canvas.addBox(0,-25,0,1000,50,1000,100,100,100,";
    assert "canvas.addBox(0,-25,0,1000,50,1000,100,100,100," + "1" == "canvas.addBox(0,-25,0,1000,50,1000,100,100,100,1";
    assert "canvas.addBox(0,-25,0,1000,50,1000,100,100,100,1" + "," == "canvas.addBox(0,-25,0,1000,50,1000,100,100,100,1,";
    assert "canvas.addBox(0,-25,0,1000,50,1000,100,100,100,1," + "0" == "canvas.addBox(0,-25,0,1000,50,1000,100,100,100,1,0";
    assert "canvas.addBox(0,-25,0,1000,50,1000,100,100,100,1,0" + "," == "canvas.addBox(0,-25,0,1000,50,1000,100,100,100,1,0,";
    assert "canvas.addBox(0,-25,0,1000,50,1000,100,100,100,1,0," + "0" == "canvas.addBox(0,-25,0,1000,50,1000,100,100,100,1,0,0";
    assert "canvas.addBox(0,-25,0,1000,50,1000,100,100,100,1,0,0" + "," == "canvas.addBox(0,-25,0,1000,50,1000,100,100,100,1,0,0,";
    assert "canvas.addBox(0,-25,0,1000,50,1000,100,100,100,1,0,0," + "0" == "canvas.addBox(0,-25,0,1000,50,1000,100,100,100,1,0,0,0";
    assert "canvas.addBox(0,-25,0,1000,50,1000,100,100,100,1,0,0,0" + "," == "canvas.addBox(0,-25,0,1000,50,1000,100,100,100,1,0,0,0,";
    assert "canvas.addBox(0,-25,0,1000,50,1000,100,100,100,1,0,0,0," + "0" == "canvas.addBox(0,-25,0,1000,50,1000,100,100,100,1,0,0,0,0";
    assert "canvas.addBox(0,-25,0,1000,50,1000,100,100,100,1,0,0,0,0" + ");" == "canvas.addBox(0,-25,0,1000,50,1000,100,100,100,1,0,0,0,0);";
  }

  lemma SampleSceneEntities()
    ensures SampleScene()[0] == PointLight(Int(-100), Int(200), Int(0), Int(200), Int(200), Int(200), Float("1.0"))
    ensures SampleScene()[4] == Camera(Int(0), Int(2), Int(0), Int(0))
    ensures SampleScene()[6] == Ground()
  {
  }

  /**
    The first, fifth and seventh lines of the sample scene's script: the first
    light, the first camera and the ground.
  */
  lemma SampleSceneFirstLines()
    ensures Lines(SampleScene())[0] == "canvas.addPointLight(-100,200,0,200,200,200,1.0);"
    ensures Lines(SampleScene())[4] == "canvas.addCamera(0,2,0,0);"
    ensures Lines(SampleScene())[6] == "canvas.addBox(0,-25,0,1000,50,1000,100,100,100,1,0,0,0,0);"
  {
    SampleSceneEntities();
    FirstLightLine();
    FirstCameraLine();
    GroundLine();
  }
}
