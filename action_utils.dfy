/**
  Action dispatch: the rules that turn the `robot_actions` part of a decoded
  reply into at most one call of a manipulation handler. Only the first
  entry of the action list is looked at; its name is looked up in a fixed
  three-entry table; the name fixes how many bounding boxes are read
  (`arg1`, or `arg1` then `arg2`); each box is deprojected to a spatial point
  with one fixed set of camera intrinsics; the handler then receives the
  points in slot order.

  The deprojection (`get_spatial_coordinates`) and the handlers are not part
  of this model: deprojection is a function parameter, and the plot and
  handler calls are recorded in a trace of `RobotCall`s.
 */
module ActionUtils {
  import opened PyValues

  /** The three handlers of the action table. */
  datatype ActionName = GraspAndPlace | GraspAndGive | GraspHandoverGive

  /** The action table: reply name to handler. */
  const ActionMap: map<string, ActionName> :=
    map["grasp_and_place" := GraspAndPlace,
        "grasp_and_give" := GraspAndGive,
        "grasp_handover_give" := GraspHandoverGive]

  function NameOf(a: ActionName): string
  {
    match a
    case GraspAndPlace => "grasp_and_place"
    case GraspAndGive => "grasp_and_give"
    case GraspHandoverGive => "grasp_handover_give"
  }

  /** Pinhole camera intrinsics; the dispatcher only passes them on. */
  datatype Intrinsics = Intrinsics(width: int, height: int, fx: real, fy: real, cx: real, cy: real)

  /** The one intrinsics value every deprojection receives. */
  const CamIntrinsics: Intrinsics := Intrinsics(640, 360, 345.9, 346.0, 322.7, 181.3)

  /** A 3D point in the camera frame. */
  datatype SpatialPoint = SpatialPoint(x: real, y: real, z: real)

  /** `get_spatial_coordinates(bbox, rgb_img, depth_img, intrinsics)`. */
  type Deprojector = (Json, string, string, Intrinsics) -> SpatialPoint

  /** The side-effecting calls a dispatch makes, in order. */
  datatype RobotCall =
    | Plotted(rgbImg: string, actions: Json)
    | Deprojected(bbox: Json, rgbImg: string, depthImg: string, intrinsics: Intrinsics)
    | Handled(action: ActionName, points: seq<SpatialPoint>)

  /** What one dispatch did: its call trace, the final `cam_manip_points`,
      and the exception it raised, if any. */
  datatype DispatchRun = DispatchRun(calls: seq<RobotCall>, points: seq<SpatialPoint>, raised: Option<PyError>)

  /** The bounding-box slots each handler needs, in the order they are read. */
  function Slots(a: ActionName): seq<string>
  {
    if a == GraspAndPlace then ["arg1", "arg2"] else ["arg1"]
  }

  /** `action_response[0]["action"]`. */
  function FirstActionName(actions: Json): Result<Json>
  {
    match Subscript(actions, IntKey(0))
    case Err(e) => Err(e)
    case Ok(first) => Subscript(first, StrKey("action"))
  }

  /** The action-table lookup of a reply name: `Ok(None)` when the name is
      not a key, an error when the name cannot be hashed. */
  function LookupAction(name: Json): (r: Result<Option<ActionName>>)
    ensures r.Ok? && r.value.Some? <==> name.JStr? && name.s in ActionMap
    ensures r.Ok? && r.value.Some? ==> NameOf(r.value.value) == name.s
  {
    match DictContains(ActionMap.Keys, name)
    case Err(e) => Err(e)
    case Ok(known) => if known then Ok(Some(ActionMap[name.s])) else Ok(None)
  }

  /** `action["parameters"][slot]["bbox_coordinates"]`. */
  function BoxOf(action: Json, slot: string): Result<Json>
  {
    Path(action, [StrKey("parameters"), StrKey(slot), StrKey("bbox_coordinates")])
  }

  /** `BoxOf` as the three subscripts it stands for. */
  lemma BoxOfSubscripts(action: Json, slot: string)
    ensures BoxOf(action, slot) ==
      match Subscript(action, StrKey("parameters"))
      case Err(e) => Err(e)
      case Ok(params) =>
        match Subscript(params, StrKey(slot))
        case Err(e) => Err(e)
        case Ok(arg) => Subscript(arg, StrKey("bbox_coordinates"))
  {
    var keys := [StrKey("parameters"), StrKey(slot), StrKey("bbox_coordinates")];
    assert keys[1..] == [StrKey(slot), StrKey("bbox_coordinates")];
    assert keys[1..][1..] == [StrKey("bbox_coordinates")];
    assert keys[1..][1..][1..] == [];
    match Subscript(action, StrKey("parameters"))
    case Err(e) =>
    case Ok(params) =>
      match Subscript(params, StrKey(slot))
      case Err(e) => assert Path(params, keys[1..]) == Err(e);
      case Ok(arg) =>
        match Subscript(arg, StrKey("bbox_coordinates"))
        case Err(e) =>
          assert Path(arg, keys[1..][1..]) == Err(e);
          assert Path(params, keys[1..]) == Err(e);
        case Ok(box) =>
          assert Path(box, []) == Ok(box);
          assert Path(arg, keys[1..][1..]) == Ok(box);
          assert Path(params, keys[1..]) == Ok(box);
  }

  /** The boxes of `slots`, read in order; the first missing one is the error. */
  function BoxesOf(action: Json, slots: seq<string>): (r: Result<seq<Json>>)
    ensures r.Ok? <==> forall i :: 0 <= i < |slots| ==> BoxOf(action, slots[i]).Ok?
    ensures r.Ok? ==> |r.value| == |slots|
    ensures r.Ok? ==> forall i :: 0 <= i < |slots| ==> BoxOf(action, slots[i]) == Ok(r.value[i])
    ensures r.Err? ==> exists i :: 0 <= i < |slots| && BoxOf(action, slots[i]) == Err(r.error) &&
                                   forall j :: 0 <= j < i ==> BoxOf(action, slots[j]).Ok?
    decreases |slots|
  {
    if slots == [] then Ok([])
    else
      match BoxOf(action, slots[0])
      case Err(e) => Err(e)
      case Ok(b) =>
        match BoxesOf(action, slots[1..])
        case Err(e) => Err(e)
        case Ok(rest) => Ok([b] + rest)
  }

  function DeprojectionCalls(boxes: seq<Json>, rgbImg: string, depthImg: string): seq<RobotCall>
  {
    seq(|boxes|, i requires 0 <= i < |boxes| => Deprojected(boxes[i], rgbImg, depthImg, CamIntrinsics))
  }

  function PointsOf(boxes: seq<Json>, rgbImg: string, depthImg: string, deproject: Deprojector): seq<SpatialPoint>
  {
    seq(|boxes|, i requires 0 <= i < |boxes| => deproject(boxes[i], rgbImg, depthImg, CamIntrinsics))
  }

  /** The dispatch, as a function of the action list: the reference the
      imperative `ProcessRobotActions` is proved against. */
  function Dispatch(actions: Json, rgbImg: string, depthImg: string, deproject: Deprojector): DispatchRun
  {
    match FirstActionName(actions)
    case Err(e) => DispatchRun([], [], Some(e))
    case Ok(name) =>
      var first := Subscript(actions, IntKey(0)).value;
      match LookupAction(name)
      case Err(e) => DispatchRun([], [], Some(e))
      case Ok(None) =>
        // the unknown-name report subscripts the whole list by "action"
        (match Subscript(actions, StrKey("action"))
         case Err(e) => DispatchRun([], [], Some(e))
         case Ok(_) => DispatchRun([], [], None))
      case Ok(Some(a)) =>
        match BoxesOf(first, Slots(a))
        case Err(e) => DispatchRun([Plotted(rgbImg, actions)], [], Some(e))
        case Ok(boxes) =>
          var points := PointsOf(boxes, rgbImg, depthImg, deproject);
          DispatchRun([Plotted(rgbImg, actions)] + DeprojectionCalls(boxes, rgbImg, depthImg) + [Handled(a, points)],
                      points, None)
  }

  /** `process_robot_actions(action_response, rgb_img, depth_img)`: builds
      `cam_manip_points` by appending, and records each call it makes. */
  method ProcessRobotActions(actionResponse: Json, rgbImg: string, depthImg: string,
                             getSpatialCoordinates: Deprojector)
    returns (calls: seq<RobotCall>, camManipPoints: seq<SpatialPoint>, raised: Option<PyError>)
    ensures DispatchRun(calls, camManipPoints, raised) ==
            Dispatch(actionResponse, rgbImg, depthImg, getSpatialCoordinates)
  {
    calls, camManipPoints, raised := [], [], None;
    var camIntrinsics := CamIntrinsics;

    var first := Subscript(actionResponse, IntKey(0));
    if first.Err? { raised := Some(first.error); return; }
    var name := Subscript(first.value, StrKey("action"));
    if name.Err? { raised := Some(name.error); return; }
    var found := LookupAction(name.value);
    if found.Err? { raised := Some(found.error); return; }

    if found.value.Some? {
      var actionFunc := found.value.value;
      calls := calls + [Plotted(rgbImg, actionResponse)];
      if actionFunc == GraspAndGive || actionFunc == GraspHandoverGive {
        var graspBox := BoxOf(first.value, "arg1");
        if graspBox.Err? { raised := Some(graspBox.error); return; }
        var graspPoint := getSpatialCoordinates(graspBox.value, rgbImg, depthImg, camIntrinsics);
        calls := calls + [Deprojected(graspBox.value, rgbImg, depthImg, camIntrinsics)];
        camManipPoints := camManipPoints + [graspPoint];
        assert camManipPoints == [graspPoint];
        calls := calls + [Handled(actionFunc, [graspPoint])];
        assert Slots(actionFunc) == ["arg1"] && ["arg1"][1..] == [];
        assert BoxesOf(first.value, []) == Ok([]);
        assert [graspBox.value] + [] == [graspBox.value];
        assert BoxesOf(first.value, Slots(actionFunc)) == Ok([graspBox.value]);
        assert DeprojectionCalls([graspBox.value], rgbImg, depthImg) == [Deprojected(graspBox.value, rgbImg, depthImg, camIntrinsics)];
        assert PointsOf([graspBox.value], rgbImg, depthImg, getSpatialCoordinates) == camManipPoints;
      } else {
        var graspBox := BoxOf(first.value, "arg1");
        if graspBox.Err? { raised := Some(graspBox.error); return; }
        var placeBox := BoxOf(first.value, "arg2");
        assert Slots(actionFunc) == ["arg1", "arg2"] && ["arg1", "arg2"][1..] == ["arg2"] && ["arg2"][1..] == [];
        if placeBox.Err? { raised := Some(placeBox.error); return; }
        var graspPoint := getSpatialCoordinates(graspBox.value, rgbImg, depthImg, camIntrinsics);
        calls := calls + [Deprojected(graspBox.value, rgbImg, depthImg, camIntrinsics)];
        var placePoint := getSpatialCoordinates(placeBox.value, rgbImg, depthImg, camIntrinsics);
        calls := calls + [Deprojected(placeBox.value, rgbImg, depthImg, camIntrinsics)];
        camManipPoints := camManipPoints + [graspPoint];
        camManipPoints := camManipPoints + [placePoint];
        assert camManipPoints == [graspPoint, placePoint];
        calls := calls + [Handled(actionFunc, [graspPoint, placePoint])];
        assert BoxesOf(first.value, []) == Ok([]);
        assert ["arg2"][1..] == [] && [placeBox.value] + [] == [placeBox.value];
        assert BoxesOf(first.value, ["arg2"]) == Ok([placeBox.value]);
        assert [graspBox.value] + [placeBox.value] == [graspBox.value, placeBox.value];
        assert BoxesOf(first.value, Slots(actionFunc)) == Ok([graspBox.value, placeBox.value]);
        assert DeprojectionCalls([graspBox.value, placeBox.value], rgbImg, depthImg) == calls[1..3];
        assert PointsOf([graspBox.value, placeBox.value], rgbImg, depthImg, getSpatialCoordinates) == camManipPoints;
      }
    } else {
      // the unknown-name report subscripts the whole list by "action"
      var shown := Subscript(actionResponse, StrKey("action"));
      if shown.Err? { raised := Some(shown.error); }
    }
  }
}
