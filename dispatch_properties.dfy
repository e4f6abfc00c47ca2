/**
  What `process_robot_actions` promises, stated over its reference function
  `ActionUtils.Dispatch` (the imperative method is proved equal to it).
 */
module DispatchProperties {
  import opened PyValues
  import opened ActionUtils

  /** The handler the first action names and the boxes its slots resolve to,
      when the action list gets that far. */
  predicate Resolves(actions: Json, a: ActionName, boxes: seq<Json>)
  {
    Names(actions, a) && BoxesOf(Subscript(actions, IntKey(0)).value, Slots(a)) == Ok(boxes)
  }

  /** The first action names handler `a`. */
  predicate Names(actions: Json, a: ActionName)
  {
    Subscript(actions, IntKey(0)).Ok? && FirstActionName(actions) == Ok(JStr(NameOf(a)))
  }

  /** A handler ran: the trace holds a handler call somewhere. */
  predicate HandlerRan(r: DispatchRun)
  {
    exists c :: c in r.calls && c.Handled?
  }

  /** The table holds exactly the three handler names, each mapped to the
      handler of the same name. */
  lemma ActionTableIsExact()
    ensures ActionMap.Keys == {"grasp_and_place", "grasp_and_give", "grasp_handover_give"}
    ensures forall a: ActionName :: NameOf(a) in ActionMap && ActionMap[NameOf(a)] == a
  {
  }

  /** Single-point actions: one deprojection, of `arg1`'s box, then the
      handler with exactly that point. */
  lemma SinglePointDispatch(actions: Json, a: ActionName, box: Json, rgbImg: string, depthImg: string, g: Deprojector)
    requires a == GraspAndGive || a == GraspHandoverGive
    requires Subscript(actions, IntKey(0)).Ok?
    requires FirstActionName(actions) == Ok(JStr(NameOf(a)))
    requires BoxOf(Subscript(actions, IntKey(0)).value, "arg1") == Ok(box)
    ensures var p := g(box, rgbImg, depthImg, CamIntrinsics);
            Dispatch(actions, rgbImg, depthImg, g) ==
            DispatchRun([Plotted(rgbImg, actions), Deprojected(box, rgbImg, depthImg, CamIntrinsics), Handled(a, [p])],
                        [p], None)
  {
    var first := Subscript(actions, IntKey(0)).value;
    assert Slots(a) == ["arg1"] && Slots(a)[1..] == [];
    assert BoxesOf(first, Slots(a)) == Ok([box]) by {
      assert BoxesOf(first, []) == Ok([]);
      assert [box] + [] == [box];
    }
    assert DeprojectionCalls([box], rgbImg, depthImg) == [Deprojected(box, rgbImg, depthImg, CamIntrinsics)];
    assert PointsOf([box], rgbImg, depthImg, g) == [g(box, rgbImg, depthImg, CamIntrinsics)];
  }

  /** `grasp_and_place`: `arg1` is deprojected before `arg2`, and the handler
      gets (grasp point, place point) in that order. */
  lemma TwoPointDispatch(actions: Json, grasp: Json, place: Json, rgbImg: string, depthImg: string, g: Deprojector)
    requires Subscript(actions, IntKey(0)).Ok?
    requires FirstActionName(actions) == Ok(JStr("grasp_and_place"))
    requires BoxOf(Subscript(actions, IntKey(0)).value, "arg1") == Ok(grasp)
    requires BoxOf(Subscript(actions, IntKey(0)).value, "arg2") == Ok(place)
    ensures var p := g(grasp, rgbImg, depthImg, CamIntrinsics);
            var q := g(place, rgbImg, depthImg, CamIntrinsics);
            Dispatch(actions, rgbImg, depthImg, g) ==
            DispatchRun([Plotted(rgbImg, actions),
                         Deprojected(grasp, rgbImg, depthImg, CamIntrinsics),
                         Deprojected(place, rgbImg, depthImg, CamIntrinsics),
                         Handled(GraspAndPlace, [p, q])],
                        [p, q], None)
  {
    var first := Subscript(actions, IntKey(0)).value;
    var slots := Slots(GraspAndPlace);
    assert slots == ["arg1", "arg2"] && slots[1..] == ["arg2"] && slots[1..][1..] == [];
    assert BoxesOf(first, slots) == Ok([grasp, place]) by {
      assert BoxesOf(first, []) == Ok([]);
      assert [place] + [] == [place];
      assert BoxesOf(first, ["arg2"]) == Ok([place]);
      assert [grasp] + [place] == [grasp, place];
    }
    var points := PointsOf([grasp, place], rgbImg, depthImg, g);
    assert points == [g(grasp, rgbImg, depthImg, CamIntrinsics), g(place, rgbImg, depthImg, CamIntrinsics)];
  }

  /** `grasp_and_place` whose `arg2` is missing: both boxes are read before
      any deprojection, so nothing is deprojected and no handler runs. */
  lemma PlaceWithoutSecondBox(actions: Json, grasp: Json, e: PyError, rgbImg: string, depthImg: string, g: Deprojector)
    requires Subscript(actions, IntKey(0)).Ok?
    requires FirstActionName(actions) == Ok(JStr("grasp_and_place"))
    requires BoxOf(Subscript(actions, IntKey(0)).value, "arg1") == Ok(grasp)
    requires BoxOf(Subscript(actions, IntKey(0)).value, "arg2") == Err(e)
    ensures Dispatch(actions, rgbImg, depthImg, g) == DispatchRun([Plotted(rgbImg, actions)], [], Some(e))
  {
    var first := Subscript(actions, IntKey(0)).value;
    var slots := Slots(GraspAndPlace);
    assert slots == ["arg1", "arg2"] && slots[1..] == ["arg2"];
    assert BoxesOf(first, ["arg2"]) == Err(e);
  }

  /** An unrecognised first action name makes no call at all, and the report
      of the unknown name always raises (it subscripts the list by a string). */
  lemma UnknownNameRaises(actions: Json, rgbImg: string, depthImg: string, g: Deprojector)
    requires FirstActionName(actions).Ok?
    requires LookupAction(FirstActionName(actions).value) == Ok(None)
    ensures Dispatch(actions, rgbImg, depthImg, g) == DispatchRun([], [], Some(TypeError))
  {
    assert actions.JArr? || actions.JStr?;
  }

  /** A handler runs exactly when the first action's name is in the table
      and every slot of that handler has a box. */
  lemma HandlerRunsIffResolved(actions: Json, rgbImg: string, depthImg: string, g: Deprojector)
    ensures HandlerRan(Dispatch(actions, rgbImg, depthImg, g)) <==>
            exists a: ActionName :: Names(actions, a) && BoxesOf(Subscript(actions, IntKey(0)).value, Slots(a)).Ok?
  {
    var r := Dispatch(actions, rgbImg, depthImg, g);
    if Subscript(actions, IntKey(0)).Ok? && FirstActionName(actions).Ok? {
      var first := Subscript(actions, IntKey(0)).value;
      var name := FirstActionName(actions).value;
      match LookupAction(name)
      case Ok(Some(a)) =>
        if BoxesOf(first, Slots(a)).Ok? {
          assert Names(actions, a);
          assert r.calls[|r.calls| - 1] in r.calls;
        }
      case Ok(None) =>
        forall b: ActionName ensures !Names(actions, b) {
          ActionTableIsExact();
        }
      case Err(_) =>
    }
  }

  /** When the first action resolves, the handler of that name comes last,
      after one deprojection per slot in slot order, and receives every point
      of `cam_manip_points`; nothing is raised. */
  lemma ResolvedDispatchShape(actions: Json, a: ActionName, boxes: seq<Json>,
                              rgbImg: string, depthImg: string, g: Deprojector)
    requires Resolves(actions, a, boxes)
    ensures var r := Dispatch(actions, rgbImg, depthImg, g);
            && r.raised == None
            && |boxes| == |Slots(a)| == |r.points|
            && r.calls == [Plotted(rgbImg, actions)] + DeprojectionCalls(boxes, rgbImg, depthImg) + [Handled(a, r.points)]
            && (forall i :: 0 <= i < |boxes| ==> r.points[i] == g(boxes[i], rgbImg, depthImg, CamIntrinsics))
  {
    ActionTableIsExact();
  }

  /** Every deprojection of one dispatch receives the same intrinsics and the
      same rgb and depth images. */
  lemma DeprojectionsShareInputs(actions: Json, rgbImg: string, depthImg: string, g: Deprojector)
    ensures var r := Dispatch(actions, rgbImg, depthImg, g);
            forall c :: c in r.calls && c.Deprojected? ==>
              c.rgbImg == rgbImg && c.depthImg == depthImg && c.intrinsics == CamIntrinsics
  {
  }

  /** Entries after the first never matter: two lists with the same first
      entry give the same deprojections, handler call, points and outcome;
      their traces differ only in the list handed to the plot. */
  lemma OnlyFirstEntryMatters(first: Json, rest1: seq<Json>, rest2: seq<Json>,
                              rgbImg: string, depthImg: string, g: Deprojector)
    ensures var r1 := Dispatch(JArr([first] + rest1), rgbImg, depthImg, g);
            var r2 := Dispatch(JArr([first] + rest2), rgbImg, depthImg, g);
            && r1.points == r2.points
            && r1.raised == r2.raised
            && |r1.calls| == |r2.calls|
            && forall j :: 0 <= j < |r1.calls| ==>
                 (r1.calls[j].Plotted? <==> r2.calls[j].Plotted?) &&
                 (!r1.calls[j].Plotted? ==> r1.calls[j] == r2.calls[j])
  {
    assert Subscript(JArr([first] + rest1), IntKey(0)) == Ok(first);
    assert Subscript(JArr([first] + rest2), IntKey(0)) == Ok(first);
  }

  /** The soda-can exemplar reply of the system prompt: one `grasp_and_give`
      call with the single point of the can's box. */
  lemma SodaCanExemplar(rgbImg: string, depthImg: string, g: Deprojector)
    ensures var box := JArr([JNum(634), JNum(672), JNum(815), JNum(780)]);
            var arg1 := JObj(map["description" := JStr("soda can"), "bbox_coordinates" := box]);
            var action := JObj(map["action" := JStr("grasp_and_give"), "parameters" := JObj(map["arg1" := arg1])]);
            var p := g(box, rgbImg, depthImg, CamIntrinsics);
            Dispatch(JArr([action]), rgbImg, depthImg, g).calls ==
              [Plotted(rgbImg, JArr([action])), Deprojected(box, rgbImg, depthImg, CamIntrinsics), Handled(GraspAndGive, [p])]
  {
    var box := JArr([JNum(634), JNum(672), JNum(815), JNum(780)]);
    var arg1 := JObj(map["description" := JStr("soda can"), "bbox_coordinates" := box]);
    var params := JObj(map["arg1" := arg1]);
    var action := JObj(map["action" := JStr("grasp_and_give"), "parameters" := params]);
    assert Subscript(JArr([action]), IntKey(0)) == Ok(action);
    assert BoxOf(action, "arg1") == Ok(box) by {
      BoxOfSubscripts(action, "arg1");
      assert Subscript(action, StrKey("parameters")) == Ok(params);
      assert Subscript(params, StrKey("arg1")) == Ok(arg1);
      assert Subscript(arg1, StrKey("bbox_coordinates")) == Ok(box);
    }
    SinglePointDispatch(JArr([action]), GraspAndGive, box, rgbImg, depthImg, g);
  }

  /** The spam-can exemplar reply: `grasp_and_place` deprojects the can's box,
      then the container's, and hands both points over in that order. */
  lemma SpamCanExemplar(rgbImg: string, depthImg: string, g: Deprojector)
    ensures var can := JArr([JNum(139), JNum(719), JNum(317), JNum(862)]);
            var container := JArr([JNum(579), JNum(67), JNum(961), JNum(300)]);
            var params := JObj(map["arg1" := JObj(map["description" := JStr("spam can"), "bbox_coordinates" := can]),
                                   "arg2" := JObj(map["description" := JStr("container"), "bbox_coordinates" := container])]);
            var action := JObj(map["action" := JStr("grasp_and_place"), "parameters" := params]);
            var p := g(can, rgbImg, depthImg, CamIntrinsics);
            var q := g(container, rgbImg, depthImg, CamIntrinsics);
            Dispatch(JArr([action]), rgbImg, depthImg, g) ==
              DispatchRun([Plotted(rgbImg, JArr([action])),
                           Deprojected(can, rgbImg, depthImg, CamIntrinsics),
                           Deprojected(container, rgbImg, depthImg, CamIntrinsics),
                           Handled(GraspAndPlace, [p, q])],
                          [p, q], None)
  {
    var can := JArr([JNum(139), JNum(719), JNum(317), JNum(862)]);
    var container := JArr([JNum(579), JNum(67), JNum(961), JNum(300)]);
    var arg1 := JObj(map["description" := JStr("spam can"), "bbox_coordinates" := can]);
    var arg2 := JObj(map["description" := JStr("container"), "bbox_coordinates" := container]);
    var params := JObj(map["arg1" := arg1, "arg2" := arg2]);
    var action := JObj(map["action" := JStr("grasp_and_place"), "parameters" := params]);
    assert Subscript(JArr([action]), IntKey(0)) == Ok(action);
    assert Subscript(action, StrKey("parameters")) == Ok(params);
    assert BoxOf(action, "arg1") == Ok(can) by {
      BoxOfSubscripts(action, "arg1");
      assert Subscript(params, StrKey("arg1")) == Ok(arg1);
      assert Subscript(arg1, StrKey("bbox_coordinates")) == Ok(can);
    }
    assert BoxOf(action, "arg2") == Ok(container) by {
      BoxOfSubscripts(action, "arg2");
      assert Subscript(params, StrKey("arg2")) == Ok(arg2);
      assert Subscript(arg2, StrKey("bbox_coordinates")) == Ok(container);
    }
    TwoPointDispatch(JArr([action]), can, container, rgbImg, depthImg, g);
  }
}
