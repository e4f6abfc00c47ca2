# CURIGPT reply handling and action dispatch, in Dafny

This project models the core of CURIGPT, a ROS node. An operator speaks an
instruction. A multimodal reasoning service (`qwen-vl-max` or
`qwen-vl-chat-v1`) answers with a JSON reply. The reply holds a verbal
response and a list of robot actions.

The model covers three pieces:

- **Action dispatch** (`process_robot_actions`). Only the first entry of the
  action list is read. Its name is looked up in a three-entry table, and the
  name decides how many bounding boxes are read (`arg1`, or `arg1` then
  `arg2`). Each box is deprojected to a 3D point with one fixed set of camera
  intrinsics, and the handler gets the points in slot order. The code checks
  nothing: a missing key, a short list or a value of the wrong kind raises
  the Python exception it would raise. That includes the unknown-name
  branch, which subscripts the whole list with `'action'` and so always
  raises TypeError.
- **The two multimodal calls** (`single_multimodal_call`,
  `multiple_multimodal_call`). The base prompt is copied and user turns are
  appended to the copy (an image item, then a text item). The model name is
  checked. The reply text is picked by model and status.
- **The audio session** (`get_curi_response_with_audio`). It starts the
  image capture, then runs rounds in the non-append branch: listen, query,
  decode, speak when `robot_response` is truthy, dispatch when
  `robot_actions` is truthy. In a `finally` block it signals shutdown and
  joins the capture thread. In the append branch only the `rounds < 1`
  check and the first call are modelled.

Decoded JSON and the few Python operations the code applies to it are in
`py_values.dfy`: subscripting, truthiness and `in`. Every exception Python
would raise is an explicit `Err`.

`ProcessRobotActions`, `SingleMultimodalCall`, `MultipleMultimodalCall` and
`GetCuriResponseWithAudio` are imperative, like the source. Prompts are a
`TurnList` class that is copied and appended to in place. Each method is
proved equal to a reference function (`Dispatch`, `SingleCall`, `Session`),
except `MultipleMultimodalCall`, whose contract states its results
directly. The properties are lemmas about those functions.

The outside world enters as inputs. The service's answer is a
`ServiceReply`. What round `i` hears and receives is `env(i)`. `json.loads`
is the parameter `decode`, and `get_spatial_coordinates` is the parameter
`deproject`. Every effect is an entry in a returned log: a `RobotCall` for a
dispatch, a `SessionEvent` for the session.

## Behaviour worth knowing

The model follows what the code does:

- Any exception in a round ends the session (teardown still runs).
- A reply that is not JSON returns from the whole session, not just the
  round.
- An unknown action name raises TypeError instead of being skipped.
- Bounding boxes are never validated.
- `rounds >= 1` is only enforced in the append branch. With no rounds, the
  non-append branch just starts and tears down.
- With `qwen-vl-chat-v1`, the call returns the whole content list. That list
  makes `json.loads` raise TypeError, which the `JSONDecodeError` handler
  does not catch, so the first round always ends the session.
- The append branch calls `single_multimodal_call` with two positional
  arguments where four are required. It raises TypeError after reading the
  first instruction, and it has no teardown.

## Model

| member | source | states |
|---|---|---|
| PyValues.Subscript | src/curigpt_ros/utils/action_utils.py:18-34 | Python `j[k]` on decoded JSON succeeds exactly for an in-range list or string index (negative indexes count from the end) or a present dictionary key. It returns the list item, the one-character string or the dictionary value stored there. An out-of-range index is an IndexError, a missing or integer dictionary key a KeyError, a string key on a list or string and any subscript of a scalar a TypeError. |
| PyValues.Truthy | scripts/curigpt.py:208-216 | Python's `if x:` on a decoded value: it is false exactly for None, False, 0, the empty string, the empty list and the empty dictionary. |
| PyValues.DictContains | src/curigpt_ros/utils/action_utils.py:18 | `x in action_map` raises (unhashable) exactly for lists and dictionaries, and is true exactly for a string that is a key. |
| ActionUtils.LookupAction | src/curigpt_ros/utils/action_utils.py:9-13 | The table finds a handler exactly for a string name among its keys, and the handler found is the one named by that key. |
| ActionUtils.BoxOfSubscripts | src/curigpt_ros/utils/action_utils.py:26 | `action["parameters"][slot]["bbox_coordinates"]` is three subscripts in order; the first one that fails decides the error. |
| ActionUtils.BoxesOf | src/curigpt_ros/utils/action_utils.py:26-34 | Reading the boxes of a list of slots succeeds exactly when every slot's box is present. It then returns one box per slot, in slot order. |
| ActionUtils.ProcessRobotActions | src/curigpt_ros/utils/action_utils.py:7-46 | The imperative dispatch (append to `cam_manip_points`, plot, deproject, call the handler) produces exactly the call trace, points and exception of the reference `Dispatch`. |
| DispatchProperties.ActionTableIsExact | src/curigpt_ros/utils/action_utils.py:9-13 | The table's keys are exactly the three action names, and each handler is reached from its own name. |
| DispatchProperties.HandlerRunsIffResolved | src/curigpt_ros/utils/action_utils.py:18-41 | A handler runs if and only if the first entry names a table action and every box that action needs is present. |
| DispatchProperties.ResolvedDispatchShape | src/curigpt_ros/utils/action_utils.py:18-41 | When the first action resolves, the trace is: one plot, then one deprojection per slot in slot order, then one call of that handler with exactly those points. No exception is raised. |
| DispatchProperties.SinglePointDispatch | src/curigpt_ros/utils/action_utils.py:25-30 | `grasp_and_give` and `grasp_handover_give` deproject `arg1`'s box once and call their handler with that one point. |
| DispatchProperties.TwoPointDispatch | src/curigpt_ros/utils/action_utils.py:32-41 | `grasp_and_place` deprojects `arg1` before `arg2`, then calls its handler once with (grasp point, place point). `cam_manip_points` is those two points, in that order. |
| DispatchProperties.PlaceWithoutSecondBox | src/curigpt_ros/utils/action_utils.py:33-34 | For `grasp_and_place` a missing `arg2` raises before any deprojection, so no handler is called with a partial point set. |
| DispatchProperties.UnknownNameRaises | src/curigpt_ros/utils/action_utils.py:45-46 | An unknown first name makes no plot, deprojection or handler call, and the report raises TypeError. |
| DispatchProperties.DeprojectionsShareInputs | src/curigpt_ros/utils/action_utils.py:15-36 | Every deprojection of one dispatch receives the same RGB and depth inputs and the one fixed intrinsics value. |
| DispatchProperties.OnlyFirstEntryMatters | src/curigpt_ros/utils/action_utils.py:18-41 | Two action lists with the same first entry give the same deprojections, handler call, points and exception, whatever follows that entry; only the list passed to the plot differs. |
| DispatchProperties.SodaCanExemplar | scripts/curigpt.py:308-325 | The exemplar "give me the soda can" reply deprojects its one box and calls `grasp_and_give` with that point. |
| DispatchProperties.SpamCanExemplar | scripts/curigpt.py:334-355 | The exemplar "put the spam can in the container" reply deprojects the can, then the container, and calls `grasp_and_place` with both points. |
| Conversation.TurnList.Copy | scripts/curigpt.py:30 | `list.copy()` gives a new list holding the same turns. |
| Conversation.TurnList.Append | scripts/curigpt.py:32 | `list.append(t)` adds `t` at the end of this list and changes nothing else. |
| Conversation.SingleCall | scripts/curigpt.py:18-71 | A request is sent exactly when the model name is valid, to that model, with the base turns followed by one user turn [image, query]. An invalid name is a ValueError. A non-OK status leaves `response` unbound (an error when it is returned). On OK, `qwen-vl-max` yields the first item's text or fails exactly when there is none, and `qwen-vl-chat-v1` yields the whole content list. |
| Conversation.SingleMultimodalCall | scripts/curigpt.py:18-71 | The imperative call (copy the list, append the turn, check the name, demultiplex the status) sends and returns exactly what `SingleCall` states. The caller's base list is not modified. |
| Conversation.GrownPromptAddsOnlyUserTurns | scripts/curigpt.py:86-90 | After k rounds the prompt is the base followed by k turns: its length grows by exactly k, and only user turns are added. |
| Conversation.MultipleMultimodalCall | scripts/curigpt.py:74-114 | Round k sends the base plus k+1 copies of the user turn to `qwen-vl-chat-v1`, at most `rounds` times. It raises exactly when the last answer has no output, whatever the status. When asked to return the response, it leaves in the first round: it raises if that answer has no output and returns its content otherwise. With no rounds it sends nothing and returns None. |
| AudioSession.PromptImagePath | scripts/curigpt.py:180 | The image sent with every query is `rgb_img_path` in real-time mode and `local_img_path` otherwise. |
| AudioSession.RunRound | scripts/curigpt.py:188-216 | One imperative round does exactly what `RoundStep` states. |
| AudioSession.Advance | scripts/curigpt.py:188 | Running round i of `for i in range(rounds)` either ends the loop with that round's outcome or hands the rest of the loop to round i+1. |
| AudioSession.RunRounds | scripts/curigpt.py:186-217 | The imperative round loop produces exactly the log and outcome of `Loop`, stopping at the first round that returns or raises. |
| AudioSession.GetCuriResponseWithAudio | scripts/curigpt.py:153-227 | The imperative session produces exactly the log and outcome of `Session`. In the non-append branch that is start, the loop, then shutdown and join whatever ended the loop. In the append branch it is a ValueError for `rounds < 1`, and a TypeError otherwise. |
| SessionProperties.AskedShape | scripts/curigpt.py:180-195 | A round listens, then queries exactly when the model name is valid. The query carries the transcription and the prompt image after the base turns. |
| SessionProperties.ReplyShape | scripts/curigpt.py:202-216 | After the query a round emits at most a speech and then a dispatch, each only for a truthy part of the reply. A dispatch uses the camera's RGB and depth paths. A decode failure names its round, and the loop continues only after a text reply. Which values are spoken and dispatched is stated by `SpeechGated` and `DispatchGated`. |
| SessionProperties.SpeechGated | scripts/curigpt.py:208-211 | For a decoded reply whose `robot_response` is v, the round speaks v if and only if v is truthy, and speaks nothing else. |
| SessionProperties.DispatchGated | scripts/curigpt.py:213-216 | For a decoded reply whose `robot_actions` is a, the round dispatches a (with the calls `process_robot_actions` makes on a) if and only if a is truthy, dispatches nothing else, and ends the session exactly when that dispatch raises. |
| SessionProperties.RoundStepFacts | scripts/curigpt.py:188-216 | Every round starts one round's worth of listening and emits only events consistent with the configuration. |
| SessionProperties.RoundOrder | scripts/curigpt.py:190-216 | Within a round each kind of event happens at most once, in the order listen, query, speak, dispatch; speech precedes dispatch. |
| SessionProperties.RoundQueriesIffValidModel | scripts/curigpt.py:35-36 | A round queries the service exactly when the model name is valid. An invalid name ends the round with ValueError right after listening. |
| SessionProperties.LoopFacts | scripts/curigpt.py:188-206 | The loop starts at most one round per remaining round and finishes only after starting all of them. A decode failure in round k ends it after exactly k+1 rounds. Its log stays consistent. |
| SessionProperties.TeardownExactlyOnce | scripts/curigpt.py:183-223 | The non-append branch starts the capture once. It signals shutdown and joins the capture exactly once each, as its last two effects, on every exit path. |
| SessionProperties.AppendBranchNeverTearsDown | scripts/curigpt.py:225-235 | The append branch starts the capture, never signals shutdown or joins, never queries, and always ends in an exception. That exception is a ValueError exactly when `rounds < 1`. |
| SessionProperties.SessionLogMatchesConfig | scripts/curigpt.py:180-216 | Every query sends the transcription just heard, with the prompt image (`rgb_img_path` when real-time, else `local_img_path`), to the configured model. Every speech and dispatch is of a truthy value, and every dispatch uses `rgb_img_path` and `depth_img_path`. |
| SessionProperties.DecodeFailureEndsSession | scripts/curigpt.py:202-223 | A reply that is not JSON ends the whole session after exactly round k+1, and teardown still follows. |
| SessionProperties.FinishedRunsEveryRound | scripts/curigpt.py:188-216 | A session that ends normally has started all `rounds` rounds. |
| SessionProperties.NoRoundsOnlyLifecycle | scripts/curigpt.py:183-223 | With no rounds, the non-append branch only starts the capture and tears it down. |
| SessionProperties.InvalidModelNeverQueries | scripts/curigpt.py:35-36 | An invalid model name raises ValueError in the first round before any query, and teardown follows. |
| SessionProperties.ChatModelRaisesInFirstRound | scripts/curigpt.py:193-206 | With `qwen-vl-chat-v1` the first round sends its query and then raises. On an OK status the exception is the TypeError from `json.loads` of a list. Nothing is spoken or dispatched. |

## Left out

- Network, audio and ROS: the `dashscope` calls, recording, transcription, text to speech, `rospy.init_node` and the `AudioAssistant` construction. Their results are inputs; their calls are log entries or are not modelled. Any exception they raise is not modelled (in the source it would end the session through the same `finally`).
- The capture thread (`save_images_gemini`): only its start and join are log entries. Concurrency is not modelled.
- `get_spatial_coordinates`, `plot_image_with_bbox` and the three handlers come from other files. They are not part of this model: deprojection is a function parameter, the plot and handler calls are trace entries, and any exception they raise is not modelled.
- The intrinsics are kept as one constant with the source's decimal values. Open3D and floating-point arithmetic are not modelled.
- JSON numbers are integers, and `json.loads` is a parameter. Text parsing, floats and the exact JSONDecodeError message are not modelled.
- The shape of the service's answer is reduced to a status, an optional content list (absent output raises TypeError) and the printed error code and message.
- Every `print` call, the unused `log` parameter, and `api_key`, `base_url`, `user_input` and `curigpt_output`, which only configure the `AudioAssistant`.
- `publish_waypoint_to_service`: a ROS service client, pure I/O.
- `get_curi_response`, and the append branch's loop beyond its first call: both call `single_multimodal_call` with the wrong number of arguments, so the first call raises TypeError. Only that raise is modelled.
- Configuration loading and the prompt texts, apart from the two exemplar replies used as concrete dispatch instances.
