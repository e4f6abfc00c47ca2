/**
  The audio-driven session loop: start the background image capture, then
  per round listen, query the reasoning service, decode its JSON reply,
  speak the verbal part and dispatch the action part; on every way out of
  the loop (normal end, an early return after a decode failure, an
  exception) signal shutdown and join the capture thread.

  Audio recording, transcription, speech, ROS and the capture thread are
  not modelled: what the outside world supplies in round `i` is `env(i)`,
  `json.loads` is the parameter `decode`, and each effect the loop has on
  the outside world is one `SessionEvent` in the returned log.
 */
module AudioSession {
  import opened PyValues
  import opened ActionUtils
  import opened Conversation

  /** The arguments of `get_curi_response_with_audio` the loop depends on. */
  datatype Config = Config(modelName: string, rgbImgPath: string, depthImgPath: string, localImgPath: string,
                           rounds: int, realtimeFlag: bool, promptAppend: bool)

  /** What one round receives from outside: the instruction (transcribed
      speech, or typed text in append mode) and the service's answer. */
  datatype RoundInput = RoundInput(instruction: string, reply: ServiceReply)

  /** The session's effects on the outside world, in order. */
  datatype SessionEvent =
    | CaptureStarted                                    // image_thread.start()
    | Listened(transcription: string)                   // record_audio, transcribe_audio
    | Typed(instruction: string)                        // input(...)
    | Queried(request: Request)                         // the multimodal service call
    | Spoke(speech: Json)                               // text_to_speech
    | Dispatched(actions: Json, calls: seq<RobotCall>)  // process_robot_actions
    | ShutdownSignalled                                 // rospy.signal_shutdown
    | CaptureJoined                                     // image_thread.join()

  /** How the session ended: after all rounds, by returning on a reply that
      is not JSON, or by an exception. */
  datatype SessionOutcome = Finished | DecodeFailed(round: nat) | Raised(error: PyError)

  /** One round's events, and the outcome when the round ends the loop. */
  datatype Step = Step(events: seq<SessionEvent>, stop: Option<SessionOutcome>)

  datatype SessionRun = SessionRun(events: seq<SessionEvent>, outcome: SessionOutcome)

  type Decoder = string -> Option<Json>

  /** The image sent with every query. */
  function PromptImagePath(cfg: Config): (path: string)
    ensures path == (if cfg.realtimeFlag then cfg.rgbImgPath else cfg.localImgPath)
  {
    if cfg.realtimeFlag then cfg.rgbImgPath else cfg.localImgPath
  }

  /** The events up to the service call: listening, then the query when the
      call got as far as sending one. */
  function Asked(instruction: string, sent: Option<Request>): seq<SessionEvent>
  {
    [Listened(instruction)] + (if sent.Some? then [Queried(sent.value)] else [])
  }

  /** What round `i` does with the call's result once the query is made:
      decode the reply text, speak the verbal part when it is truthy, and
      dispatch the action part when it is truthy. */
  function ReplyStep(cfg: Config, i: nat, out: Result<Option<Response>>, decode: Decoder, deproject: Deprojector): Step
  {
    match out
    case Err(e) => Step([], Some(Raised(e)))
    case Ok(None) => Step([], Some(Raised(TypeError)))
    case Ok(Some(ContentReply(_))) =>
      // json.loads of a list raises TypeError, which the JSONDecodeError handler does not catch
      Step([], Some(Raised(TypeError)))
    case Ok(Some(TextReply(text))) =>
      match decode(text)
      case None => Step([], Some(DecodeFailed(i)))
      case Some(data) =>
        match Subscript(data, StrKey("robot_response"))
        case Err(e) => Step([], Some(Raised(e)))
        case Ok(verbal) =>
          var spoken := if Truthy(verbal) then [Spoke(verbal)] else [];
          match Subscript(data, StrKey("robot_actions"))
          case Err(e) => Step(spoken, Some(Raised(e)))
          case Ok(actions) =>
            if !Truthy(actions) then Step(spoken, None)
            else
              var d := Dispatch(actions, cfg.rgbImgPath, cfg.depthImgPath, deproject);
              Step(spoken + [Dispatched(actions, d.calls)],
                   if d.raised.Some? then Some(Raised(d.raised.value)) else None)
  }

  /** Round `i` of the non-append loop, as a function of its inputs. */
  function RoundStep(cfg: Config, base: seq<Turn>, i: nat, input: RoundInput,
                     decode: Decoder, deproject: Deprojector): Step
  {
    var call := SingleCall(cfg.modelName, base, input.instruction, PromptImagePath(cfg), input.reply, true);
    var reply := ReplyStep(cfg, i, call.out, decode, deproject);
    Step(Asked(input.instruction, call.sent) + reply.events, reply.stop)
  }

  /** Every round of a session, as a function of the round number. */
  function Rounds(cfg: Config, base: seq<Turn>, env: nat -> RoundInput, decode: Decoder,
                  deproject: Deprojector): nat -> Step
  {
    (k: nat) => RoundStep(cfg, base, k, env(k), decode, deproject)
  }

  /** `for i in range(rounds)` from round `i` on, over the rounds' steps: the
      loop stops at the first step that returns or raises. */
  function Loop(rounds: int, steps: nat -> Step, i: nat): SessionRun
    decreases if rounds > i then rounds - i else 0
  {
    if rounds <= i then SessionRun([], Finished)
    else if steps(i).stop.Some? then SessionRun(steps(i).events, steps(i).stop.value)
    else
      var rest := Loop(rounds, steps, i + 1);
      SessionRun(steps(i).events + rest.events, rest.outcome)
  }

  /** The whole session. In append mode the loop body cannot run: it calls
      `single_multimodal_call` with two positional arguments where four are
      required, so the first round raises TypeError right after reading the
      instruction; that branch has no teardown. */
  function Session(cfg: Config, base: seq<Turn>, env: nat -> RoundInput,
                   decode: Decoder, deproject: Deprojector): SessionRun
  {
    if !cfg.promptAppend then
      var loop := Loop(cfg.rounds, Rounds(cfg, base, env, decode, deproject), 0);
      SessionRun([CaptureStarted] + loop.events + [ShutdownSignalled, CaptureJoined], loop.outcome)
    else if cfg.rounds < 1 then
      SessionRun([CaptureStarted], Raised(ValueError("Number of rounds must be at least 1.")))
    else
      SessionRun([CaptureStarted, Typed(env(0).instruction)], Raised(TypeError))
  }

  /** The loop from round `i` on, after the events `done` of the earlier rounds. */
  function Resumed(rounds: int, steps: nat -> Step, done: seq<SessionEvent>, i: nat): SessionRun
  {
    var rest := Loop(rounds, steps, i);
    SessionRun(done + rest.events, rest.outcome)
  }

  /** Running round `i` either ends the loop with that round's outcome or
      leaves the rest of the loop to round `i + 1`. */
  lemma Advance(rounds: int, steps: nat -> Step, done: seq<SessionEvent>, i: nat)
    requires i < rounds
    ensures steps(i).stop.Some? ==>
              Resumed(rounds, steps, done, i) == SessionRun(done + steps(i).events, steps(i).stop.value)
    ensures steps(i).stop.None? ==>
              Resumed(rounds, steps, done, i) == Resumed(rounds, steps, done + steps(i).events, i + 1)
  {
    var rest := Loop(rounds, steps, i + 1);
    assert done + (steps(i).events + rest.events) == (done + steps(i).events) + rest.events;
  }

  /** One round of the non-append loop: listen, query, decode, speak when
      `robot_response` is truthy, dispatch when `robot_actions` is truthy. */
  method RunRound(cfg: Config, basePrompt: TurnList, i: nat, input: RoundInput,
                  decode: Decoder, getSpatialCoordinates: Deprojector)
    returns (events: seq<SessionEvent>, stop: Option<SessionOutcome>)
    ensures Step(events, stop) == RoundStep(cfg, basePrompt.turns, i, input, decode, getSpatialCoordinates)
  {
    var transcription := input.instruction;
    events, stop := [Listened(transcription)], None;

    var sent, response := SingleMultimodalCall(cfg.modelName, basePrompt, transcription, PromptImagePath(cfg),
                                               input.reply, true);
    if sent.Some? {
      events := events + [Queried(sent.value)];
    }
    if response.Err? {
      stop := Some(Raised(response.error));
      return;
    }
    if response.value.None? || response.value.value.ContentReply? {
      stop := Some(Raised(TypeError));
      return;
    }

    var outputData := decode(response.value.value.text);
    if outputData.None? {
      // "Error decoding JSON" is printed and the whole session returns
      stop := Some(DecodeFailed(i));
      return;
    }

    var verbalResponse := Subscript(outputData.value, StrKey("robot_response"));
    if verbalResponse.Err? {
      stop := Some(Raised(verbalResponse.error));
      return;
    }
    if Truthy(verbalResponse.value) {
      events := events + [Spoke(verbalResponse.value)];
    }

    var actionResponse := Subscript(outputData.value, StrKey("robot_actions"));
    if actionResponse.Err? {
      stop := Some(Raised(actionResponse.error));
      return;
    }
    if Truthy(actionResponse.value) {
      var calls, points, raised := ProcessRobotActions(actionResponse.value, cfg.rgbImgPath, cfg.depthImgPath,
                                                       getSpatialCoordinates);
      events := events + [Dispatched(actionResponse.value, calls)];
      if raised.Some? {
        stop := Some(Raised(raised.value));
      }
    }
  }

  /** The `for i in range(rounds)` loop of the non-append branch; it stops
      at the first round that returns or raises. */
  method RunRounds(cfg: Config, basePrompt: TurnList, env: nat -> RoundInput,
                   decode: Decoder, getSpatialCoordinates: Deprojector)
    returns (done: seq<SessionEvent>, outcome: SessionOutcome)
    ensures SessionRun(done, outcome) == Loop(cfg.rounds, Rounds(cfg, basePrompt.turns, env, decode, getSpatialCoordinates), 0)
  {
    ghost var steps := Rounds(cfg, basePrompt.turns, env, decode, getSpatialCoordinates);
    ghost var whole := Loop(cfg.rounds, steps, 0);
    done, outcome := [], Finished;
    assert [] + whole.events == whole.events;
    var i: nat := 0;
    while i < cfg.rounds
      invariant steps == Rounds(cfg, basePrompt.turns, env, decode, getSpatialCoordinates)
      invariant whole == Resumed(cfg.rounds, steps, done, i)
      decreases cfg.rounds - i
    {
      var roundEvents, stop := RunRound(cfg, basePrompt, i, env(i), decode, getSpatialCoordinates);
      assert steps(i) == Step(roundEvents, stop);
      Advance(cfg.rounds, steps, done, i);
      done := done + roundEvents;
      if stop.Some? {
        outcome := stop.value;
        return;
      }
      i := i + 1;
    }
    assert done + [] == done;
  }

  /** `get_curi_response_with_audio`: the non-append loop runs inside
      try/finally, so the shutdown signal and the join follow whatever ends
      the loop. */
  method GetCuriResponseWithAudio(cfg: Config, basePrompt: TurnList, env: nat -> RoundInput,
                                  decode: Decoder, getSpatialCoordinates: Deprojector)
    returns (events: seq<SessionEvent>, outcome: SessionOutcome)
    ensures SessionRun(events, outcome) == Session(cfg, basePrompt.turns, env, decode, getSpatialCoordinates)
  {
    events := [CaptureStarted];
    if !cfg.promptAppend {
      var done;
      done, outcome := RunRounds(cfg, basePrompt, env, decode, getSpatialCoordinates);
      events := events + done;
      // finally: signal shutdown, join the capture thread
      events := events + [ShutdownSignalled, CaptureJoined];
    } else {
      if cfg.rounds < 1 {
        outcome := Raised(ValueError("Number of rounds must be at least 1."));
      } else {
        events := events + [Typed(env(0).instruction)];
        outcome := Raised(TypeError);
      }
    }
  }
}
