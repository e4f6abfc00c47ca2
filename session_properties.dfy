/**
  Properties of the audio session: what one round may emit and in which
  order, what every query and dispatch of a session carries, how many
  rounds run before each kind of ending, and that the non-append branch
  tears down exactly once whatever ends it.
 */
module SessionProperties {
  import opened PyValues
  import opened ActionUtils
  import opened Conversation
  import opened AudioSession

  /** The position of an event kind within one round. */
  function Rank(e: SessionEvent): nat
  {
    match e
    case Listened(_) => 0
    case Queried(_) => 1
    case Spoke(_) => 2
    case Dispatched(_, _) => 3
    case _ => 4
  }

  /** Events the round loop emits (no capture, shutdown or typed input). */
  predicate LoopEvent(e: SessionEvent)
  {
    e.Listened? || e.Queried? || e.Spoke? || e.Dispatched?
  }

  /** Event `j` of a loop log is a loop event, and what it carries agrees
      with the configuration: a query follows the transcription it sends,
      with the prompt image and the configured model; speech and dispatch
      happen only on truthy parts of the reply, and a dispatch uses the
      camera images. */
  predicate EventMatchesConfig(cfg: Config, base: seq<Turn>, deproject: Deprojector, events: seq<SessionEvent>, j: int)
    requires 0 <= j < |events|
  {
    && LoopEvent(events[j])
    && (events[j].Queried? ==>
          && 0 < j && events[j - 1].Listened?
          && events[j].request.model == cfg.modelName
          && events[j].request == RequestFor(cfg.modelName,
                                             base + [UserTurn(PromptImagePath(cfg), events[j - 1].transcription)]))
    && (events[j].Spoke? ==> Truthy(events[j].speech))
    && (events[j].Dispatched? ==>
          && Truthy(events[j].actions)
          && events[j].calls == Dispatch(events[j].actions, cfg.rgbImgPath, cfg.depthImgPath, deproject).calls)
  }

  predicate LogMatchesConfig(cfg: Config, base: seq<Turn>, deproject: Deprojector, events: seq<SessionEvent>)
  {
    forall j :: 0 <= j < |events| ==> EventMatchesConfig(cfg, base, deproject, events, j)
  }

  /** The number of rounds that started (one `Listened` each). */
  function Listens(events: seq<SessionEvent>): nat
  {
    if events == [] then 0 else (if events[0].Listened? then 1 else 0) + Listens(events[1..])
  }

  lemma {:induction false} ListensAppend(a: seq<SessionEvent>, b: seq<SessionEvent>)
    ensures Listens(a + b) == Listens(a) + Listens(b)
  {
    if a == [] {
      assert a + b == b;
    } else {
      assert (a + b)[1..] == a[1..] + b;
      ListensAppend(a[1..], b);
    }
  }

  /** A log without `Listened` events starts no round. */
  lemma {:induction false} NoListens(events: seq<SessionEvent>)
    requires forall j :: 0 <= j < |events| ==> !events[j].Listened?
    ensures Listens(events) == 0
  {
    if events != [] {
      NoListens(events[1..]);
    }
  }

  /** Agreement with the configuration survives joining two logs when the
      second does not start with a query (whose transcription would then be
      in the first). */
  lemma LogMatchesConfigAppend(cfg: Config, base: seq<Turn>, deproject: Deprojector, a: seq<SessionEvent>, b: seq<SessionEvent>)
    requires LogMatchesConfig(cfg, base, deproject, a) && LogMatchesConfig(cfg, base, deproject, b)
    requires |b| > 0 ==> !b[0].Queried?
    ensures LogMatchesConfig(cfg, base, deproject, a + b)
  {
    var ab := a + b;
    forall j | 0 <= j < |ab|
      ensures EventMatchesConfig(cfg, base, deproject, ab, j)
    {
      if j < |a| {
        assert EventMatchesConfig(cfg, base, deproject, a, j);
        assert ab[j] == a[j];
        if 0 < j { assert ab[j - 1] == a[j - 1]; }
      } else {
        assert EventMatchesConfig(cfg, base, deproject, b, j - |a|);
        assert ab[j] == b[j - |a|];
        if |a| < j { assert ab[j - 1] == b[j - 1 - |a|]; }
      }
    }
  }

  /** Up to the service call a round listens, then queries exactly when the
      model name is valid, sending the transcription with the prompt image
      after the base turns. */
  lemma AskedShape(cfg: Config, base: seq<Turn>, instruction: string, reply: ServiceReply, deproject: Deprojector)
    ensures var call := SingleCall(cfg.modelName, base, instruction, PromptImagePath(cfg), reply, true);
            var request := RequestFor(cfg.modelName, base + [UserTurn(PromptImagePath(cfg), instruction)]);
            var asked := Asked(instruction, call.sent);
            && (cfg.modelName in ModelNames ==> asked == [Listened(instruction), Queried(request)])
            && (cfg.modelName !in ModelNames ==> asked == [Listened(instruction)])
            && LogMatchesConfig(cfg, base, deproject, asked)
  {
    var call := SingleCall(cfg.modelName, base, instruction, PromptImagePath(cfg), reply, true);
    var asked := Asked(instruction, call.sent);
    if cfg.modelName in ModelNames {
      assert EventMatchesConfig(cfg, base, deproject, asked, 1);
    }
  }

  /** After the query a round emits at most a speech and then a dispatch,
      each only for a truthy part of the decoded reply; a decode failure
      names the round it happened in; and the loop goes on only when the
      reply was text. */
  lemma ReplyShape(cfg: Config, base: seq<Turn>, i: nat, out: Result<Option<Response>>, decode: Decoder,
                   deproject: Deprojector)
    ensures var r := ReplyStep(cfg, i, out, decode, deproject);
            && |r.events| <= 2
            && (forall j :: 0 <= j < |r.events| ==> r.events[j].Spoke? || r.events[j].Dispatched?)
            && (|r.events| == 2 ==> r.events[0].Spoke? && r.events[1].Dispatched?)
            && LogMatchesConfig(cfg, base, deproject, r.events)
            && (r.stop.Some? ==> !r.stop.value.Finished?)
            && (r.stop.Some? && r.stop.value.DecodeFailed? ==> r.stop.value.round == i)
            && (r.stop.None? ==> out.Ok? && out.value.Some? && out.value.value.TextReply?)
  {
  }

  /** When the decoded reply's `robot_response` is `verbal`, the round speaks
      exactly when `verbal` is truthy, and what it speaks is `verbal`. */
  lemma SpeechGated(cfg: Config, i: nat, text: string, decode: Decoder, deproject: Deprojector,
                    data: Json, verbal: Json)
    requires decode(text) == Some(data)
    requires Subscript(data, StrKey("robot_response")) == Ok(verbal)
    ensures var r := ReplyStep(cfg, i, Ok(Some(TextReply(text))), decode, deproject);
            && (Spoke(verbal) in r.events <==> Truthy(verbal))
            && (forall e :: e in r.events && e.Spoke? ==> e == Spoke(verbal))
  {
  }

  /** When the decoded reply's `robot_actions` is `actions`, the round
      dispatches exactly when `actions` is truthy, and what it dispatches is
      `actions`, with the calls `process_robot_actions` makes on them. */
  lemma DispatchGated(cfg: Config, i: nat, text: string, decode: Decoder, deproject: Deprojector,
                      data: Json, verbal: Json, actions: Json)
    requires decode(text) == Some(data)
    requires Subscript(data, StrKey("robot_response")) == Ok(verbal)
    requires Subscript(data, StrKey("robot_actions")) == Ok(actions)
    ensures var r := ReplyStep(cfg, i, Ok(Some(TextReply(text))), decode, deproject);
            var d := Dispatch(actions, cfg.rgbImgPath, cfg.depthImgPath, deproject);
            && (Dispatched(actions, d.calls) in r.events <==> Truthy(actions))
            && (forall e :: e in r.events && e.Dispatched? ==> e == Dispatched(actions, d.calls))
            && (!Truthy(actions) ==> r.stop.None?)
            && (Truthy(actions) && d.raised.None? ==> r.stop.None?)
            && (Truthy(actions) && d.raised.Some? ==> r.stop == Some(Raised(d.raised.value)))
  {
    var r := ReplyStep(cfg, i, Ok(Some(TextReply(text))), decode, deproject);
    if Truthy(actions) {
      assert r.events[|r.events| - 1].Dispatched?;
    }
  }

  /** The facts about one round that the loop needs: it starts by listening,
      starts no other round, emits only events that match the configuration, never stops the
      loop as if it had finished, and a decode failure in it names round `k`. */
  predicate RoundFacts(cfg: Config, base: seq<Turn>, deproject: Deprojector, k: nat, step: Step)
  {
    && |step.events| > 0 && step.events[0].Listened?
    && Listens(step.events) == 1
    && LogMatchesConfig(cfg, base, deproject, step.events)
    && (step.stop.Some? ==> !step.stop.value.Finished?)
    && (step.stop.Some? && step.stop.value.DecodeFailed? ==> step.stop.value.round == k)
  }

  lemma RoundStepFacts(cfg: Config, base: seq<Turn>, i: nat, input: RoundInput, decode: Decoder, deproject: Deprojector)
    ensures RoundFacts(cfg, base, deproject, i, RoundStep(cfg, base, i, input, decode, deproject))
    ensures RoundStep(cfg, base, i, input, decode, deproject).events[0] == Listened(input.instruction)
  {
    var call := SingleCall(cfg.modelName, base, input.instruction, PromptImagePath(cfg), input.reply, true);
    var asked := Asked(input.instruction, call.sent);
    var reply := ReplyStep(cfg, i, call.out, decode, deproject);
    AskedShape(cfg, base, input.instruction, input.reply, deproject);
    ReplyShape(cfg, base, i, call.out, decode, deproject);
    LogMatchesConfigAppend(cfg, base, deproject, asked, reply.events);
    ListensAppend(asked, reply.events);
    NoListens(reply.events);
    NoListens(asked[1..]);
    assert asked == [asked[0]] + asked[1..];
    ListensAppend([asked[0]], asked[1..]);
  }

  /** A round emits each kind of event at most once, in the order listen,
      query, speak, dispatch: speech precedes dispatch. */
  lemma RoundOrder(cfg: Config, base: seq<Turn>, i: nat, input: RoundInput, decode: Decoder, deproject: Deprojector)
    ensures var step := RoundStep(cfg, base, i, input, decode, deproject);
            forall j, k :: 0 <= j < k < |step.events| ==> Rank(step.events[j]) < Rank(step.events[k])
  {
    var call := SingleCall(cfg.modelName, base, input.instruction, PromptImagePath(cfg), input.reply, true);
    var asked := Asked(input.instruction, call.sent);
    var reply := ReplyStep(cfg, i, call.out, decode, deproject);
    AskedShape(cfg, base, input.instruction, input.reply, deproject);
    ReplyShape(cfg, base, i, call.out, decode, deproject);
    var events := asked + reply.events;
    forall j, k | 0 <= j < k < |events|
      ensures Rank(events[j]) < Rank(events[k])
    {
      if k < |asked| {
        assert j == 0 && k == 1;
      } else if j < |asked| {
        assert events[k] == reply.events[k - |asked|];
      } else {
        assert events[j] == reply.events[j - |asked|] && events[k] == reply.events[k - |asked|];
      }
    }
  }

  /** A round queries the service exactly when the model name is valid; an
      invalid name ends the round with ValueError right after listening. */
  lemma RoundQueriesIffValidModel(cfg: Config, base: seq<Turn>, i: nat, input: RoundInput, decode: Decoder,
                                  deproject: Deprojector)
    ensures var step := RoundStep(cfg, base, i, input, decode, deproject);
            && ((exists j :: 0 <= j < |step.events| && step.events[j].Queried?) <==> cfg.modelName in ModelNames)
            && (cfg.modelName !in ModelNames ==>
                  step == Step([Listened(input.instruction)],
                               Some(Raised(ValueError("Model name must be either 'qwen-vl-max' or 'qwen-vl-chat-v1'.")))))
  {
    var call := SingleCall(cfg.modelName, base, input.instruction, PromptImagePath(cfg), input.reply, true);
    var asked := Asked(input.instruction, call.sent);
    var reply := ReplyStep(cfg, i, call.out, decode, deproject);
    var events := asked + reply.events;
    AskedShape(cfg, base, input.instruction, input.reply, deproject);
    ReplyShape(cfg, base, i, call.out, decode, deproject);
    assert RoundStep(cfg, base, i, input, decode, deproject).events == events;
    if cfg.modelName in ModelNames {
      assert events[1] == asked[1];
    } else {
      assert reply == Step([], Some(Raised(ValueError("Model name must be either 'qwen-vl-max' or 'qwen-vl-chat-v1'."))));
      assert forall j :: 0 <= j < |events| ==> !events[j].Queried?;
    }
  }

  /** Every round of a session has the facts the loop needs. */
  lemma AllRoundFacts(cfg: Config, base: seq<Turn>, env: nat -> RoundInput, decode: Decoder, deproject: Deprojector)
    ensures forall k: nat :: RoundFacts(cfg, base, deproject, k, Rounds(cfg, base, env, decode, deproject)(k))
  {
    forall k: nat
      ensures RoundFacts(cfg, base, deproject, k, Rounds(cfg, base, env, decode, deproject)(k))
    {
      RoundStepFacts(cfg, base, k, env(k), decode, deproject);
    }
  }

  /** The loop from round `i` on, over any rounds with `RoundFacts`: its log
      matches the configuration; it starts at most one round per remaining round; it
      finishes only after starting all of them; and a decode failure in
      round `k` ends it after `k - i + 1` rounds. */
  lemma {:induction false} LoopFacts(cfg: Config, base: seq<Turn>, deproject: Deprojector, steps: nat -> Step, i: nat)
    requires forall k: nat :: RoundFacts(cfg, base, deproject, k, steps(k))
    ensures var r := Loop(cfg.rounds, steps, i);
            var left := if cfg.rounds > i then cfg.rounds - i else 0;
            && LogMatchesConfig(cfg, base, deproject, r.events)
            && (|r.events| > 0 ==> r.events[0].Listened?)
            && Listens(r.events) <= left
            && (r.outcome.Finished? ==> Listens(r.events) == left)
            && (r.outcome.DecodeFailed? ==>
                  i <= r.outcome.round < cfg.rounds && Listens(r.events) == r.outcome.round - i + 1)
    decreases if cfg.rounds > i then cfg.rounds - i else 0
  {
    var r := Loop(cfg.rounds, steps, i);
    if i < cfg.rounds {
      assert RoundFacts(cfg, base, deproject, i, steps(i));
      if steps(i).stop.None? {
        var rest := Loop(cfg.rounds, steps, i + 1);
        LoopFacts(cfg, base, deproject, steps, i + 1);
        assert r == SessionRun(steps(i).events + rest.events, rest.outcome);
        LogMatchesConfigAppend(cfg, base, deproject, steps(i).events, rest.events);
        ListensAppend(steps(i).events, rest.events);
      }
    }
  }

  /** `LoopFacts` for the rounds of a session. */
  lemma SessionLoopFacts(cfg: Config, base: seq<Turn>, env: nat -> RoundInput, decode: Decoder, deproject: Deprojector)
    ensures var r := Loop(cfg.rounds, Rounds(cfg, base, env, decode, deproject), 0);
            var left := if cfg.rounds > 0 then cfg.rounds else 0;
            && LogMatchesConfig(cfg, base, deproject, r.events)
            && Listens(r.events) <= left
            && (r.outcome.Finished? ==> Listens(r.events) == left)
            && (r.outcome.DecodeFailed? ==> r.outcome.round < cfg.rounds && Listens(r.events) == r.outcome.round + 1)
  {
    AllRoundFacts(cfg, base, env, decode, deproject);
    LoopFacts(cfg, base, deproject, Rounds(cfg, base, env, decode, deproject), 0);
  }

  /** No event of a log that matches the configuration is a capture,
      shutdown or typed-input event. */
  lemma LoopHasNoLifecycle(cfg: Config, base: seq<Turn>, deproject: Deprojector, events: seq<SessionEvent>)
    requires LogMatchesConfig(cfg, base, deproject, events)
    ensures CaptureStarted !in events && ShutdownSignalled !in events && CaptureJoined !in events
    ensures forall j :: 0 <= j < |events| ==> !events[j].Typed?
  {
    forall j | 0 <= j < |events|
      ensures LoopEvent(events[j])
    {
      assert EventMatchesConfig(cfg, base, deproject, events, j);
    }
  }

  /** A loop log between the start and the teardown: the capture starts
      once, and shutdown and join happen once each, at the end. */
  lemma {:induction false} LifecycleOnce(loop: seq<SessionEvent>)
    requires CaptureStarted !in loop && ShutdownSignalled !in loop && CaptureJoined !in loop
    ensures var events := [CaptureStarted] + loop + [ShutdownSignalled, CaptureJoined];
            && events[|events| - 2..] == [ShutdownSignalled, CaptureJoined]
            && multiset(events)[CaptureStarted] == 1
            && multiset(events)[ShutdownSignalled] == 1
            && multiset(events)[CaptureJoined] == 1
  {
    var events := [CaptureStarted] + loop + [ShutdownSignalled, CaptureJoined];
    assert multiset(events) == multiset([CaptureStarted]) + multiset(loop) + multiset([ShutdownSignalled, CaptureJoined]);
  }

  /** The non-append branch starts the capture once, and signals shutdown and
      joins the capture exactly once, as its last two effects, however the
      loop ended (all rounds, a decode failure, or an exception). */
  lemma TeardownExactlyOnce(cfg: Config, base: seq<Turn>, env: nat -> RoundInput, decode: Decoder,
                            deproject: Deprojector)
    requires !cfg.promptAppend
    ensures var s := Session(cfg, base, env, decode, deproject);
            && |s.events| >= 3
            && s.events[0] == CaptureStarted
            && s.events[|s.events| - 2..] == [ShutdownSignalled, CaptureJoined]
            && multiset(s.events)[CaptureStarted] == 1
            && multiset(s.events)[ShutdownSignalled] == 1
            && multiset(s.events)[CaptureJoined] == 1
  {
    var loop := Loop(cfg.rounds, Rounds(cfg, base, env, decode, deproject), 0);
    SessionLoopFacts(cfg, base, env, decode, deproject);
    LoopHasNoLifecycle(cfg, base, deproject, loop.events);
    LifecycleOnce(loop.events);
  }

  /** The append branch starts the capture but never signals shutdown or
      joins it, and it always ends in an exception: ValueError when fewer
      than one round is asked for, TypeError from the first round otherwise. */
  lemma AppendBranchNeverTearsDown(cfg: Config, base: seq<Turn>, env: nat -> RoundInput, decode: Decoder,
                                   deproject: Deprojector)
    requires cfg.promptAppend
    ensures var s := Session(cfg, base, env, decode, deproject);
            && CaptureStarted in s.events
            && ShutdownSignalled !in s.events && CaptureJoined !in s.events
            && s.outcome.Raised?
            && (cfg.rounds < 1 <==> s.outcome.error.ValueError?)
            && (forall j :: 0 <= j < |s.events| ==> !s.events[j].Queried?)
  {
  }

  /** Every query, speech and dispatch of a session agrees with the
      configuration (see `EventMatchesConfig`): in particular the image sent is the
      prompt image, while a dispatch always uses the camera's RGB and depth
      paths, even when the prompt image is the local one. */
  lemma SessionLogMatchesConfig(cfg: Config, base: seq<Turn>, env: nat -> RoundInput, decode: Decoder,
                          deproject: Deprojector)
    requires !cfg.promptAppend
    ensures var s := Session(cfg, base, env, decode, deproject);
            |s.events| >= 3 && LogMatchesConfig(cfg, base, deproject, s.events[1..|s.events| - 2])
  {
    var loop := Loop(cfg.rounds, Rounds(cfg, base, env, decode, deproject), 0);
    SessionLoopFacts(cfg, base, env, decode, deproject);
    var s := Session(cfg, base, env, decode, deproject);
    assert s.events[1..|s.events| - 2] == loop.events;
  }

  /** The lifecycle events start no round. */
  lemma SessionListens(cfg: Config, base: seq<Turn>, env: nat -> RoundInput, decode: Decoder, deproject: Deprojector)
    requires !cfg.promptAppend
    ensures Listens(Session(cfg, base, env, decode, deproject).events) ==
            Listens(Loop(cfg.rounds, Rounds(cfg, base, env, decode, deproject), 0).events)
  {
    var loop := Loop(cfg.rounds, Rounds(cfg, base, env, decode, deproject), 0);
    LifecycleListens(loop.events);
  }

  lemma LifecycleListens(loop: seq<SessionEvent>)
    ensures Listens([CaptureStarted] + loop + [ShutdownSignalled, CaptureJoined]) == Listens(loop)
  {
    ListensAppend([CaptureStarted], loop);
    ListensAppend([CaptureStarted] + loop, [ShutdownSignalled, CaptureJoined]);
    NoListens([ShutdownSignalled, CaptureJoined]);
    NoListens([CaptureStarted]);
  }

  /** A reply that is not JSON ends the whole session, not just its round:
      no later round starts, and teardown still follows. */
  lemma DecodeFailureEndsSession(cfg: Config, base: seq<Turn>, env: nat -> RoundInput, decode: Decoder,
                                 deproject: Deprojector)
    ensures var s := Session(cfg, base, env, decode, deproject);
            s.outcome.DecodeFailed? ==>
              && !cfg.promptAppend
              && s.outcome.round < cfg.rounds
              && Listens(s.events) == s.outcome.round + 1
              && s.events[|s.events| - 2..] == [ShutdownSignalled, CaptureJoined]
  {
    if !cfg.promptAppend {
      SessionLoopFacts(cfg, base, env, decode, deproject);
      SessionListens(cfg, base, env, decode, deproject);
    }
  }

  /** A session that finishes has run every round. */
  lemma FinishedRunsEveryRound(cfg: Config, base: seq<Turn>, env: nat -> RoundInput, decode: Decoder,
                               deproject: Deprojector)
    ensures var s := Session(cfg, base, env, decode, deproject);
            s.outcome.Finished? ==> !cfg.promptAppend && Listens(s.events) == if cfg.rounds > 0 then cfg.rounds else 0
  {
    if !cfg.promptAppend {
      SessionLoopFacts(cfg, base, env, decode, deproject);
      SessionListens(cfg, base, env, decode, deproject);
    }
  }

  /** With no rounds the non-append branch only starts and tears down. */
  lemma NoRoundsOnlyLifecycle(cfg: Config, base: seq<Turn>, env: nat -> RoundInput, decode: Decoder,
                              deproject: Deprojector)
    requires !cfg.promptAppend && cfg.rounds <= 0
    ensures Session(cfg, base, env, decode, deproject) ==
            SessionRun([CaptureStarted, ShutdownSignalled, CaptureJoined], Finished)
  {
    assert [CaptureStarted] + [] + [ShutdownSignalled, CaptureJoined] == [CaptureStarted, ShutdownSignalled, CaptureJoined];
  }

  /** An invalid model name raises ValueError in the first round, before any
      query; teardown follows. */
  lemma InvalidModelNeverQueries(cfg: Config, base: seq<Turn>, env: nat -> RoundInput, decode: Decoder,
                                 deproject: Deprojector)
    requires !cfg.promptAppend && cfg.rounds >= 1 && cfg.modelName !in ModelNames
    ensures Session(cfg, base, env, decode, deproject) ==
            SessionRun([CaptureStarted, Listened(env(0).instruction), ShutdownSignalled, CaptureJoined],
                       Raised(ValueError("Model name must be either 'qwen-vl-max' or 'qwen-vl-chat-v1'.")))
  {
    RoundQueriesIffValidModel(cfg, base, 0, env(0), decode, deproject);
  }

  /** With `qwen-vl-chat-v1` the first round always raises: the reply is a
      content list (or missing), which `json.loads` rejects with TypeError
      rather than a decode error, so nothing is ever spoken or dispatched
      and the decoder is never consulted. */
  lemma ChatModelRaisesInFirstRound(cfg: Config, base: seq<Turn>, env: nat -> RoundInput, decode: Decoder,
                                    deproject: Deprojector)
    requires !cfg.promptAppend && cfg.rounds >= 1 && cfg.modelName == QwenVlChatV1
    ensures var s := Session(cfg, base, env, decode, deproject);
            var request := RequestFor(QwenVlChatV1, base + [UserTurn(PromptImagePath(cfg), env(0).instruction)]);
            && s.events == [CaptureStarted, Listened(env(0).instruction), Queried(request), ShutdownSignalled, CaptureJoined]
            && s.outcome.Raised?
            && (env(0).reply.status == HttpOk ==> s.outcome == Raised(TypeError))
  {
    var call := SingleCall(cfg.modelName, base, env(0).instruction, PromptImagePath(cfg), env(0).reply, true);
    AskedShape(cfg, base, env(0).instruction, env(0).reply, deproject);
    assert call.out.Ok? ==> call.out.value.Some? && call.out.value.value.ContentReply?;
  }
}
