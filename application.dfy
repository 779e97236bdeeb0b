/**
 * The application's orchestration of the terminal: fixed call sequences for
 * checking, opening and closing the connection, subscribing to real-time data,
 * and preparing and sending FID queries. Each operation is specified by a pure
 * function from the oracle and the trace before it to the trace after it and its
 * result; the methods of `Application` are proved to follow those functions.
 */
module App {
  import opened Common
  import opened Hana
  import opened TransactionProcessing

  /** What an operation does from a given trace: the trace after it and its result. */
  datatype Outcome<+T> = Outcome(trace: Trace, result: Result<T>)

  /** `get_connection_state`: the communication module must report state 1 and only
      then is the login state queried; the connection is up iff both hold. */
  function ConnectionStateRun(o: Oracle, t: Trace): (r: Outcome<bool>)
    ensures r.trace == t + [CommGetConnectState] +
                       (if o(t, CommGetConnectState) == Returned(Int(1)) then [Call.GetLoginState] else [])
    ensures r.result == Ok(true) <==>
              o(t, CommGetConnectState) == Returned(Int(1)) &&
              o(t + [CommGetConnectState], Call.GetLoginState).Returned? &&
              Truthy(o(t + [CommGetConnectState], Call.GetLoginState).value)
    ensures r.result.Err? <==>
              o(t, CommGetConnectState).Raised? ||
              (o(t, CommGetConnectState) == Returned(Int(1)) && o(t + [CommGetConnectState], Call.GetLoginState).Raised?)
  {
    var comm := GetCommStateStep(o, t);
    var t1 := t + comm.calls;
    if comm.result.Err? then Outcome(t1, Err(comm.result.fault))
    else if !comm.result.value then Outcome(t1, Ok(false))
    else
      var session := GetLoginStateStep(o, t1);
      var t2 := t1 + session.calls;
      if session.result.Err? then Outcome(t2, Err(session.result.fault))
      else Outcome(t2, Ok(session.result.value))
  }

  /** The trace after the health check and the logout that `disconnect` may issue. */
  function DisconnectCheckTrace(o: Oracle, t: Trace, cfg: Config): (trace: Trace)
  {
    var health := ConnectionStateRun(o, t);
    health.trace + (if health.result == Ok(true) then [CommLogout(cfg.userId)] else [])
  }

  /** `disconnect` gets as far as `unregister_real_all`: neither the health check
      nor the logout raised. */
  predicate DisconnectReachesUnregister(o: Oracle, t: Trace, cfg: Config)
  {
    var health := ConnectionStateRun(o, t);
    health.result.Ok? && (health.result.value ==> o(health.trace, CommLogout(cfg.userId)).Returned?)
  }

  /** `disconnect`: a health check, a logout only when the connection is up, and then
      `unregister_real_all` and `terminate` whatever the check and the logout returned. */
  function DisconnectRun(o: Oracle, t: Trace, cfg: Config): (r: Outcome<()>)
    ensures DisconnectReachesUnregister(o, t, cfg) ==>
      var t2 := DisconnectCheckTrace(o, t, cfg);
      r.trace == t2 + [AllUnRegisterReal] + (if o(t2, AllUnRegisterReal).Raised? then [] else [CommTerminate(1)])
    ensures !DisconnectReachesUnregister(o, t, cfg) ==> r.result.Err?
    ensures r.result.Ok? <==>
      DisconnectReachesUnregister(o, t, cfg) &&
      o(DisconnectCheckTrace(o, t, cfg), AllUnRegisterReal).Returned? &&
      o(DisconnectCheckTrace(o, t, cfg) + [AllUnRegisterReal], CommTerminate(1)).Returned?
  {
    var health := ConnectionStateRun(o, t);
    var t1 := health.trace;
    if health.result.Err? then Outcome(t1, Err(health.result.fault))
    else
      var logout := if health.result.value then LogoutStep(o, t1, cfg) else Step([], Ok(false));
      var t2 := t1 + logout.calls;
      if logout.result.Err? then Outcome(t2, Err(logout.result.fault))
      else
        var unregister := UnregisterRealAllStep(o, t2);
        var t3 := t2 + unregister.calls;
        if unregister.result.Err? then Outcome(t3, Err(unregister.result.fault))
        else
          var terminate := TerminateStep(o, t3);
          Outcome(t3 + terminate.calls, terminate.result)
  }

  /** `disconnect` issues `CommLogout` exactly when the health check reported a live connection. */
  lemma DisconnectLogsOutOnlyWhenConnected(o: Oracle, t: Trace, cfg: Config)
    ensures |t| <= |DisconnectRun(o, t, cfg).trace|
    ensures CommLogout(cfg.userId) in DisconnectRun(o, t, cfg).trace[|t|..] <==> ConnectionStateRun(o, t).result == Ok(true)
  {
    var health := ConnectionStateRun(o, t);
    var tail := if o(t, CommGetConnectState) == Returned(Int(1)) then [Call.GetLoginState] else [];
    var extra := if health.result == Ok(true) then [CommLogout(cfg.userId)] else [];
    var t2 := health.trace + extra;
    var rest: Trace :=
      if health.result.Err? || (health.result == Ok(true) && o(health.trace, CommLogout(cfg.userId)).Raised?) then []
      else if o(t2, AllUnRegisterReal).Raised? then [AllUnRegisterReal]
      else [AllUnRegisterReal, CommTerminate(1)];
    assert DisconnectRun(o, t, cfg).trace == t + ([CommGetConnectState] + tail + extra + rest);
    assert CommLogout(cfg.userId) !in [CommGetConnectState] + tail;
    assert CommLogout(cfg.userId) !in rest;
  }

  /** The calls of a `connect` in which nothing raises: initialise, mode (0, 1), the
      probing login, mode (0, 0), the real login, then the login-state query. */
  function ConnectCalls(cfg: Config): (calls: Trace)
  {
    [Call.CommInit, Call.SetLoginMode(0, 1)] + LoginCalls(cfg) + [Call.SetLoginMode(0, 0)] + LoginCalls(cfg) +
    [Call.GetLoginState]
  }

  /** `connect`. */
  function ConnectRun(o: Oracle, t: Trace, cfg: Config): (r: Outcome<()>)
    ensures r.result.Err? ==> r.result.fault in {TransportFault, CommInitFailed, LoginFailed}
    ensures r.result == Err(CommInitFailed) <==> o(t, Call.CommInit).Returned? && o(t, Call.CommInit).value != Int(0)
  {
    var init := CommInitStep(o, t);
    var t1 := t + init.calls;
    if init.result.Err? then Outcome(t1, Err(init.result.fault))
    else if !init.result.value then Outcome(t1, Err(CommInitFailed))
    else
      // first login attempt, whose result is only logged
      var probeMode := SetLoginModeStep(o, t1, 0, 1);
      var t2 := t1 + probeMode.calls;
      if probeMode.result.Err? then Outcome(t2, Err(probeMode.result.fault))
      else
        var probe := LoginStep(o, t2, cfg);
        var t3 := t2 + probe.calls;
        if probe.result.Err? then Outcome(t3, Err(probe.result.fault))
        else
          // second login attempt, which must succeed
          var realMode := SetLoginModeStep(o, t3, 0, 0);
          var t4 := t3 + realMode.calls;
          if realMode.result.Err? then Outcome(t4, Err(realMode.result.fault))
          else
            var login := LoginStep(o, t4, cfg);
            var t5 := t4 + login.calls;
            if login.result.Err? then Outcome(t5, Err(login.result.fault))
            else if !login.result.value then Outcome(t5, Err(LoginFailed))
            else
              var state := GetLoginStateStep(o, t5);
              var t6 := t5 + state.calls;
              if state.result.Err? then Outcome(t6, Err(state.result.fault)) else Outcome(t6, Ok(()))
  }

  /** A failed initialisation ends `connect` before any login mode is set or any login is tried. */
  lemma ConnectInitFailure(o: Oracle, t: Trace, cfg: Config)
    requires o(t, Call.CommInit).Returned? && o(t, Call.CommInit).value != Int(0)
    ensures ConnectRun(o, t, cfg) == Outcome(t + [Call.CommInit], Err(CommInitFailed))
  {
    assert CommInitStep(o, t).result == Ok(false);
  }

  /** The traces a `connect` passes through when every step returns: after
      initialisation, after mode (0, 1), after the probing login, after mode (0, 0)
      and after the real login. */
  function ConnectMarks(t: Trace, cfg: Config): (m: seq<Trace>)
    ensures |m| == 5
  {
    var t1 := t + [Call.CommInit];
    var t2 := t1 + [Call.SetLoginMode(0, 1)];
    var t3 := t2 + LoginCalls(cfg);
    var t4 := t3 + [Call.SetLoginMode(0, 0)];
    [t1, t2, t3, t4, t4 + LoginCalls(cfg)]
  }

  /** Step by step, what a successful `connect` needs of the terminal. */
  predicate ConnectSteps(o: Oracle, t: Trace, cfg: Config)
  {
    var m := ConnectMarks(t, cfg);
    && o(t, Call.CommInit) == Returned(Int(0))
    && o(m[0], Call.SetLoginMode(0, 1)).Returned?
    && NoRaise(o, m[1], LoginCalls(cfg))
    && o(m[2], Call.SetLoginMode(0, 0)).Returned?
    && NoRaise(o, m[3], LoginCalls(cfg))
    && Truthy(ReplyAt(o, m[3], LoginCalls(cfg), 1).value)
    && o(m[4], Call.GetLoginState).Returned?
  }

  lemma ConnectRunSteps(o: Oracle, t: Trace, cfg: Config)
    ensures ConnectRun(o, t, cfg).result.Ok? <==> ConnectSteps(o, t, cfg)
    ensures ConnectSteps(o, t, cfg) ==> ConnectRun(o, t, cfg).trace == ConnectMarks(t, cfg)[4] + [Call.GetLoginState]
  {
    if ConnectSteps(o, t, cfg) {
      var m := ConnectMarks(t, cfg);
      LoginAccepted(o, m[1], cfg);
      LoginAccepted(o, m[3], cfg);
    }
  }

  lemma LoginAccepted(o: Oracle, t: Trace, cfg: Config)
    requires NoRaise(o, t, LoginCalls(cfg))
    ensures LoginStep(o, t, cfg).calls == LoginCalls(cfg) && LoginStep(o, t, cfg).result.Ok?
  {
    assert ReplyAt(o, t, LoginCalls(cfg), 0).Returned?;
    assert t + LoginCalls(cfg)[..0] == t;
  }

  lemma ConnectStepsJoin(o: Oracle, t: Trace, cfg: Config)
    ensures ConnectMarks(t, cfg)[4] + [Call.GetLoginState] == t + ConnectCalls(cfg)
    ensures ConnectSteps(o, t, cfg) <==>
      NoRaise(o, t, ConnectCalls(cfg)) &&
      ReplyAt(o, t, ConnectCalls(cfg), 0) == Returned(Int(0)) &&
      Truthy(ReplyAt(o, t, ConnectCalls(cfg), 7).value)
  {
    var m := ConnectMarks(t, cfg);
    var login := LoginCalls(cfg);
    var c1, c2, c4, c6 := [Call.CommInit], [Call.SetLoginMode(0, 1)], [Call.SetLoginMode(0, 0)], [Call.GetLoginState];
    var cc := ConnectCalls(cfg);
    assert cc == c1 + (c2 + (login + (c4 + (login + c6))));
    NoRaiseAppend(o, t, c1, c2 + (login + (c4 + (login + c6))));
    NoRaiseAppend(o, m[0], c2, login + (c4 + (login + c6)));
    NoRaiseAppend(o, m[1], login, c4 + (login + c6));
    NoRaiseAppend(o, m[2], c4, login + c6);
    NoRaiseAppend(o, m[3], login, c6);
    assert ReplyAt(o, t, c1, 0) == o(t, c1[0]) by { assert t + c1[..0] == t; }
    assert ReplyAt(o, m[0], c2, 0) == o(m[0], c2[0]) by { assert m[0] + c2[..0] == m[0]; }
    assert ReplyAt(o, m[2], c4, 0) == o(m[2], c4[0]) by { assert m[2] + c4[..0] == m[2]; }
    assert ReplyAt(o, m[4], c6, 0) == o(m[4], c6[0]) by { assert m[4] + c6[..0] == m[4]; }
    ReplyAtAppend(o, t, c1, c2 + (login + (c4 + (login + c6))), 0);
    assert cc == (c1 + c2 + login + c4) + (login + c6);
    ReplyAtAppend(o, t, c1 + c2 + login + c4, login + c6, 7);
    ReplyAtAppend(o, m[3], login, c6, 1);
    assert t + (c1 + c2 + login + c4) == m[3];
    assert m[4] + c6 == t + cc;
  }

  /** `connect` succeeds exactly when none of the ten calls of `ConnectCalls` raises,
      initialisation returns 0 and the second login is accepted: the login-mode results
      and the probing login's result do not matter. It then issued exactly those calls. */
  lemma ConnectSuccess(o: Oracle, t: Trace, cfg: Config)
    ensures ConnectRun(o, t, cfg).result.Ok? <==>
      NoRaise(o, t, ConnectCalls(cfg)) &&
      ReplyAt(o, t, ConnectCalls(cfg), 0) == Returned(Int(0)) &&
      Truthy(ReplyAt(o, t, ConnectCalls(cfg), 7).value)
    ensures ConnectRun(o, t, cfg).result.Ok? ==> ConnectRun(o, t, cfg).trace == t + ConnectCalls(cfg)
  {
    ConnectRunSteps(o, t, cfg);
    ConnectStepsJoin(o, t, cfg);
  }

  /** With initialisation returning 0 and nothing raising up to the second login,
      a rejected second login ends `connect` with `LoginFailed` right after that
      login, before the login state is queried. */
  lemma ConnectLoginFailure(o: Oracle, t: Trace, cfg: Config)
    requires NoRaise(o, t, ConnectCalls(cfg)[..9])
    requires ReplyAt(o, t, ConnectCalls(cfg), 0) == Returned(Int(0))
    requires ReplyAt(o, t, ConnectCalls(cfg), 7).Returned? && !Truthy(ReplyAt(o, t, ConnectCalls(cfg), 7).value)
    ensures ConnectRun(o, t, cfg) == Outcome(t + ConnectCalls(cfg)[..9], Err(LoginFailed))
  {
    var login := LoginCalls(cfg);
    var c1, c2, c4 := [Call.CommInit], [Call.SetLoginMode(0, 1)], [Call.SetLoginMode(0, 0)];
    var cc := ConnectCalls(cfg);
    assert cc[..9] == c1 + (c2 + (login + (c4 + login)));
    NoRaiseAppend(o, t, c1, c2 + (login + (c4 + login)));
    var t1 := t + c1;
    NoRaiseAppend(o, t1, c2, login + (c4 + login));
    var t2 := t1 + c2;
    NoRaiseAppend(o, t2, login, c4 + login);
    var t3 := t2 + login;
    NoRaiseAppend(o, t3, c4, login);
    var t4 := t3 + c4;
    assert ReplyAt(o, t, c1, 0) == o(t, Call.CommInit) by { assert t + c1[..0] == t; }
    assert ReplyAt(o, t1, c2, 0) == o(t1, c2[0]) by { assert t1 + c2[..0] == t1; }
    assert ReplyAt(o, t3, c4, 0) == o(t3, c4[0]) by { assert t3 + c4[..0] == t3; }
    assert ReplyAt(o, t2, login, 0) == o(t2, login[0]) by { assert t2 + login[..0] == t2; }
    assert ReplyAt(o, t4, login, 0) == o(t4, login[0]) by { assert t4 + login[..0] == t4; }
    ReplyAtAppend(o, t, c1, c2 + (login + (c4 + login)), 0);
    assert cc == (c1 + c2 + login + c4) + (login + [Call.GetLoginState]);
    ReplyAtAppend(o, t, c1 + c2 + login + c4, login + [Call.GetLoginState], 7);
    ReplyAtAppend(o, t4, login, [Call.GetLoginState], 1);
    assert t + (c1 + c2 + login + c4) == t4;
    assert t4 + login == t + cc[..9];
  }

  /** The writes `set_fid_input(rid, fid, value)` for each `(fid, value)` of `inputs`. */
  function WriteCalls(rid: Value, inputs: seq<(string, string)>): (calls: Trace)
    ensures |calls| == |inputs|
  {
    seq(|inputs|, k requires 0 <= k < |inputs| => SetFidInputData(rid, inputs[k].0, inputs[k].1))
  }

  /** Every one of `calls`, issued after `t`, returned 1. */
  predicate AllOne(o: Oracle, t: Trace, calls: Trace)
  {
    forall k :: 0 <= k < |calls| ==> ReplyAt(o, t, calls, k) == Returned(Int(1))
  }

  /** Writes each input in turn, whatever the earlier writes returned, and reports
      whether all of them succeeded (the `f and s and g and t` of `init_fid`). */
  function WriteAll(o: Oracle, t: Trace, rid: Value, inputs: seq<(string, string)>): (r: Outcome<bool>)
    ensures r.result.Err? ==> r.result.fault == TransportFault
    ensures r.result.Ok? ==> |r.trace| == |t| + |inputs|
    decreases |inputs|
  {
    if inputs == [] then Outcome(t, Ok(true))
    else
      var write := SetFidInputStep(o, t, rid, inputs[0].0, inputs[0].1);
      if write.result.Err? then Outcome(t + write.calls, Err(write.result.fault))
      else
        var rest := WriteAll(o, t + write.calls, rid, inputs[1..]);
        Outcome(rest.trace, if rest.result.Err? then rest.result else Ok(write.result.value && rest.result.value))
  }

  /** When no write raises, every input is written, in order, and the result is true
      iff every write returned 1; a raise is the only way to fail. */
  lemma {:induction false} WriteAllOutcome(o: Oracle, t: Trace, rid: Value, inputs: seq<(string, string)>)
    ensures NoRaise(o, t, WriteCalls(rid, inputs)) ==>
      WriteAll(o, t, rid, inputs) == Outcome(t + WriteCalls(rid, inputs), Ok(AllOne(o, t, WriteCalls(rid, inputs))))
    ensures WriteAll(o, t, rid, inputs).result.Ok? ==> NoRaise(o, t, WriteCalls(rid, inputs))
    decreases |inputs|
  {
    if inputs != [] {
      var first := [SetFidInputData(rid, inputs[0].0, inputs[0].1)];
      var more := WriteCalls(rid, inputs[1..]);
      var t1 := t + first;
      assert WriteCalls(rid, inputs) == first + more;
      WriteAllOutcome(o, t1, rid, inputs[1..]);
      NoRaiseAppend(o, t, first, more);
      assert ReplyAt(o, t, first, 0) == o(t, first[0]) by { assert t + first[..0] == t; }
      if NoRaise(o, t, first + more) {
        Assoc(t, first, more);
        assert AllOne(o, t, first + more) <==> o(t, first[0]) == Returned(Int(1)) && AllOne(o, t1, more) by {
          forall k | 0 <= k < |first + more| {
            ReplyAtAppend(o, t, first, more, k);
          }
          if o(t, first[0]) == Returned(Int(1)) && AllOne(o, t1, more) {
            forall k | 0 <= k < |first + more|
              ensures ReplyAt(o, t, first + more, k) == Returned(Int(1))
            {
              if k > 0 {
                assert ReplyAt(o, t1, more, k - 1) == Returned(Int(1));
              }
            }
          }
          if AllOne(o, t, first + more) {
            assert ReplyAt(o, t, first + more, 0) == Returned(Int(1));
            forall k | 0 <= k < |more|
              ensures ReplyAt(o, t1, more, k) == Returned(Int(1))
            {
              assert ReplyAt(o, t, first + more, k + 1) == Returned(Int(1));
            }
          }
        }
      }
    }
  }

  /** The inputs `init_fid` writes: market FX, symbol D05GBP/AUD, group 1003, flag 9119 = 1. */
  const InitFidInputs: seq<(string, string)> := [("9001", "FX"), ("9002", "D05GBP/AUD"), ("GID", "1003"), ("9119", "1")]

  /** The inputs `set_fid_date_range` writes: the start date, then the end date. */
  function DateRangeInputs(startDateSeq: string, endDateSeq: string): (inputs: seq<(string, string)>)
  {
    [("9034", startDateSeq), ("9035", endDateSeq)]
  }

  /** `listen_real` after installing the handler: register, then fetch the output and
      run the event loop, whatever the registration returned. */
  function ListenRealRun(o: Oracle, t: Trace, cfg: Config): (r: Outcome<()>)
    ensures r.trace == t + [Call.RegisterReal(cfg.realName, cfg.symbol)] +
      (if o(t, Call.RegisterReal(cfg.realName, cfg.symbol)).Raised? then []
       else [Call.GetRealOutputData(cfg.realName, cfg.symbol)])
    ensures r.result.Ok? <==>
      o(t, Call.RegisterReal(cfg.realName, cfg.symbol)).Returned? &&
      o(t + [Call.RegisterReal(cfg.realName, cfg.symbol)], Call.GetRealOutputData(cfg.realName, cfg.symbol)).Returned?
  {
    var register := RegisterRealStep(o, t, cfg);
    var t1 := t + register.calls;
    if register.result.Err? then Outcome(t1, Err(register.result.fault))
    else
      var output := GetRealOutputDataStep(o, t1, cfg);
      Outcome(t1 + output.calls, if output.result.Err? then Err(output.result.fault) else Ok(()))
  }

  /** The output fields `request_fid` asks for: time, date, the sell and buy
      open/high/low/close prices and signs, and the spread. */
  const FidFields := "8,9,30,31,32,33,6,40,41,42,43,1098,666"

  /** The handler `listen_real` installs (`Application.on_receive_real_event`). */
  const ReceiveRealEvent := Handler("on_receive_real_event")

  /** `Application`: the terminal adapter and the transaction processor it owns. */
  class Application {
    const api: HanaApi
    const processor: TransactionProcessor

    constructor (config: Config, reply: Oracle, handlerOutcome: (Handler, Value) -> Result<()>)
      ensures fresh(api) && fresh(processor)
      ensures api.config == config && api.reply == reply && api.handlerOutcome == handlerOutcome
      ensures api.trace == [] && !api.loopRunning && api.realEventHandler == None && api.delivered == []
      ensures processor.counter == 0
    {
      api := new HanaApi(config, reply, handlerOutcome);
      processor := new TransactionProcessor();
    }

    method GetConnectionState() returns (r: Result<bool>)
      modifies api`trace
      ensures api.trace == ConnectionStateRun(api.reply, old(api.trace)).trace
      ensures r == ConnectionStateRun(api.reply, old(api.trace)).result
    {
      var commState :- api.GetCommState();
      if !commState {
        return Ok(false);
      }
      var hasSession :- api.GetLoginState();
      if !hasSession {
        return Ok(false);
      }
      return Ok(true);
    }

    method Disconnect() returns (r: Result<()>)
      modifies api`trace, api`loopRunning
      ensures api.trace == DisconnectRun(api.reply, old(api.trace), api.config).trace
      ensures r == DisconnectRun(api.reply, old(api.trace), api.config).result
      ensures api.loopRunning == (old(api.loopRunning) && !DisconnectReachesUnregister(api.reply, old(api.trace), api.config))
    {
      var isConnected :- GetConnectionState();
      var logoutSuccessful := false;
      if isConnected {
        logoutSuccessful :- api.Logout();
      } else {
        assert api.trace + [] == api.trace;
      }
      var unregisterSuccessful :- api.UnregisterRealAll();
      var _ :- api.Terminate();
      return Ok(());
    }

    method Connect() returns (r: Result<()>)
      modifies api`trace
      ensures api.trace == ConnectRun(api.reply, old(api.trace), api.config).trace
      ensures r == ConnectRun(api.reply, old(api.trace), api.config).result
    {
      var initCommResult :- api.CommInit();
      if !initCommResult {
        return Err(CommInitFailed);
      }
      // 1st login attempt (expected to fail)
      var setLoginModeResult :- api.SetLoginMode(0, 1);
      var loginSuccessful :- api.Login();
      // 2nd login attempt (expected to succeed)
      var _ :- api.SetLoginMode(0, 0);
      loginSuccessful :- api.Login();
      if !loginSuccessful {
        return Err(LoginFailed);
      }
      var loginState :- api.GetLoginState();
      return Ok(());
    }

    method ListenReal() returns (r: Result<()>)
      modifies api`trace, api`loopRunning, api`realEventHandler
      ensures api.realEventHandler == Some(ReceiveRealEvent)
      ensures api.trace == ListenRealRun(api.reply, old(api.trace), api.config).trace
      ensures r == ListenRealRun(api.reply, old(api.trace), api.config).result
      ensures api.loopRunning == (old(api.loopRunning) || r.Ok?)
    {
      api.SetRealEventHandler(ReceiveRealEvent);
      var registerReal :- api.RegisterReal();
      var _ :- api.GetRealOutputData();
      return Ok(());
    }

    method CreateRequestId() returns (r: Result<Value>)
      modifies api`trace
      ensures api.trace == old(api.trace) + CreateRequestIdStep(api.reply, old(api.trace)).calls
      ensures r == CreateRequestIdStep(api.reply, old(api.trace)).result
    {
      r := api.CreateRequestId();
    }

    method ReleaseRequestId(rid: Value) returns (r: Result<()>)
      modifies api`trace
      ensures api.trace == old(api.trace) + ReleaseRequestIdStep(api.reply, old(api.trace), rid).calls
      ensures r == ReleaseRequestIdStep(api.reply, old(api.trace), rid).result
    {
      r := api.ReleaseRequestId(rid);
    }

    method InitFid(rid: Value) returns (r: Result<bool>)
      modifies api`trace
      ensures api.trace == WriteAll(api.reply, old(api.trace), rid, InitFidInputs).trace
      ensures r == WriteAll(api.reply, old(api.trace), rid, InitFidInputs).result
    {
      ghost var inputs := InitFidInputs;
      assert inputs[1..] == [("9002", "D05GBP/AUD"), ("GID", "1003"), ("9119", "1")];
      assert inputs[1..][1..] == [("GID", "1003"), ("9119", "1")];
      assert inputs[1..][1..][1..] == [("9119", "1")];
      assert inputs[1..][1..][1..][1..] == [];
      var f :- api.SetFidInput(rid, "9001", "FX");
      var s :- api.SetFidInput(rid, "9002", "D05GBP/AUD");
      var g :- api.SetFidInput(rid, "GID", "1003");
      var t :- api.SetFidInput(rid, "9119", "1");
      return Ok(f && s && g && t);
    }

    method SetFidDateRange(rid: Value, startDateSeq: string, endDateSeq: string) returns (r: Result<bool>)
      modifies api`trace
      ensures api.trace == WriteAll(api.reply, old(api.trace), rid, DateRangeInputs(startDateSeq, endDateSeq)).trace
      ensures r == WriteAll(api.reply, old(api.trace), rid, DateRangeInputs(startDateSeq, endDateSeq)).result
    {
      ghost var inputs := DateRangeInputs(startDateSeq, endDateSeq);
      assert inputs[1..] == [("9035", endDateSeq)];
      assert inputs[1..][1..] == [];
      ghost var t0 := api.trace;
      var s :- api.SetFidInput(rid, "9034", startDateSeq);
      ghost var t1 := api.trace;
      var e :- api.SetFidInput(rid, "9035", endDateSeq);
      assert WriteAll(api.reply, api.trace, rid, inputs[1..][1..]) == Outcome(api.trace, Ok(true));
      assert WriteAll(api.reply, t1, rid, inputs[1..]) == Outcome(api.trace, Ok(e));
      assert WriteAll(api.reply, t0, rid, inputs) == Outcome(api.trace, Ok(s && e));
      return Ok(s && e);
    }

    method RequestFid(rid: Value) returns (r: Result<Value>)
      modifies api`trace, api`loopRunning
      ensures api.trace == old(api.trace) + RequestFidDataListStep(api.reply, old(api.trace), rid, FidFields, "1", "", 9999, 9999).calls
      ensures r == RequestFidDataListStep(api.reply, old(api.trace), rid, FidFields, "1", "", 9999, 9999).result
      ensures api.loopRunning == (old(api.loopRunning) || r.Ok?)
    {
      r := api.RequestFidDataList(rid, FidFields, "1", "", 9999, 9999);
    }

    method GetFidOutputData(rid: Value, fidCode: string, row: int) returns (r: Result<Value>)
      modifies api`trace
      ensures api.trace == old(api.trace) + GetFidOutputDataStep(api.reply, old(api.trace), rid, fidCode, row).calls
      ensures r == GetFidOutputDataStep(api.reply, old(api.trace), rid, fidCode, row).result
    {
      r := api.GetFidOutputData(rid, fidCode, row);
    }

    method GetFidResponseCount(rid: Value) returns (r: Result<Value>)
      modifies api`trace
      ensures api.trace == old(api.trace) + GetFidOutputCountStep(api.reply, old(api.trace), rid).calls
      ensures r == GetFidOutputCountStep(api.reply, old(api.trace), rid).result
    {
      r := api.GetFidOutputCount(rid);
    }
  }
}
