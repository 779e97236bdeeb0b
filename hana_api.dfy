/**
 * The adapter over the vendor's ActiveX trading control. Every vendor function is
 * reached through one transport (`dynamicCall`); here the transport is an oracle
 * that answers a call given every call issued before it, and the adapter records
 * the calls it issues in a trace. Each adapter operation is specified by a pure
 * step function (the calls it issues and what it returns) and the class methods
 * are proved to follow their step functions.
 */
module Hana {
  import opened Common

  /** A raw value the control hands back: an integer or a string. */
  datatype Value = Int(i: int) | Str(s: string)

  /** Python truthiness of a raw value. */
  predicate Truthy(v: Value)
  {
    match v
    case Int(i) => i != 0
    case Str(s) => s != ""
  }

  /** What one vendor call does: it returns a value or it raises. */
  datatype Reply = Returned(value: Value) | Raised

  /** The vendor functions the adapter calls, with their arguments. */
  datatype Call =
    | CommInit
    | CommGetConnectState
    | CommTerminate(socketClose: int)
    | SetLoginMode(option: int, mode: int)
    | SetOffAgentMessageBox(option: int)
    | CommLogin(userId: string, password: string, certPass: string)
    | CommLogout(userId: string)
    | GetLoginState
    | RegisterReal(realName: string, realKey: string)
    | UnRegisterReal(realName: string, realKey: string)
    | AllUnRegisterReal
    | GetRealOutputData(realName: string, realItem: string)
    | CreateRequestID
    | ReleaseRqId(rid: Value)
    | SetFidInputData(rid: Value, fid: string, value: string)
    | RequestFid(rid: Value, outputFidList: string, screenNo: int)
    | RequestFidArray(rid: Value, outputFidList: string, preNext: string, preNextContext: string,
                      screenNo: int, requestCount: int)
    | GetFidOutputRowCnt(rid: Value)
    | GetFidOutputData(rid: Value, fid: string, row: int)

  type Trace = seq<Call>

  /** The control's behaviour: the reply to a call, given the calls issued before it. */
  type Oracle = (Trace, Call) -> Reply

  /** The settings the adapter is built with: program id, credentials and the
      real-time subscription target. */
  datatype Config = Config(programId: string, userId: string, password: string, certPass: string,
                           realName: string, symbol: string)

  /** What an operation does from a given trace: the calls it issues, in order, and
      its result. A vendor call that raises ends the operation with `TransportFault`. */
  datatype Step<+T> = Step(calls: Trace, result: Result<T>)

  /** The callable that receives real-time blocks, known by name. */
  datatype Handler = Handler(name: string)

  /** One row assembled by the FID handler. */
  datatype Row = Row(time: Value, date: Value)

  /** How an adapter wrapper reads a raw return code as success. */
  datatype Convention = EqualsZero | EqualsOne | Truthiness

  predicate Meets(conv: Convention, v: Value)
  {
    match conv
    case EqualsZero => v == Int(0)
    case EqualsOne => v == Int(1)
    case Truthiness => Truthy(v)
  }

  /** The reply the k-th of `calls` receives when they are issued after `t`. */
  function ReplyAt(o: Oracle, t: Trace, calls: Trace, k: nat): (r: Reply)
    requires k < |calls|
  {
    o(t + calls[..k], calls[k])
  }

  /** None of `calls`, issued after `t`, raises. */
  predicate NoRaise(o: Oracle, t: Trace, calls: Trace)
  {
    forall k :: 0 <= k < |calls| ==> ReplyAt(o, t, calls, k).Returned?
  }

  lemma ReplyAtAppend(o: Oracle, t: Trace, a: Trace, b: Trace, k: nat)
    requires k < |a| + |b|
    ensures ReplyAt(o, t, a + b, k) == if k < |a| then ReplyAt(o, t, a, k) else ReplyAt(o, t + a, b, k - |a|)
  {
    if k < |a| {
      assert (a + b)[..k] == a[..k];
    } else {
      assert t + (a + b)[..k] == (t + a) + b[..k - |a|];
    }
  }

  /** Issuing `a` and then `b` raises nowhere exactly when neither part raises. */
  lemma NoRaiseAppend(o: Oracle, t: Trace, a: Trace, b: Trace)
    ensures NoRaise(o, t, a + b) <==> NoRaise(o, t, a) && NoRaise(o, t + a, b)
  {
    forall k | 0 <= k < |a| + |b| {
      ReplyAtAppend(o, t, a, b, k);
    }
    if NoRaise(o, t, a) && NoRaise(o, t + a, b) {
      forall k | 0 <= k < |a| + |b|
        ensures ReplyAt(o, t, a + b, k).Returned?
      {
        if k >= |a| {
          assert ReplyAt(o, t + a, b, k - |a|).Returned?;
        }
      }
    }
    if NoRaise(o, t, a + b) {
      forall k | 0 <= k < |b|
        ensures ReplyAt(o, t + a, b, k).Returned?
      {
        assert ReplyAt(o, t, a + b, k + |a|).Returned?;
      }
    }
  }

  lemma Assoc(a: Trace, b: Trace, c: Trace)
    ensures (a + b) + c == a + (b + c)
  {
  }

  /** One call whose raw result is passed through unchanged. */
  function Transport(o: Oracle, t: Trace, c: Call): (s: Step<Value>)
    ensures s.calls == [c]
    ensures s.result.Ok? <==> o(t, c).Returned?
    ensures s.result.Ok? ==> s.result.value == o(t, c).value
    ensures s.result.Err? ==> s.result.fault == TransportFault
  {
    match o(t, c)
    case Raised => Step([c], Err(TransportFault))
    case Returned(v) => Step([c], Ok(v))
  }

  /** One call whose raw result is read as success under `conv`. */
  function Invoke(o: Oracle, t: Trace, c: Call, conv: Convention): (s: Step<bool>)
    ensures s.calls == [c]
    ensures s.result.Ok? <==> o(t, c).Returned?
    ensures s.result.Ok? ==> (s.result.value <==> Meets(conv, o(t, c).value))
    ensures s.result.Err? ==> s.result.fault == TransportFault
  {
    match o(t, c)
    case Raised => Step([c], Err(TransportFault))
    case Returned(v) => Step([c], Ok(Meets(conv, v)))
  }

  /** A step that issues `pre` first and then behaves as `s`. */
  function After<T>(pre: Trace, s: Step<T>): (r: Step<T>)
  {
    Step(pre + s.calls, s.result)
  }

  // ---------------------------------------------------------------------------
  // Step functions of the adapter's operations
  // ---------------------------------------------------------------------------

  /** `comm_init`: true iff `CommInit()` returns 0. */
  function CommInitStep(o: Oracle, t: Trace): (s: Step<bool>)
    ensures s.calls == [Call.CommInit]
    ensures s.result == Ok(true) <==> o(t, Call.CommInit) == Returned(Int(0))
    ensures s.result.Err? <==> o(t, Call.CommInit).Raised?
  {
    Invoke(o, t, Call.CommInit, EqualsZero)
  }

  /** `get_comm_state`: true iff `CommGetConnectState()` returns 1. */
  function GetCommStateStep(o: Oracle, t: Trace): (s: Step<bool>)
    ensures s.calls == [CommGetConnectState]
    ensures s.result == Ok(true) <==> o(t, CommGetConnectState) == Returned(Int(1))
    ensures s.result.Err? <==> o(t, CommGetConnectState).Raised?
  {
    Invoke(o, t, CommGetConnectState, EqualsOne)
  }

  /** `terminate`: closes the socket with `CommTerminate(1)`; the raw result is dropped. */
  function TerminateStep(o: Oracle, t: Trace): (s: Step<()>)
    ensures s.calls == [CommTerminate(1)]
    ensures s.result.Ok? <==> o(t, CommTerminate(1)).Returned?
  {
    var raw := Transport(o, t, CommTerminate(1));
    Step(raw.calls, if raw.result.Err? then Err(raw.result.fault) else Ok(()))
  }

  /** `set_login_mode`: true iff `SetLoginMode(option, mode)` returns a truthy value. */
  function SetLoginModeStep(o: Oracle, t: Trace, option: int, mode: int): (s: Step<bool>)
    ensures s.calls == [Call.SetLoginMode(option, mode)]
    ensures s.result == Ok(true) <==> o(t, Call.SetLoginMode(option, mode)).Returned? &&
                                      Truthy(o(t, Call.SetLoginMode(option, mode)).value)
    ensures s.result.Err? <==> o(t, Call.SetLoginMode(option, mode)).Raised?
  {
    Invoke(o, t, Call.SetLoginMode(option, mode), Truthiness)
  }

  /** The calls of a `login` in which nothing raises. */
  function LoginCalls(cfg: Config): (calls: Trace)
  {
    [SetOffAgentMessageBox(1), CommLogin(cfg.userId, cfg.password, cfg.certPass), SetOffAgentMessageBox(0)]
  }

  /** `login`: the message box is switched off, `CommLogin` runs, and the box is
      switched back on in a `finally`, so the last call is always `SetOffAgentMessageBox(0)`
      even when an earlier call raised. The result is the truthiness of `CommLogin`'s reply. */
  function LoginStep(o: Oracle, t: Trace, cfg: Config): (s: Step<bool>)
    ensures |s.calls| >= 2 && s.calls[0] == SetOffAgentMessageBox(1) && s.calls[|s.calls| - 1] == SetOffAgentMessageBox(0)
    ensures s.calls == if o(t, SetOffAgentMessageBox(1)).Raised?
                       then [SetOffAgentMessageBox(1), SetOffAgentMessageBox(0)]
                       else LoginCalls(cfg)
    ensures s.result.Ok? <==> s.calls == LoginCalls(cfg) && NoRaise(o, t, s.calls)
    ensures s.result.Ok? ==> (s.result.value <==> Truthy(ReplyAt(o, t, LoginCalls(cfg), 1).value))
    ensures s.result.Err? ==> s.result.fault == TransportFault
  {
    var calls := LoginCalls(cfg);
    var boxOff, login, boxOn := calls[0], calls[1], calls[2];
    assert ReplyAt(o, t, calls, 0) == o(t, boxOff) by { assert t + calls[..0] == t; }
    assert ReplyAt(o, t, calls, 1) == o(t + [boxOff], login) by { assert calls[..1] == [boxOff]; }
    assert ReplyAt(o, t, calls, 2) == o(t + [boxOff, login], boxOn) by {
      assert calls[..2] == [boxOff, login];
      assert t + [boxOff] + [login] == t + [boxOff, login];
    }
    if o(t, boxOff).Raised? then
      // the `finally` still switches the box back on; the exception propagates
      Step([boxOff, boxOn], Err(TransportFault))
    else
      var reply := o(t + [boxOff], login);
      var restore := o(t + [boxOff, login], boxOn);
      if reply.Raised? || restore.Raised? then Step(calls, Err(TransportFault))
      else Step(calls, Ok(Truthy(reply.value)))
  }

  /** `logout`: true iff `CommLogout(user)` returns 0. */
  function LogoutStep(o: Oracle, t: Trace, cfg: Config): (s: Step<bool>)
    ensures s.calls == [CommLogout(cfg.userId)]
    ensures s.result == Ok(true) <==> o(t, CommLogout(cfg.userId)) == Returned(Int(0))
    ensures s.result.Err? <==> o(t, CommLogout(cfg.userId)).Raised?
  {
    Invoke(o, t, CommLogout(cfg.userId), EqualsZero)
  }

  /** `get_login_state`: true iff `GetLoginState()` returns a truthy value. */
  function GetLoginStateStep(o: Oracle, t: Trace): (s: Step<bool>)
    ensures s.calls == [Call.GetLoginState]
    ensures s.result == Ok(true) <==> o(t, Call.GetLoginState).Returned? && Truthy(o(t, Call.GetLoginState).value)
    ensures s.result.Err? <==> o(t, Call.GetLoginState).Raised?
  {
    Invoke(o, t, Call.GetLoginState, Truthiness)
  }

  /** `register_real`: true iff `RegisterReal(name, symbol)` returns 0. */
  function RegisterRealStep(o: Oracle, t: Trace, cfg: Config): (s: Step<bool>)
    ensures s.calls == [Call.RegisterReal(cfg.realName, cfg.symbol)]
    ensures s.result == Ok(true) <==> o(t, Call.RegisterReal(cfg.realName, cfg.symbol)) == Returned(Int(0))
    ensures s.result.Err? <==> o(t, Call.RegisterReal(cfg.realName, cfg.symbol)).Raised?
  {
    Invoke(o, t, Call.RegisterReal(cfg.realName, cfg.symbol), EqualsZero)
  }

  /** `unregister_real`: true iff `UnRegisterReal(name, symbol)` returns 1. */
  function UnregisterRealStep(o: Oracle, t: Trace, cfg: Config): (s: Step<bool>)
    ensures s.calls == [UnRegisterReal(cfg.realName, cfg.symbol)]
    ensures s.result == Ok(true) <==> o(t, UnRegisterReal(cfg.realName, cfg.symbol)) == Returned(Int(1))
    ensures s.result.Err? <==> o(t, UnRegisterReal(cfg.realName, cfg.symbol)).Raised?
  {
    Invoke(o, t, UnRegisterReal(cfg.realName, cfg.symbol), EqualsOne)
  }

  /** `unregister_real_all`: true iff `AllUnRegisterReal()` returns 1. */
  function UnregisterRealAllStep(o: Oracle, t: Trace): (s: Step<bool>)
    ensures s.calls == [AllUnRegisterReal]
    ensures s.result == Ok(true) <==> o(t, AllUnRegisterReal) == Returned(Int(1))
    ensures s.result.Err? <==> o(t, AllUnRegisterReal).Raised?
  {
    Invoke(o, t, AllUnRegisterReal, EqualsOne)
  }

  /** `get_real_output_data`: the raw reply of `GetRealOutputData(name, symbol)`. */
  function GetRealOutputDataStep(o: Oracle, t: Trace, cfg: Config): (s: Step<Value>)
    ensures s.calls == [Call.GetRealOutputData(cfg.realName, cfg.symbol)]
    ensures s.result.Ok? <==> o(t, Call.GetRealOutputData(cfg.realName, cfg.symbol)).Returned?
    ensures s.result.Ok? ==> s.result.value == o(t, Call.GetRealOutputData(cfg.realName, cfg.symbol)).value
  {
    Transport(o, t, Call.GetRealOutputData(cfg.realName, cfg.symbol))
  }

  /** `create_request_id`: the raw reply of `CreateRequestID()`. */
  function CreateRequestIdStep(o: Oracle, t: Trace): (s: Step<Value>)
    ensures s.calls == [CreateRequestID]
    ensures s.result.Ok? <==> o(t, CreateRequestID).Returned?
    ensures s.result.Ok? ==> s.result.value == o(t, CreateRequestID).value
  {
    Transport(o, t, CreateRequestID)
  }

  /** `release_request_id`: `ReleaseRqId(rid)`; the raw result is dropped. */
  function ReleaseRequestIdStep(o: Oracle, t: Trace, rid: Value): (s: Step<()>)
    ensures s.calls == [ReleaseRqId(rid)]
    ensures s.result.Ok? <==> o(t, ReleaseRqId(rid)).Returned?
  {
    var raw := Transport(o, t, ReleaseRqId(rid));
    Step(raw.calls, if raw.result.Err? then Err(raw.result.fault) else Ok(()))
  }

  /** `set_fid_input`: true iff `SetFidInputData(rid, fid, value)` returns 1. */
  function SetFidInputStep(o: Oracle, t: Trace, rid: Value, fid: string, value: string): (s: Step<bool>)
    ensures s.calls == [SetFidInputData(rid, fid, value)]
    ensures s.result == Ok(true) <==> o(t, SetFidInputData(rid, fid, value)) == Returned(Int(1))
    ensures s.result.Err? <==> o(t, SetFidInputData(rid, fid, value)).Raised?
  {
    Invoke(o, t, SetFidInputData(rid, fid, value), EqualsOne)
  }

  /** `request_fid`: the raw reply of `RequestFid(rid, fields, screen)`. */
  function RequestFidStep(o: Oracle, t: Trace, rid: Value, fields: string, screenNo: int): (s: Step<Value>)
    ensures s.calls == [Call.RequestFid(rid, fields, screenNo)]
    ensures s.result.Ok? <==> o(t, Call.RequestFid(rid, fields, screenNo)).Returned?
    ensures s.result.Ok? ==> s.result.value == o(t, Call.RequestFid(rid, fields, screenNo)).value
  {
    Transport(o, t, Call.RequestFid(rid, fields, screenNo))
  }

  /** `request_fid_data_list`: the raw reply of `RequestFidArray(...)`. */
  function RequestFidDataListStep(o: Oracle, t: Trace, rid: Value, fields: string, preNext: string,
                                  preNextContext: string, screenNo: int, requestCount: int): (s: Step<Value>)
    ensures s.calls == [RequestFidArray(rid, fields, preNext, preNextContext, screenNo, requestCount)]
    ensures s.result.Ok? <==> o(t, RequestFidArray(rid, fields, preNext, preNextContext, screenNo, requestCount)).Returned?
    ensures s.result.Ok? ==>
      s.result.value == o(t, RequestFidArray(rid, fields, preNext, preNextContext, screenNo, requestCount)).value
  {
    Transport(o, t, RequestFidArray(rid, fields, preNext, preNextContext, screenNo, requestCount))
  }

  /** `get_fid_output_count`: the raw reply of `GetFidOutputRowCnt(rid)`. */
  function GetFidOutputCountStep(o: Oracle, t: Trace, rid: Value): (s: Step<Value>)
    ensures s.calls == [GetFidOutputRowCnt(rid)]
    ensures s.result.Ok? <==> o(t, GetFidOutputRowCnt(rid)).Returned?
    ensures s.result.Ok? ==> s.result.value == o(t, GetFidOutputRowCnt(rid)).value
  {
    Transport(o, t, GetFidOutputRowCnt(rid))
  }

  /** `get_fid_output_data`: the raw reply of `GetFidOutputData(rid, fid, row)`. */
  function GetFidOutputDataStep(o: Oracle, t: Trace, rid: Value, fid: string, row: int): (s: Step<Value>)
    ensures s.calls == [Call.GetFidOutputData(rid, fid, row)]
    ensures s.result.Ok? <==> o(t, Call.GetFidOutputData(rid, fid, row)).Returned?
    ensures s.result.Ok? ==> s.result.value == o(t, Call.GetFidOutputData(rid, fid, row)).value
  {
    Transport(o, t, Call.GetFidOutputData(rid, fid, row))
  }

  // ---------------------------------------------------------------------------
  // FID rows
  // ---------------------------------------------------------------------------

  /** `rows` preceded by `pre`, then whatever `rest` does; an error in `rest` discards the rows. */
  function Glue(pre: Trace, rows: seq<Row>, rest: Step<seq<Row>>): (s: Step<seq<Row>>)
  {
    Step(pre + rest.calls, if rest.result.Err? then Err(rest.result.fault) else Ok(rows + rest.result.value))
  }

  lemma GlueGlue(p: Trace, r: seq<Row>, q: Trace, u: seq<Row>, x: Step<seq<Row>>)
    ensures Glue(p, r, Glue(q, u, x)) == Glue(p + q, r + u, x)
  {
    assert p + (q + x.calls) == (p + q) + x.calls;
    if x.result.Ok? {
      assert r + (u + x.result.value) == (r + u) + x.result.value;
    }
  }

  lemma GlueNothing(x: Step<seq<Row>>)
    ensures Glue([], [], x) == x
  {
    assert [] + x.calls == x.calls;
    if x.result.Ok? {
      assert [] + x.result.value == x.result.value;
    }
  }

  lemma GlueFail(p: Trace, r: seq<Row>, q: Trace)
    ensures Glue(p, r, Step(q, Err(TransportFault))) == Step(p + q, Err(TransportFault))
  {
  }

  /** The two FID reads of row `i`: field `8` (time), then field `9` (date). */
  function RowCalls(rid: Value, i: int): (calls: Trace)
  {
    [Call.GetFidOutputData(rid, "8", i), Call.GetFidOutputData(rid, "9", i)]
  }

  /** Row `i` of `fid_data_handler`: the dict display `{'TIME': ..., 'DATE': ...}`
      reads field `8` and then field `9`; a read that raises ends the row. */
  function RowStep(o: Oracle, t: Trace, rid: Value, i: int): (s: Step<Row>)
    ensures s.result.Err? ==> s.result.fault == TransportFault
  {
    var time := GetFidOutputDataStep(o, t, rid, "8", i);
    if time.result.Err? then Step(time.calls, Err(TransportFault))
    else
      var date := GetFidOutputDataStep(o, t + time.calls, rid, "9", i);
      if date.result.Err? then Step(time.calls + date.calls, Err(TransportFault))
      else Step(time.calls + date.calls, Ok(Row(time.result.value, date.result.value)))
  }

  lemma RowStepShape(o: Oracle, t: Trace, rid: Value, i: int)
    ensures var s := RowStep(o, t, rid, i);
      (s.result.Ok? <==> NoRaise(o, t, s.calls)) &&
      (s.result.Ok? ==> s.calls == RowCalls(rid, i) &&
                        s.result.value == Row(ReplyAt(o, t, s.calls, 0).value, ReplyAt(o, t, s.calls, 1).value))
  {
    var head := RowCalls(rid, i);
    assert head == [head[0]] + [head[1]];
    assert ReplyAt(o, t, head, 0) == o(t, head[0]) by { assert t + head[..0] == t; }
    assert ReplyAt(o, t, head, 1) == o(t + [head[0]], head[1]) by { assert head[..1] == [head[0]]; }
    if o(t, head[0]).Raised? {
      assert ReplyAt(o, t, [head[0]], 0) == o(t, head[0]) by { assert t + [head[0]][..0] == t; }
    } else if o(t + [head[0]], head[1]).Raised? {
      assert !NoRaise(o, t, head) by { assert !ReplyAt(o, t, head, 1).Returned?; }
    } else {
      assert NoRaise(o, t, head) by {
        forall k | 0 <= k < |head| ensures ReplyAt(o, t, head, k).Returned? {
          assert k == 0 || k == 1;
        }
      }
    }
  }

  /** Rows `i` to `n - 1` of the loop in `fid_data_handler`; a row that raises ends the loop. */
  function RowsFrom(o: Oracle, t: Trace, rid: Value, i: int, n: int): (s: Step<seq<Row>>)
    ensures s.result.Err? ==> s.result.fault == TransportFault
    decreases n - i
  {
    if i >= n then Step([], Ok([]))
    else
      var row := RowStep(o, t, rid, i);
      if row.result.Err? then Step(row.calls, Err(TransportFault))
      else Glue(row.calls, [row.result.value], RowsFrom(o, t + row.calls, rid, i + 1, n))
  }

  lemma RowsFromFail(o: Oracle, t: Trace, rid: Value, i: int, n: int)
    requires i < n && RowStep(o, t, rid, i).result.Err?
    ensures RowsFrom(o, t, rid, i, n) == Step(RowStep(o, t, rid, i).calls, Err(TransportFault))
  {
  }

  /** A failing loop has issued at least the call that raised. */
  lemma {:induction false} RowsFromFailureIssuesCalls(o: Oracle, t: Trace, rid: Value, i: int, n: int)
    ensures RowsFrom(o, t, rid, i, n).result.Err? ==> RowsFrom(o, t, rid, i, n).calls != []
    decreases n - i
  {
    if i < n {
      var row := RowStep(o, t, rid, i);
      if row.result.Ok? {
        RowsFromFailureIssuesCalls(o, t + row.calls, rid, i + 1, n);
      }
    }
  }

  /** The rows of the FID loop from index `i`: the loop ends normally exactly when no
      read raises, and then row `k` holds the replies to the reads of field `8` and
      field `9` at index `i + k`, issued in that order. */
  lemma {:induction false} RowsFromShape(o: Oracle, t: Trace, rid: Value, i: int, n: int)
    ensures var s := RowsFrom(o, t, rid, i, n);
      (s.result.Ok? <==> NoRaise(o, t, s.calls)) &&
      (s.result.Err? ==> s.result.fault == TransportFault) &&
      (s.result.Ok? ==> |s.result.value| == (if i <= n then n - i else 0) && |s.calls| == 2 * |s.result.value|) &&
      (s.result.Ok? ==> forall k :: 0 <= k < |s.result.value| ==>
        s.calls[2 * k] == Call.GetFidOutputData(rid, "8", i + k) &&
        s.calls[2 * k + 1] == Call.GetFidOutputData(rid, "9", i + k) &&
        s.result.value[k] == Row(ReplyAt(o, t, s.calls, 2 * k).value, ReplyAt(o, t, s.calls, 2 * k + 1).value))
    decreases n - i
  {
    if i < n {
      var row := RowStep(o, t, rid, i);
      RowStepShape(o, t, rid, i);
      if row.result.Ok? {
        RowsFromShape(o, t + row.calls, rid, i + 1, n);
        RowsFromStep(o, t, rid, i, row.calls, row.result.value, RowsFrom(o, t + row.calls, rid, i + 1, n));
      }
    }
  }

  /** The contract of `RowsFromShape` for a first row read without raising, given that of the rest. */
  lemma RowsFromStep(o: Oracle, t: Trace, rid: Value, i: int, head: Trace, row: Row, rest: Step<seq<Row>>)
    requires head == RowCalls(rid, i) && NoRaise(o, t, head)
    requires row == Row(ReplyAt(o, t, head, 0).value, ReplyAt(o, t, head, 1).value)
    requires rest.result.Ok? <==> NoRaise(o, t + head, rest.calls)
    requires rest.result.Ok? ==> |rest.calls| == 2 * |rest.result.value|
    requires rest.result.Ok? ==> forall k :: 0 <= k < |rest.result.value| ==>
      rest.calls[2 * k] == Call.GetFidOutputData(rid, "8", i + 1 + k) &&
      rest.calls[2 * k + 1] == Call.GetFidOutputData(rid, "9", i + 1 + k) &&
      rest.result.value[k] == Row(ReplyAt(o, t + head, rest.calls, 2 * k).value,
                                  ReplyAt(o, t + head, rest.calls, 2 * k + 1).value)
    ensures var s := Glue(head, [row], rest);
      (s.result.Ok? <==> NoRaise(o, t, s.calls)) &&
      (s.result.Ok? ==> |s.calls| == 2 * |s.result.value| && |s.result.value| == 1 + |rest.result.value|) &&
      (s.result.Ok? ==> forall k :: 0 <= k < |s.result.value| ==>
        s.calls[2 * k] == Call.GetFidOutputData(rid, "8", i + k) &&
        s.calls[2 * k + 1] == Call.GetFidOutputData(rid, "9", i + k) &&
        s.result.value[k] == Row(ReplyAt(o, t, s.calls, 2 * k).value, ReplyAt(o, t, s.calls, 2 * k + 1).value))
  {
    var s := Glue(head, [row], rest);
    NoRaiseAppend(o, t, head, rest.calls);
    if s.result.Ok? {
      forall k | 0 <= k < |s.result.value|
        ensures s.calls[2 * k] == Call.GetFidOutputData(rid, "8", i + k)
        ensures s.calls[2 * k + 1] == Call.GetFidOutputData(rid, "9", i + k)
        ensures s.result.value[k] == Row(ReplyAt(o, t, s.calls, 2 * k).value, ReplyAt(o, t, s.calls, 2 * k + 1).value)
      {
        ReplyAtAppend(o, t, head, rest.calls, 2 * k);
        ReplyAtAppend(o, t, head, rest.calls, 2 * k + 1);
        if k > 0 {
          assert s.result.value[k] == rest.result.value[k - 1];
          assert 2 * k - 2 == 2 * (k - 1);
        }
      }
    }
  }

  /** `fid_data_handler`: `GetFidOutputRowCnt(rid)`, then the rows; a count that is not
      an integer is a `TypeError` from `range`. */
  function FidRowsStep(o: Oracle, t: Trace, rid: Value): (s: Step<seq<Row>>)
    ensures |s.calls| >= 1 && s.calls[0] == GetFidOutputRowCnt(rid)
    ensures s.result.Err? ==> s.result.fault == TransportFault || s.result.fault == TypeError
    ensures s.result == Err(TypeError) <==>
      o(t, GetFidOutputRowCnt(rid)).Returned? && !o(t, GetFidOutputRowCnt(rid)).value.Int?
  {
    var count := GetFidOutputCountStep(o, t, rid);
    if count.result.Err? then Step(count.calls, Err(TransportFault))
    else if !count.result.value.Int? then Step(count.calls, Err(TypeError))
    else After(count.calls, RowsFrom(o, t + count.calls, rid, 0, count.result.value.i))
  }

  /** `fid_data_handler` builds exactly `count` rows (none for a negative count), in
      order: row `k` holds the replies to the reads of field `8` and then field `9` at
      index `k`. It fails only when a call raises or the count is not an integer. */
  lemma FidRows(o: Oracle, t: Trace, rid: Value)
    ensures var s := FidRowsStep(o, t, rid);
      |s.calls| >= 1 && s.calls[0] == GetFidOutputRowCnt(rid) &&
      (s.result.Ok? <==> NoRaise(o, t, s.calls) && o(t, GetFidOutputRowCnt(rid)).Returned? &&
                         o(t, GetFidOutputRowCnt(rid)).value.Int?) &&
      (s.result.Err? && NoRaise(o, t, s.calls) ==> s.result.fault == TypeError)
    ensures var s := FidRowsStep(o, t, rid);
      s.result.Ok? ==>
        var count := o(t, GetFidOutputRowCnt(rid)).value.i;
        var rows := s.result.value;
        |rows| == (if count >= 0 then count else 0) && |s.calls| == 1 + 2 * |rows| &&
        forall k :: 0 <= k < |rows| ==>
          s.calls[1 + 2 * k] == Call.GetFidOutputData(rid, "8", k) &&
          s.calls[2 + 2 * k] == Call.GetFidOutputData(rid, "9", k) &&
          rows[k] == Row(ReplyAt(o, t, s.calls, 1 + 2 * k).value, ReplyAt(o, t, s.calls, 2 + 2 * k).value)
  {
    var s := FidRowsStep(o, t, rid);
    var count := GetFidOutputCountStep(o, t, rid);
    assert ReplyAt(o, t, count.calls, 0) == o(t, GetFidOutputRowCnt(rid)) by { assert t + count.calls[..0] == t; }
    if count.result.Ok? && count.result.value.Int? {
      assert s == After(count.calls, RowsFrom(o, t + count.calls, rid, 0, count.result.value.i));
      ShiftRows(o, t, count.calls, rid, count.result.value.i);
    }
  }

  /** The rows shape of `RowsFromShape` seen one call later, behind the count query. */
  lemma ShiftRows(o: Oracle, t: Trace, pre: Trace, rid: Value, n: int)
    requires |pre| == 1 && NoRaise(o, t, pre)
    ensures var s := After(pre, RowsFrom(o, t + pre, rid, 0, n));
      (s.result.Ok? <==> NoRaise(o, t, s.calls)) &&
      (s.result.Ok? ==> |s.result.value| == (if n >= 0 then n else 0) && |s.calls| == 1 + 2 * |s.result.value|) &&
      (s.result.Ok? ==> forall k :: 0 <= k < |s.result.value| ==>
        s.calls[1 + 2 * k] == Call.GetFidOutputData(rid, "8", k) &&
        s.calls[2 + 2 * k] == Call.GetFidOutputData(rid, "9", k) &&
        s.result.value[k] == Row(ReplyAt(o, t, s.calls, 1 + 2 * k).value, ReplyAt(o, t, s.calls, 2 + 2 * k).value))
  {
    var rows := RowsFrom(o, t + pre, rid, 0, n);
    var s := After(pre, rows);
    RowsFromShape(o, t + pre, rid, 0, n);
    NoRaiseAppend(o, t, pre, rows.calls);
    if s.result.Ok? {
      forall k | 0 <= k < |s.result.value|
        ensures s.calls[1 + 2 * k] == Call.GetFidOutputData(rid, "8", k)
        ensures s.calls[2 + 2 * k] == Call.GetFidOutputData(rid, "9", k)
        ensures s.result.value[k] == Row(ReplyAt(o, t, s.calls, 1 + 2 * k).value, ReplyAt(o, t, s.calls, 2 + 2 * k).value)
      {
        ReplyAtAppend(o, t, pre, rows.calls, 1 + 2 * k);
        ReplyAtAppend(o, t, pre, rows.calls, 2 + 2 * k);
      }
    }
  }

  // ---------------------------------------------------------------------------
  // The adapter object
  // ---------------------------------------------------------------------------

  /** `HanaAPI`: the control (an oracle), the calls issued so far, whether the
      event loop is running, the real-time handler, and the blocks handed to handlers. */
  class HanaApi {
    const config: Config
    const reply: Oracle
    /** What a handler does with a block: return, or raise the given fault. */
    const handlerOutcome: (Handler, Value) -> Result<()>
    var trace: Trace
    var loopRunning: bool
    var realEventHandler: Option<Handler>
    var delivered: seq<(Handler, Value)>

    constructor (config: Config, reply: Oracle, handlerOutcome: (Handler, Value) -> Result<()>)
      ensures this.config == config && this.reply == reply && this.handlerOutcome == handlerOutcome
      ensures trace == [] && !loopRunning && realEventHandler == None && delivered == []
    {
      this.config := config;
      this.reply := reply;
      this.handlerOutcome := handlerOutcome;
      trace := [];
      loopRunning := false;
      realEventHandler := None;
      delivered := [];
    }

    /** `dynamicCall`: issue one call and record it. */
    method Dynamic(c: Call) returns (r: Result<Value>)
      modifies this`trace
      ensures trace == old(trace) + [c]
      ensures r.Ok? <==> reply(old(trace), c).Returned?
      ensures r.Ok? ==> r.value == reply(old(trace), c).value
      ensures r.Err? ==> r.fault == TransportFault
    {
      var answer := reply(trace, c);
      trace := trace + [c];
      r := if answer.Raised? then Err(TransportFault) else Ok(answer.value);
    }

    method CommInit() returns (r: Result<bool>)
      modifies this`trace
      ensures trace == old(trace) + CommInitStep(reply, old(trace)).calls
      ensures r == CommInitStep(reply, old(trace)).result
    {
      var result :- Dynamic(Call.CommInit);
      return Ok(result == Int(0));
    }

    method GetCommState() returns (r: Result<bool>)
      modifies this`trace
      ensures trace == old(trace) + GetCommStateStep(reply, old(trace)).calls
      ensures r == GetCommStateStep(reply, old(trace)).result
    {
      var state :- Dynamic(CommGetConnectState);
      return Ok(state == Int(1));
    }

    method Terminate() returns (r: Result<()>)
      modifies this`trace
      ensures trace == old(trace) + TerminateStep(reply, old(trace)).calls
      ensures r == TerminateStep(reply, old(trace)).result
    {
      var _ :- Dynamic(CommTerminate(1));
      return Ok(());
    }

    method SetLoginMode(option: int, mode: int) returns (r: Result<bool>)
      modifies this`trace
      ensures trace == old(trace) + SetLoginModeStep(reply, old(trace), option, mode).calls
      ensures r == SetLoginModeStep(reply, old(trace), option, mode).result
    {
      var result :- Dynamic(Call.SetLoginMode(option, mode));
      return Ok(Truthy(result));
    }

    method Login() returns (r: Result<bool>)
      modifies this`trace
      ensures trace == old(trace) + LoginStep(reply, old(trace), config).calls
      ensures r == LoginStep(reply, old(trace), config).result
    {
      ghost var t := trace;
      // try
      var boxOff := Dynamic(SetOffAgentMessageBox(1));
      var result: Result<Value> := Err(TransportFault);
      if boxOff.Ok? {
        result := Dynamic(CommLogin(config.userId, config.password, config.certPass));
        assert trace == t + [SetOffAgentMessageBox(1), CommLogin(config.userId, config.password, config.certPass)];
      }
      // finally
      var boxOn := Dynamic(SetOffAgentMessageBox(0));
      assert boxOff.Ok? ==> trace == t + LoginCalls(config);
      assert boxOff.Err? ==> trace == t + [SetOffAgentMessageBox(1), SetOffAgentMessageBox(0)];
      if boxOff.Err? || result.Err? || boxOn.Err? {
        return Err(TransportFault);
      }
      return Ok(Truthy(result.value));
    }

    method Logout() returns (r: Result<bool>)
      modifies this`trace
      ensures trace == old(trace) + LogoutStep(reply, old(trace), config).calls
      ensures r == LogoutStep(reply, old(trace), config).result
    {
      var result :- Dynamic(CommLogout(config.userId));
      return Ok(result == Int(0));
    }

    method GetLoginState() returns (r: Result<bool>)
      modifies this`trace
      ensures trace == old(trace) + GetLoginStateStep(reply, old(trace)).calls
      ensures r == GetLoginStateStep(reply, old(trace)).result
    {
      var result :- Dynamic(Call.GetLoginState);
      return Ok(Truthy(result));
    }

    method RegisterReal() returns (r: Result<bool>)
      modifies this`trace
      ensures trace == old(trace) + RegisterRealStep(reply, old(trace), config).calls
      ensures r == RegisterRealStep(reply, old(trace), config).result
    {
      var result :- Dynamic(Call.RegisterReal(config.realName, config.symbol));
      return Ok(result == Int(0));
    }

    /** `unregister_real`: the event loop is quit in a `finally`, whatever the call did. */
    method UnregisterReal() returns (r: Result<bool>)
      modifies this`trace, this`loopRunning
      ensures trace == old(trace) + UnregisterRealStep(reply, old(trace), config).calls
      ensures r == UnregisterRealStep(reply, old(trace), config).result
      ensures !loopRunning
    {
      var result := Dynamic(UnRegisterReal(config.realName, config.symbol));
      loopRunning := false;
      r := if result.Err? then Err(result.fault) else Ok(result.value == Int(1));
    }

    /** `unregister_real_all`: the event loop is quit in a `finally`, whatever the call did. */
    method UnregisterRealAll() returns (r: Result<bool>)
      modifies this`trace, this`loopRunning
      ensures trace == old(trace) + UnregisterRealAllStep(reply, old(trace)).calls
      ensures r == UnregisterRealAllStep(reply, old(trace)).result
      ensures !loopRunning
    {
      var result := Dynamic(AllUnRegisterReal);
      loopRunning := false;
      r := if result.Err? then Err(result.fault) else Ok(result.value == Int(1));
    }

    /** `get_real_output_data`: after the call returns, the event loop runs. */
    method GetRealOutputData() returns (r: Result<Value>)
      modifies this`trace, this`loopRunning
      ensures trace == old(trace) + GetRealOutputDataStep(reply, old(trace), config).calls
      ensures r == GetRealOutputDataStep(reply, old(trace), config).result
      ensures loopRunning == (r.Ok? || old(loopRunning))
    {
      var response :- Dynamic(Call.GetRealOutputData(config.realName, config.symbol));
      loopRunning := true;
      return Ok(response);
    }

    /** `real_data_handler`: hands `block` unchanged to the current handler, and an
        exception the handler raises comes back out; with no handler set, calling
        `None` is a `TypeError`. */
    method RealDataHandler(name: string, key: string, block: Value, length: int) returns (r: Result<()>)
      modifies this`delivered
      ensures realEventHandler.None? ==> r == Err(TypeError) && delivered == old(delivered)
      ensures realEventHandler.Some? ==> delivered == old(delivered) + [(realEventHandler.value, block)]
      ensures realEventHandler.Some? ==> r == handlerOutcome(realEventHandler.value, block)
    {
      if realEventHandler.None? {
        return Err(TypeError);
      }
      delivered := delivered + [(realEventHandler.value, block)];
      r := handlerOutcome(realEventHandler.value, block);
    }

    /** `set_real_event_handler`: replaces the single handler. */
    method SetRealEventHandler(handler: Handler)
      modifies this`realEventHandler
      ensures realEventHandler == Some(handler)
    {
      realEventHandler := Some(handler);
    }

    /** `fid_data_handler`. The rows are returned so that the contract can speak of
        them; the source only logs them. */
    method FidDataHandler(rid: Value, block: Value, length: int) returns (r: Result<seq<Row>>)
      modifies this`trace
      ensures trace == old(trace) + FidRowsStep(reply, old(trace), rid).calls
      ensures r == FidRowsStep(reply, old(trace), rid).result
    {
      var count :- GetFidOutputCount(rid);
      if !count.Int? {
        return Err(TypeError);
      }
      r := ReadRows(rid, count.i);
    }

    /** The `for` loop of `fid_data_handler`: rows `0` to `n - 1`, each read as field `8`
        and then field `9`. */
    method ReadRows(rid: Value, n: int) returns (r: Result<seq<Row>>)
      modifies this`trace
      ensures trace == old(trace) + RowsFrom(reply, old(trace), rid, 0, n).calls
      ensures r == RowsFrom(reply, old(trace), rid, 0, n).result
    {
      ghost var start := trace;
      ghost var spec := RowsFrom(reply, start, rid, 0, n);
      ghost var done: Trace := [];
      var responses: seq<Row> := [];
      var i := 0;
      GlueNothing(spec);
      while i < n
        invariant 0 <= i
        invariant trace == start + done
        invariant spec == Glue(done, responses, RowsFrom(reply, trace, rid, i, n))
        decreases n - i
      {
        ghost var before := trace;
        ghost var issued := RowStep(reply, before, rid, i).calls;
        var row := ReadRow(rid, i);
        if row.Err? {
          assert spec == Step(done + issued, Err(TransportFault)) by {
            RowsFromFail(reply, before, rid, i, n);
            GlueFail(done, responses, issued);
          }
          Assoc(start, done, issued);
          return Err(TransportFault);
        }
        GlueGlue(done, responses, issued, [row.value], RowsFrom(reply, trace, rid, i + 1, n));
        Assoc(start, done, issued);
        done := done + issued;
        responses := responses + [row.value];
        i := i + 1;
      }
      assert done + [] == done && responses + [] == responses;
      return Ok(responses);
    }

    /** One row of `fid_data_handler`: field `8`, then field `9`, at index `i`. */
    method ReadRow(rid: Value, i: int) returns (r: Result<Row>)
      modifies this`trace
      ensures trace == old(trace) + RowStep(reply, old(trace), rid, i).calls
      ensures r == RowStep(reply, old(trace), rid, i).result
    {
      var time :- GetFidOutputData(rid, "8", i);
      var date :- GetFidOutputData(rid, "9", i);
      return Ok(Row(time, date));
    }

    method CreateRequestId() returns (r: Result<Value>)
      modifies this`trace
      ensures trace == old(trace) + CreateRequestIdStep(reply, old(trace)).calls
      ensures r == CreateRequestIdStep(reply, old(trace)).result
    {
      r := Dynamic(CreateRequestID);
    }

    method ReleaseRequestId(rid: Value) returns (r: Result<()>)
      modifies this`trace
      ensures trace == old(trace) + ReleaseRequestIdStep(reply, old(trace), rid).calls
      ensures r == ReleaseRequestIdStep(reply, old(trace), rid).result
    {
      var _ :- Dynamic(ReleaseRqId(rid));
      return Ok(());
    }

    method SetFidInput(rid: Value, fid: string, value: string) returns (r: Result<bool>)
      modifies this`trace
      ensures trace == old(trace) + SetFidInputStep(reply, old(trace), rid, fid, value).calls
      ensures r == SetFidInputStep(reply, old(trace), rid, fid, value).result
    {
      var result :- Dynamic(SetFidInputData(rid, fid, value));
      return Ok(result == Int(1));
    }

    method RequestFid(rid: Value, fields: string, screenNo: int) returns (r: Result<Value>)
      modifies this`trace
      ensures trace == old(trace) + RequestFidStep(reply, old(trace), rid, fields, screenNo).calls
      ensures r == RequestFidStep(reply, old(trace), rid, fields, screenNo).result
    {
      r := Dynamic(Call.RequestFid(rid, fields, screenNo));
    }

    /** `request_fid_data_list`: after the call returns, the event loop runs. */
    method RequestFidDataList(rid: Value, fields: string, preNext: string, preNextContext: string,
                              screenNo: int, requestCount: int) returns (r: Result<Value>)
      modifies this`trace, this`loopRunning
      ensures trace == old(trace) + RequestFidDataListStep(reply, old(trace), rid, fields, preNext, preNextContext, screenNo, requestCount).calls
      ensures r == RequestFidDataListStep(reply, old(trace), rid, fields, preNext, preNextContext, screenNo, requestCount).result
      ensures loopRunning == (r.Ok? || old(loopRunning))
    {
      var fidCode :- Dynamic(RequestFidArray(rid, fields, preNext, preNextContext, screenNo, requestCount));
      loopRunning := true;
      return Ok(fidCode);
    }

    method GetFidOutputCount(rid: Value) returns (r: Result<Value>)
      modifies this`trace
      ensures trace == old(trace) + GetFidOutputCountStep(reply, old(trace), rid).calls
      ensures r == GetFidOutputCountStep(reply, old(trace), rid).result
    {
      r := Dynamic(GetFidOutputRowCnt(rid));
    }

    method GetFidOutputData(rid: Value, fid: string, row: int) returns (r: Result<Value>)
      modifies this`trace
      ensures trace == old(trace) + GetFidOutputDataStep(reply, old(trace), rid, fid, row).calls
      ensures r == GetFidOutputDataStep(reply, old(trace), rid, fid, row).result
    {
      r := Dynamic(Call.GetFidOutputData(rid, fid, row));
    }
  }
}
