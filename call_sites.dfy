/**
 * The entry points of connect.cpp that build a parameter list for one action
 * and hand it to `exec_cmd` with a tier ceiling: `app_log`, `app_notify` and
 * `app_socket`. Each is modelled by the `Delivery` it sets up; `Deliver`
 * runs that delivery through the dispatcher.
 */
module CallSites {
  import opened Wrappers
  import opened CArith
  import opened Decimal
  import opened Extras
  import opened Access
  import opened Dispatcher

  /** The fields of `su_context` that the call sites read. */
  datatype SuContext = SuContext(info: SuInfo, req: SuRequest, pid: CInt)

  /** One call of `exec_cmd`: its action, parameters and ceiling, and whether
   *  the call site first forks a detached child to run it in, so that its own
   *  caller neither waits nor sees a result. */
  datatype Delivery = Delivery(action: string, extras: seq<Extra>, mode: int, detached: bool)

  function Keys(extras: seq<Extra>): seq<string> {
    seq(|extras|, i requires 0 <= i < |extras| => extras[i].key)
  }

  predicate DistinctKeys(extras: seq<Extra>) {
    forall i, j :: 0 <= i < j < |extras| ==> extras[i].key != extras[j].key
  }

  /** `app_log`: reports a decision from a detached child, provider tier first.
   *  The reported uid is the normalised one, the command the resolved one,
   *  and the notify setting travels as a boolean. */
  function AppLog(ctx: SuContext): (d: Delivery)
    ensures d.action == "log" && d.mode == CONTENT_PROVIDER && d.detached
    ensures Keys(d.extras) == ["from.uid", "to.uid", "pid", "policy", "command", "notify"]
    ensures ColonFreeKeys(d.extras)
    ensures d.extras[0].value == IntVal(GetUid(ctx.info))
    ensures d.extras[1].value == IntVal(ctx.req.uid) && d.extras[2].value == IntVal(ctx.pid)
    ensures d.extras[3].value == IntVal(ctx.info.policy)
    ensures d.extras[4].value == StrVal(GetCmd(ctx.req)) && GetCmd(ctx.req) != ""
    ensures d.extras[5].value == BoolVal(ctx.info.notify != 0)
  {
    Delivery("log", [
      Extra("from.uid", IntVal(GetUid(ctx.info))),
      Extra("to.uid", IntVal(ctx.req.uid)),
      Extra("pid", IntVal(ctx.pid)),
      Extra("policy", IntVal(ctx.info.policy)),
      Extra("command", StrVal(GetCmd(ctx.req))),
      Extra("notify", BoolVal(ctx.info.notify != 0))
    ], CONTENT_PROVIDER, true)
  }

  /** `app_notify`: reports that a grant was used, from a detached child,
   *  provider tier first. */
  function AppNotify(ctx: SuContext): (d: Delivery)
    ensures d.action == "notify" && d.mode == CONTENT_PROVIDER && d.detached
    ensures Keys(d.extras) == ["from.uid", "policy"]
    ensures ColonFreeKeys(d.extras)
    ensures d.extras[0].value == IntVal(GetUid(ctx.info))
    ensures d.extras[1].value == IntVal(ctx.info.policy)
  {
    Delivery("notify", [
      Extra("from.uid", IntVal(GetUid(ctx.info))),
      Extra("policy", IntVal(ctx.info.policy))
    ], CONTENT_PROVIDER, true)
  }

  /** `app_socket`: asks the manager to answer a pending request on `socket`,
   *  in the caller's own process, with the provider tier excluded. */
  function AppSocket(socket: string, info: SuInfo): (d: Delivery)
    ensures d.action == "request" && d.mode == PKG_ACTIVITY && !d.detached
    ensures d.extras == [Extra("socket", StrVal(socket))]
    ensures ColonFreeKeys(d.extras)
  {
    Delivery("request", [Extra("socket", StrVal(socket))], PKG_ACTIVITY, false)
  }

  /** The children a delivery starts, given what its synchronous children print. */
  function Deliver(d: Delivery, info: SuInfo, providerOut: seq<string>, activityOut: seq<string>): seq<Invocation> {
    Dispatch(d.action, d.extras, info, d.mode, providerOut, activityOut)
  }

  /** The keys of every call site's parameters are pairwise distinct. */
  lemma CallSiteKeysDistinct(ctx: SuContext, socket: string)
    ensures DistinctKeys(AppLog(ctx).extras)
    ensures DistinctKeys(AppNotify(ctx).extras)
    ensures DistinctKeys(AppSocket(socket, ctx.info).extras)
  {
  }

  /** A log or notify delivery starts with the synchronous provider call,
   *  aimed at the manager's provider URI. */
  lemma LogAndNotifyTryProviderFirst(ctx: SuContext, providerOut: seq<string>, activityOut: seq<string>)
    ensures var trace := Deliver(AppLog(ctx), ctx.info, providerOut, activityOut);
      trace != [] && trace[0].argv[2] == CONTENT_TOOL &&
      trace[0].argv[5] == ProviderUri(ctx.info.manager) && trace[0].completion == Sync &&
      trace[0].argv[7] == IntToString(GetUser(ctx.info)) && trace[0].argv[9] == "log"
    ensures var trace := Deliver(AppNotify(ctx), ctx.info, providerOut, activityOut);
      trace != [] && trace[0].argv[2] == CONTENT_TOOL &&
      trace[0].argv[5] == ProviderUri(ctx.info.manager) && trace[0].completion == Sync &&
      trace[0].argv[7] == IntToString(GetUser(ctx.info)) && trace[0].argv[9] == "notify"
  {
  }

  /** A socket delivery never calls the provider: it starts with the
   *  synchronous package activity start, and falls through to the
   *  fire-and-forget component start exactly when that one prints an error. */
  lemma SocketSkipsProvider(socket: string, info: SuInfo, providerOut: seq<string>, activityOut: seq<string>)
    ensures var trace := Deliver(AppSocket(socket, info), info, providerOut, activityOut);
      (forall i :: 0 <= i < |trace| ==> trace[i].argv[2] == AM_TOOL) &&
      trace != [] && trace[0].argv[4] == "-p" && trace[0].argv[5] == info.manager &&
      trace[0].completion == Sync &&
      (|trace| == 1 <==> NoErrorLine(activityOut))
  {
  }

  /** Whatever the call site, the manager can recover every parameter from the
   *  arguments of every child the delivery starts. */
  lemma CallSiteParametersRecoverable(ctx: SuContext, socket: string, d: Delivery,
                                      providerOut: seq<string>, activityOut: seq<string>)
    requires d == AppLog(ctx) || d == AppNotify(ctx) || d == AppSocket(socket, ctx.info)
    ensures var trace := Deliver(d, ctx.info, providerOut, activityOut);
      forall i :: 0 <= i < |trace| ==>
        if trace[i].argv[2] == CONTENT_TOOL
        then DecodeBindArgs(trace[i].argv[10..]) == Some(d.extras)
        else DecodeIntentArgs(trace[i].argv[15..]) == Some(d.extras)
  {
    assert ColonFreeKeys(d.extras);
    EveryAttemptCarriesParameters(d.action, d.extras, ctx.info, d.mode, providerOut, activityOut);
  }
}
