/**
 * `check_error` and `exec_cmd` of connect.cpp: the three-tier delivery of an
 * action and its parameters to the manager application. Spawning a child is
 * abstracted: each attempt is recorded as an `Invocation` (its argv, the
 * CLASSPATH set in the child, and whether the dispatcher waits for it), and
 * what a synchronous child prints is an input, one sequence of lines per
 * synchronous tier.
 */
module Dispatcher {
  import opened Wrappers
  import opened CArith
  import opened Decimal
  import opened Extras
  import opened Access

  /** The ceilings a caller passes as `mode`, in enabling order. */
  const NAMED_ACTIVITY: int := 0
  const PKG_ACTIVITY: int := 1
  const CONTENT_PROVIDER: int := 2

  const APP_PROCESS: string := "/system/bin/app_process"
  const BIN_DIR: string := "/system/bin"
  const CONTENT_TOOL: string := "com.android.commands.content.Content"
  const AM_TOOL: string := "com.android.commands.am.Am"
  const CONTENT_CLASSPATH: string := "/system/framework/content.jar"
  const AM_CLASSPATH: string := "/system/framework/am.jar"
  /** FLAG_ACTIVITY_NEW_TASK | FLAG_ACTIVITY_MULTIPLE_TASK | FLAG_INCLUDE_STOPPED_PACKAGES */
  const INTENT_FLAGS: string := "0x18000020"

  /** Whether the dispatcher waits for the child and reads its output. */
  datatype Completion = Sync | Async

  /** One child the dispatcher starts. */
  datatype Invocation = Invocation(argv: seq<string>, classpath: string, completion: Completion)

  datatype Tier = ProviderCall | PkgActivity | NamedActivity

  function Rank(t: Tier): nat {
    match t
    case ProviderCall => 0
    case PkgActivity => 1
    case NamedActivity => 2
  }

  // ---------------------------------------------------------------------------
  // Argument vectors

  /** The CALL_PROVIDER prefix. */
  function ProviderHeader(target: string, user: string, action: string): (h: seq<string>)
    ensures |h| == 10 && h[2] == CONTENT_TOOL && h[3] == "call"
    ensures h[4] == "--uri" && h[5] == target && h[6] == "--user" && h[7] == user
    ensures h[8] == "--method" && h[9] == action
  {
    [APP_PROCESS, BIN_DIR, CONTENT_TOOL, "call", "--uri", target, "--user", user, "--method", action]
  }

  /** The START_ACTIVITY prefix; `flag` is "-p" as written, "-n" once rewritten. */
  function ActivityHeader(flag: string, target: string, user: string, action: string): (h: seq<string>)
    ensures |h| == 15 && h[2] == AM_TOOL && h[3] == "start"
    ensures h[4] == flag && h[5] == target && h[6] == "--user" && h[7] == user
    ensures h[11] == INTENT_FLAGS && h[12] == "--es" && h[13] == "action" && h[14] == action
  {
    [APP_PROCESS, BIN_DIR, AM_TOOL, "start", flag, target, "--user", user,
     "-a", "android.intent.action.VIEW", "-f", INTENT_FLAGS, "--es", "action", action]
  }

  function ProviderArgv(target: string, user: string, action: string, data: seq<Extra>): seq<string> {
    ProviderHeader(target, user, action) + BindArgs(data)
  }

  function ActivityArgv(flag: string, target: string, user: string, action: string, data: seq<Extra>): seq<string> {
    ActivityHeader(flag, target, user, action) + IntentArgs(data)
  }

  /** `content://<pkg>.provider`: the package can be read back from the middle. */
  function ProviderUri(manager: string): (uri: string)
    ensures |uri| == |manager| + 19
    ensures uri[..10] == "content://" && uri[10..10 + |manager|] == manager
    ensures uri[10 + |manager|..] == ".provider"
  {
    "content://" + manager + ".provider"
  }

  /** `<pkg>/a.m`: the package, then the activity alias. */
  function ComponentTarget(manager: string): (target: string)
    ensures |target| == |manager| + 4
    ensures target[..|manager|] == manager && target[|manager|..] == "/a.m"
  {
    manager + "/a.m"
  }

  /** Overwriting the flag and target slots of an activity argv is the same as
   *  building it with the new flag and target. */
  lemma ActivityArgvRetarget(flag: string, target: string, flag': string, target': string,
                             user: string, action: string, data: seq<Extra>)
    ensures ActivityArgv(flag, target, user, action, data)[4 := flag'][5 := target']
         == ActivityArgv(flag', target', user, action, data)
    ensures ActivityArgv(flag, target, user, action, data)[5 := target']
         == ActivityArgv(flag, target', user, action, data)
  {
  }

  /** The component-qualified argv differs from the package argv in exactly
   *  index 4 ("-p" becomes "-n") and index 5 (the package becomes `<pkg>/a.m`). */
  lemma NamedArgvDiffersOnlyInFlagAndTarget(manager: string, user: string, action: string, data: seq<Extra>)
    ensures var p := ActivityArgv("-p", manager, user, action, data);
            var n := ActivityArgv("-n", ComponentTarget(manager), user, action, data);
            |n| == |p| && n[4] == "-n" && p[4] == "-p" && n[5] == manager + "/a.m" && p[5] == manager &&
            forall k :: 0 <= k < |p| && k != 4 && k != 5 ==> n[k] == p[k]
  {
  }

  /** Every parameter reaches the manager: the part of each argv after its
   *  fixed prefix decodes back to the parameter list. */
  lemma ArgvCarriesParameters(target: string, flag: string, user: string, action: string, data: seq<Extra>)
    requires ColonFreeKeys(data)
    ensures |ProviderHeader(target, user, action)| == 10
    ensures DecodeBindArgs(ProviderArgv(target, user, action, data)[10..]) == Some(data)
    ensures |ActivityHeader(flag, target, user, action)| == 15
    ensures DecodeIntentArgs(ActivityArgv(flag, target, user, action, data)[15..]) == Some(data)
  {
    assert ProviderArgv(target, user, action, data)[10..] == BindArgs(data);
    assert ActivityArgv(flag, target, user, action, data)[15..] == IntentArgs(data);
    BindArgsRoundTrip(data);
    IntentArgsRoundTrip(data);
  }

  // ---------------------------------------------------------------------------
  // Output-based success detection

  /** `strncmp(line, "Error", 5) == 0`. */
  predicate IsErrorLine(line: string) {
    "Error" <= line
  }

  predicate NoErrorLine(lines: seq<string>) {
    forall i :: 0 <= i < |lines| ==> !IsErrorLine(lines[i])
  }

  /** `check_error`: success unless some output line starts with "Error";
   *  the scan stops at the first such line. */
  method CheckError(lines: seq<string>) returns (ok: bool)
    ensures ok <==> NoErrorLine(lines)
    ensures lines == [] ==> ok
  {
    for i := 0 to |lines|
      invariant forall j :: 0 <= j < i ==> !IsErrorLine(lines[j])
    {
      if IsErrorLine(lines[i]) {
        return false;
      }
    }
    return true;
  }

  // ---------------------------------------------------------------------------
  // The tier decision

  /** Whether tier `t` succeeded, judged by the output of its own child; the
   *  fire-and-forget tier reports nothing. */
  predicate Succeeded(t: Tier, providerOut: seq<string>, activityOut: seq<string>) {
    match t
    case ProviderCall => NoErrorLine(providerOut)
    case PkgActivity => NoErrorLine(activityOut)
    case NamedActivity => false
  }

  /** The tiers `exec_cmd` attempts, in order. */
  function Tiers(mode: int, providerOut: seq<string>, activityOut: seq<string>): (ts: seq<Tier>)
    ensures 1 <= |ts| <= 3
    ensures Succeeded(ts[|ts| - 1], providerOut, activityOut) || ts[|ts| - 1] == NamedActivity
  {
    var provider := if mode >= CONTENT_PROVIDER then [ProviderCall] else [];
    if mode >= CONTENT_PROVIDER && NoErrorLine(providerOut) then provider
    else if mode >= PKG_ACTIVITY && NoErrorLine(activityOut) then provider + [PkgActivity]
    else if mode >= PKG_ACTIVITY then provider + [PkgActivity, NamedActivity]
    else provider + [NamedActivity]
  }

  /** The child started for tier `t`. */
  function TierCall(t: Tier, action: string, data: seq<Extra>, info: SuInfo): (c: Invocation)
    ensures c.completion == Async <==> t == NamedActivity
    ensures c.classpath == (if t == ProviderCall then CONTENT_CLASSPATH else AM_CLASSPATH)
  {
    var user := IntToString(GetUser(info));
    match t
    case ProviderCall =>
      Invocation(ProviderArgv(ProviderUri(info.manager), user, action, data), CONTENT_CLASSPATH, Sync)
    case PkgActivity =>
      Invocation(ActivityArgv("-p", info.manager, user, action, data), AM_CLASSPATH, Sync)
    case NamedActivity =>
      Invocation(ActivityArgv("-n", ComponentTarget(info.manager), user, action, data), AM_CLASSPATH, Async)
  }

  /** The children `exec_cmd` starts, in order. */
  function Dispatch(action: string, data: seq<Extra>, info: SuInfo, mode: int,
                    providerOut: seq<string>, activityOut: seq<string>): (trace: seq<Invocation>)
    ensures |trace| == |Tiers(mode, providerOut, activityOut)|
    ensures trace[|trace| - 1].completion == Async ||
            Succeeded(Tiers(mode, providerOut, activityOut)[|trace| - 1], providerOut, activityOut)
  {
    var ts := Tiers(mode, providerOut, activityOut);
    seq(|ts|, i requires 0 <= i < |ts| => TierCall(ts[i], action, data, info))
  }

  /** Between one and three tiers, each at most once, in the fixed order. */
  lemma TiersInOrder(mode: int, providerOut: seq<string>, activityOut: seq<string>)
    ensures var ts := Tiers(mode, providerOut, activityOut);
            1 <= |ts| <= 3 &&
            forall i, j :: 0 <= i < j < |ts| ==> Rank(ts[i]) < Rank(ts[j])
  {
  }

  /** The provider tier runs exactly when the ceiling allows it, and then first. */
  lemma ProviderTierGate(mode: int, providerOut: seq<string>, activityOut: seq<string>)
    ensures var ts := Tiers(mode, providerOut, activityOut);
            (ProviderCall in ts <==> mode >= CONTENT_PROVIDER) &&
            (ProviderCall in ts ==> ts[0] == ProviderCall)
  {
  }

  /** The package activity tier runs exactly when the ceiling allows it and
   *  the provider tier did not already succeed. */
  lemma PkgTierGate(mode: int, providerOut: seq<string>, activityOut: seq<string>)
    ensures PkgActivity in Tiers(mode, providerOut, activityOut) <==>
            mode >= PKG_ACTIVITY && !(mode >= CONTENT_PROVIDER && NoErrorLine(providerOut))
  {
  }

  /** Dispatch stops at the first tier that succeeds: every earlier tier
   *  failed, and the last tier either succeeded or is the fire-and-forget
   *  one, which is attempted exactly when no synchronous tier succeeded. */
  lemma StopsAtFirstSuccess(mode: int, providerOut: seq<string>, activityOut: seq<string>)
    ensures var ts := Tiers(mode, providerOut, activityOut);
            (forall i :: 0 <= i < |ts| - 1 ==> !Succeeded(ts[i], providerOut, activityOut)) &&
            (Succeeded(ts[|ts| - 1], providerOut, activityOut) || ts[|ts| - 1] == NamedActivity) &&
            (NamedActivity in ts <==> forall i :: 0 <= i < |ts| ==> !Succeeded(ts[i], providerOut, activityOut))
  {
  }

  /** Only the last child can be one the dispatcher does not wait for, and it
   *  is the component-qualified activity start. */
  lemma OnlyFinalAttemptIsAsync(action: string, data: seq<Extra>, info: SuInfo, mode: int,
                                providerOut: seq<string>, activityOut: seq<string>)
    ensures var trace := Dispatch(action, data, info, mode, providerOut, activityOut);
            forall i :: 0 <= i < |trace| && trace[i].completion == Async ==>
              i == |trace| - 1 && trace[i].argv[4] == "-n" && trace[i].argv[5] == ComponentTarget(info.manager)
  {
    var ts := Tiers(mode, providerOut, activityOut);
    var trace := Dispatch(action, data, info, mode, providerOut, activityOut);
    TiersInOrder(mode, providerOut, activityOut);
    forall i | 0 <= i < |trace| && trace[i].completion == Async
      ensures i == |trace| - 1 && trace[i].argv[4] == "-n" && trace[i].argv[5] == ComponentTarget(info.manager)
    {
      TierCallShape(ts[i], action, data, info);
      assert ts[i] == NamedActivity;
    }
  }

  /** A provider child that prints an "Error" line hands over to the package
   *  activity start, aimed at the bare package name. */
  lemma ProviderErrorFallsBackToPackage(action: string, data: seq<Extra>, info: SuInfo, mode: int,
                                        providerOut: seq<string>, activityOut: seq<string>)
    requires mode >= CONTENT_PROVIDER
    requires exists i :: 0 <= i < |providerOut| && IsErrorLine(providerOut[i])
    ensures var trace := Dispatch(action, data, info, mode, providerOut, activityOut);
            |trace| >= 2 && trace[0].argv[2] == CONTENT_TOOL && trace[1].completion == Sync &&
            trace[1].argv[4] == "-p" && trace[1].argv[5] == info.manager
  {
  }

  /** What each tier's child is: its tool, its target, its CLASSPATH and
   *  whether the dispatcher waits for it. */
  lemma TierCallShape(t: Tier, action: string, data: seq<Extra>, info: SuInfo)
    ensures var c := TierCall(t, action, data, info);
            |c.argv| >= 10 &&
            c.argv[2] == (if t == ProviderCall then CONTENT_TOOL else AM_TOOL) &&
            c.classpath == (if t == ProviderCall then CONTENT_CLASSPATH else AM_CLASSPATH) &&
            (c.completion == Async <==> t == NamedActivity) &&
            c.argv[5] == (match t
                          case ProviderCall => ProviderUri(info.manager)
                          case PkgActivity => info.manager
                          case NamedActivity => ComponentTarget(info.manager)) &&
            (t != ProviderCall ==> c.argv[4] == (if t == PkgActivity then "-p" else "-n")) &&
            c.argv[6] == "--user" && c.argv[7] == IntToString(GetUser(info)) &&
            c.argv[if t == ProviderCall then 9 else 14] == action
  {
  }

  /** The first child started is the highest tier the ceiling allows. */
  lemma FirstAttempt(action: string, data: seq<Extra>, info: SuInfo, mode: int,
                     providerOut: seq<string>, activityOut: seq<string>)
    ensures var trace := Dispatch(action, data, info, mode, providerOut, activityOut);
            trace != [] &&
            trace[0] == TierCall(if mode >= CONTENT_PROVIDER then ProviderCall
                                 else if mode >= PKG_ACTIVITY then PkgActivity
                                 else NamedActivity, action, data, info)
  {
  }

  /** Every child started carries the whole parameter list, in the encoding
   *  of its tool. */
  lemma EveryAttemptCarriesParameters(action: string, data: seq<Extra>, info: SuInfo, mode: int,
                                      providerOut: seq<string>, activityOut: seq<string>)
    requires ColonFreeKeys(data)
    ensures var trace := Dispatch(action, data, info, mode, providerOut, activityOut);
            forall i :: 0 <= i < |trace| ==>
              if trace[i].argv[2] == CONTENT_TOOL
              then DecodeBindArgs(trace[i].argv[10..]) == Some(data)
              else DecodeIntentArgs(trace[i].argv[15..]) == Some(data)
  {
    var trace := Dispatch(action, data, info, mode, providerOut, activityOut);
    var ts := Tiers(mode, providerOut, activityOut);
    var user := IntToString(GetUser(info));
    forall i | 0 <= i < |trace|
      ensures if trace[i].argv[2] == CONTENT_TOOL
              then DecodeBindArgs(trace[i].argv[10..]) == Some(data)
              else DecodeIntentArgs(trace[i].argv[15..]) == Some(data)
    {
      TierCallShape(ts[i], action, data, info);
      match ts[i]
      case ProviderCall =>
        ArgvCarriesParameters(ProviderUri(info.manager), "-p", user, action, data);
      case PkgActivity =>
        ArgvCarriesParameters(info.manager, "-p", user, action, data);
      case NamedActivity =>
        ArgvCarriesParameters(ComponentTarget(info.manager), "-n", user, action, data);
    }
  }

  // ---------------------------------------------------------------------------
  // exec_cmd

  /** The provider argument vector, as `exec_cmd` fills it: the CALL_PROVIDER
   *  prefix, then `add_bind` for each parameter in turn. */
  method BuildProviderArgs(target: string, user: string, action: string, data: seq<Extra>)
    returns (argv: seq<string>)
    ensures argv == ProviderArgv(target, user, action, data)
  {
    var args := new ArgVector(ProviderHeader(target, user, action));
    for i := 0 to |data|
      invariant args.tokens == ProviderHeader(target, user, action) + BindArgs(data[..i])
    {
      AddBind(data[i], args);
      ConcatMapSnoc(data[..i], data[i], BindTokens);
      assert data[..i + 1] == data[..i] + [data[i]];
    }
    assert data[..|data|] == data;
    argv := args.tokens;
  }

  /** The activity argument vector, as `exec_cmd` fills it: the START_ACTIVITY
   *  prefix aimed at the current target, then `add_intent` for each parameter. */
  method BuildActivityArgs(target: string, user: string, action: string, data: seq<Extra>)
    returns (args: ArgVector)
    ensures fresh(args)
    ensures args.tokens == ActivityArgv("-p", target, user, action, data)
  {
    args := new ArgVector(ActivityHeader("-p", target, user, action));
    for i := 0 to |data|
      invariant args.tokens == ActivityHeader("-p", target, user, action) + IntentArgs(data[..i])
    {
      AddIntent(data[i], args);
      ConcatMapSnoc(data[..i], data[i], IntentTokens);
      assert data[..i + 1] == data[..i] + [data[i]];
    }
    assert data[..|data|] == data;
  }

  /** `exec_cmd`: tries the tiers the ceiling allows, rewrites the activity
   *  vector in place between tiers, and returns at the first synchronous
   *  success. The result is the list of children started, in order. */
  method ExecCmd(action: string, data: seq<Extra>, info: SuInfo, mode: int,
                 providerOut: seq<string>, activityOut: seq<string>) returns (trace: seq<Invocation>)
    ensures trace == Dispatch(action, data, info, mode, providerOut, activityOut)
  {
    ghost var ts := Tiers(mode, providerOut, activityOut);
    var user := IntToString(GetUser(info));
    // The `target` buffer; slot 5 of the activity vector points at it, so
    // every write to it below is also a write to that slot.
    var target := "";
    trace := [];

    if mode >= CONTENT_PROVIDER {
      target := ProviderUri(info.manager);
      var argv := BuildProviderArgs(target, user, action, data);
      trace := [Invocation(argv, CONTENT_CLASSPATH, Sync)];
      assert trace[0] == TierCall(ProviderCall, action, data, info);
      var ok := CheckError(providerOut);
      if ok {
        assert ts == [ProviderCall];
        return;
      }
    }

    var args := BuildActivityArgs(target, user, action, data);

    if mode >= PKG_ACTIVITY {
      target := info.manager;
      ActivityArgvRetarget("-p", args.tokens[5], "-p", target, user, action, data);
      args.Set(5, target);
      trace := trace + [Invocation(args.tokens, AM_CLASSPATH, Sync)];
      assert trace[|trace| - 1] == TierCall(PkgActivity, action, data, info);
      var ok := CheckError(activityOut);
      if ok {
        return;
      }
    }

    ActivityArgvRetarget("-p", args.tokens[5], "-n", ComponentTarget(info.manager), user, action, data);
    args.Set(4, "-n");
    target := ComponentTarget(info.manager);
    args.Set(5, target);
    trace := trace + [Invocation(args.tokens, AM_CLASSPATH, Async)];
    assert trace[|trace| - 1] == TierCall(NamedActivity, action, data, info);
  }
}
