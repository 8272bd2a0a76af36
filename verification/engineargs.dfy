/** The engine command line: topology flags, the operator's argument map with its
  * per-role overrides, and free-form arguments.
  * internal/controller/reconciler.go. */
module EngineArgs {
  import opened Prelude
  import opened Events
  import opened Topology
  import opened Ordering
  import opened SortedKeys
  import Decimal
  import Text

  /** One engine argument: a bare flag, or a flag with a value. */
  datatype Arg = Switch(name: string) | Setting(name: string, value: string)

  function Tokens(a: Arg): seq<string> {
    match a
    case Switch(name) => ["--" + name]
    case Setting(name, value) => ["--" + name, value]
  }

  function Render(args: seq<Arg>): seq<string> {
    if args == [] then [] else Render(args[..|args| - 1]) + Tokens(args[|args| - 1])
  }

  // -------------------------------------------------------- merging overrides

  /** The shared map with one role's overrides laid over it, the last on top. */
  function Effective(shared: map<string, string>, overrides: seq<RoleArgs>, role: string): map<string, string> {
    if overrides == [] then shared
    else
      var below := Effective(shared, overrides[..|overrides| - 1], role);
      var top := overrides[|overrides| - 1];
      if top.role == role then below + top.engineArgs else below
  }

  function Extras(shared: seq<string>, overrides: seq<RoleArgs>, role: string): seq<string> {
    if overrides == [] then shared
    else
      var below := Extras(shared, overrides[..|overrides| - 1], role);
      var top := overrides[|overrides| - 1];
      if top.role == role then below + top.extraArgs else below
  }

  /** The last override of the role that sets the flag. */
  ghost predicate LastOverride(overrides: seq<RoleArgs>, role: string, flag: string, k: nat) {
    && k < |overrides| && overrides[k].role == role && flag in overrides[k].engineArgs
    && forall j :: k < j < |overrides| && overrides[j].role == role ==> flag !in overrides[j].engineArgs
  }

  /** A flag takes its value from the last override for the role that sets it ... */
  lemma {:induction false} OverriddenValue(
    shared: map<string, string>, overrides: seq<RoleArgs>, role: string, flag: string, k: nat)
    requires LastOverride(overrides, role, flag, k)
    ensures var e := Effective(shared, overrides, role); flag in e && e[flag] == overrides[k].engineArgs[flag]
  {
    var n := |overrides| - 1;
    if k == n {
    } else {
      OverriddenValue(shared, overrides[..n], role, flag, k);
    }
  }

  /** ... and from the shared map when no override for the role sets it. */
  lemma {:induction false} SharedValue(
    shared: map<string, string>, overrides: seq<RoleArgs>, role: string, flag: string)
    requires forall k :: 0 <= k < |overrides| && overrides[k].role == role ==> flag !in overrides[k].engineArgs
    ensures var e := Effective(shared, overrides, role);
            (flag in e <==> flag in shared) && (flag in e ==> e[flag] == shared[flag])
  {
    if overrides == [] {
    } else {
      SharedValue(shared, overrides[..|overrides| - 1], role, flag);
    }
  }

  method ArgsForRole(evt: ChangeEvent, role: string) returns (engineArgs: map<string, string>, extra: seq<string>)
    ensures engineArgs == Effective(evt.engineArgs, evt.roleEngineArgs, role)
    ensures extra == Extras(evt.extraArgs, evt.roleEngineArgs, role)
  {
    engineArgs := Overlay(map[], evt.engineArgs, AnyKey);
    PickedAny(evt.engineArgs);
    extra := evt.extraArgs;
    var overrides := evt.roleEngineArgs;
    for i := 0 to |overrides|
      invariant engineArgs == Effective(evt.engineArgs, overrides[..i], role)
      invariant extra == Extras(evt.extraArgs, overrides[..i], role)
    {
      assert overrides[..i + 1][..i] == overrides[..i];
      if overrides[i].role == role {
        engineArgs := Overlay(engineArgs, overrides[i].engineArgs, AnyKey);
        PickedAny(overrides[i].engineArgs);
        extra := extra + overrides[i].extraArgs;
      }
    }
    assert overrides[..|overrides|] == overrides;
  }

  // ----------------------------------------------------------- topology flags

  const KV_CONFIG := "kv-transfer-config"
  const DISAGGREGATION := "disaggregation-mode"

  function TensorFlag(engine: string): string { if engine == "sglang" then "tp-size" else "tensor-parallel-size" }

  function PipelineFlag(engine: string): string { if engine == "sglang" then "pp-size" else "pipeline-parallel-size" }

  const KV_GROUP := "\"kv_connector\":\"PyNcclConnector\",\"kv_parallel_size\":2,\"kv_rank\":0,"

  /** The JSON of the two roles' KV transfer group; the keys come out sorted. */
  function KvConfig(engineRole: string): string {
    "{" + (KV_GROUP + (if engineRole == DECODE then "\"kv_role\":\"kv_consumer\"}" else "\"kv_role\":\"kv_producer\"}"))
  }

  /** A flag a topology may ask for. */
  datatype Flag = Flag(name: string, value: string, wanted: bool)

  function TopologyFlags(evt: ChangeEvent, role: StormRole): seq<Flag> {
    var tp, pp := AtLeastOne(evt.tensorParallelSize), AtLeastOne(evt.pipelineParallelSize);
    [Flag(TensorFlag(evt.engine), Decimal.Itoa(tp), tp > 1),
     Flag(PipelineFlag(evt.engine), Decimal.Itoa(pp), pp > 1),
     Flag(KV_CONFIG, KvConfig(role.engineRole), evt.engine == "vllm" && role.engineRole != ""),
     Flag(DISAGGREGATION, role.engineRole, evt.engine == "sglang" && role.engineRole != "")]
  }

  /** The wanted flags the engine arguments leave open. */
  function Unset(flags: seq<Flag>, set_: map<string, string>): seq<Arg> {
    if flags == [] then []
    else
      var f := flags[|flags| - 1];
      Unset(flags[..|flags| - 1], set_) + if f.wanted && f.name !in set_ then [Setting(f.name, f.value)] else []
  }

  /** topologyEngineArgs. */
  function TopologyArgs(evt: ChangeEvent, role: StormRole, set_: map<string, string>): seq<Arg> {
    if Distributed(evt) then Unset(TopologyFlags(evt, role), set_) else []
  }

  // ----------------------------------------------------------- operator flags

  predicate IsSwitch(value: string) { "flag:" <= value }

  predicate SwitchedOn(rest: string) { rest == "true" || rest == "1" || rest == "" }

  /** A value "flag:true" (or "flag:1", "flag:") is a bare flag; another "flag:"
    * value, like a blank one, emits nothing. */
  function OperatorArg(name: string, raw: string): (args: seq<Arg>)
    ensures |args| <= 1 && forall a :: a in args ==> a.name == name
  {
    var value := Text.TrimSpace(raw);
    if value == "" then []
    else if IsSwitch(value) then
      if SwitchedOn(value[5..]) then [Switch(name)] else []
    else [Setting(name, value)]
  }

  function Collect(names: seq<string>, emit: string -> seq<Arg>): seq<Arg> {
    if names == [] then [] else Collect(names[..|names| - 1], emit) + emit(names[|names| - 1])
  }

  function Emitter(args: map<string, string>): string -> seq<Arg> {
    (name: string) => if name in args then OperatorArg(name, args[name]) else []
  }

  function OperatorArgs(names: seq<string>, args: map<string, string>): seq<Arg> {
    Collect(names, Emitter(args))
  }

  /** One step of the first loop of appendEngineArgs. */
  method AppendFlag(args: seq<string>, name: string, raw: string) returns (out: seq<string>)
    ensures out == args + Render(OperatorArg(name, raw))
  {
    out := args;
    RenderAppend([], OperatorArg(name, raw));
    var value := Text.TrimSpace(raw);
    if value != "" {
      if IsSwitch(value) {
        if SwitchedOn(value[5..]) { out := out + ["--" + name]; }
      } else {
        out := out + ["--" + name, value];
      }
    }
  }

  /** One step of its second loop. */
  method AppendExtra(args: seq<string>, raw: string) returns (out: seq<string>)
    ensures out == args + KeptOne(raw)
  {
    out := args;
    var arg := Text.TrimSpace(raw);
    if arg != "" { out := out + [arg]; }
  }

  method AppendExtras(args: seq<string>, extra: seq<string>) returns (out: seq<string>)
    ensures out == args + Kept(extra)
  {
    out := args;
    for i := 0 to |extra|
      invariant out == args + Kept(extra[..i])
    {
      assert extra[..i + 1][..i] == extra[..i];
      out := AppendExtra(out, extra[i]);
      Associates(args, Kept(extra[..i]), KeptOne(extra[i]));
    }
    assert extra[..|extra|] == extra;
  }

  ghost function OperatorTokens(engineArgs: map<string, string>): seq<string> {
    Render(OperatorArgs(SortedNames(engineArgs.Keys), engineArgs))
  }

  lemma Associates(a: seq<string>, b: seq<string>, c: seq<string>)
    ensures (a + b) + c == a + (b + c)
  {
  }

  /** The first loop of appendEngineArgs: its result does not depend on the order
    * the map is walked in. */
  method AppendFlags(args: seq<string>, engineArgs: map<string, string>) returns (out: seq<string>)
    ensures out == args + OperatorTokens(engineArgs)
  {
    var order := Range(engineArgs.Keys);
    LessIsTotal(order);
    var names := SortSlice(order, Text.Less);
    SortedNamesFound(engineArgs.Keys, order, names);
    out := args;
    ghost var tokens: seq<string> := [];
    for i := 0 to |names|
      invariant tokens == Render(OperatorArgs(names[..i], engineArgs))
      invariant out == args + tokens
    {
      ghost var more := Render(OperatorArg(names[i], engineArgs[names[i]]));
      OperatorStep(names, engineArgs, i);
      Associates(args, tokens, more);
      out := AppendFlag(out, names[i], engineArgs[names[i]]);
      tokens := tokens + more;
    }
    assert names[..|names|] == names;
  }

  /** appendEngineArgs. */
  method AppendEngineArgs(args: seq<string>, engineArgs: map<string, string>, extra: seq<string>)
    returns (out: seq<string>)
    ensures out == args + OperatorTokens(engineArgs) + Kept(extra)
  {
    out := AppendFlags(args, engineArgs);
    out := AppendExtras(out, extra);
  }

  lemma OperatorStep(names: seq<string>, args: map<string, string>, i: nat)
    requires i < |names| && forall n :: n in names ==> n in args
    ensures Render(OperatorArgs(names[..i + 1], args))
         == Render(OperatorArgs(names[..i], args)) + Render(OperatorArg(names[i], args[names[i]]))
  {
    assert names[..i + 1][..i] == names[..i];
    RenderConcat(OperatorArgs(names[..i], args), OperatorArg(names[i], args[names[i]]));
  }

  function KeptOne(raw: string): seq<string> {
    var arg := Text.TrimSpace(raw);
    if arg == "" then [] else [arg]
  }

  /** The free-form arguments: trimmed, blank ones dropped. */
  function Kept(extra: seq<string>): seq<string> {
    if extra == [] then [] else Kept(extra[..|extra| - 1]) + KeptOne(extra[|extra| - 1])
  }

  lemma RenderAppend(args: seq<Arg>, more: seq<Arg>)
    requires |more| <= 1
    ensures Render(args + more) == Render(args) + if more == [] then [] else Tokens(more[0])
  {
    if more == [] {
      assert args + more == args;
    } else {
      assert (args + more)[..|args|] == args;
    }
  }

  lemma {:induction false} RenderConcat(a: seq<Arg>, b: seq<Arg>)
    ensures Render(a + b) == Render(a) + Render(b)
  {
    if b == [] {
      assert a + b == a;
    } else {
      var front, last := b[..|b| - 1], b[|b| - 1];
      RenderConcat(a, front);
      assert a + b == (a + front) + [last];
      RenderAppend(a + front, [last]);
      Associates(Render(a), Render(front), Tokens(last));
    }
  }

  // ------------------------------------------------------------- the command

  /** A multi-pod role runs the same arguments through a rendezvous wrapper. */
  datatype Command = ImageDefault | Direct(args: seq<string>) | Rendezvous(nodes: int, args: seq<string>)

  /** modelDir. */
  function ModelDir(mountPath: string, weightPath: string): string {
    var wp := Text.Trim(weightPath, (c: char) => c == '/');
    var n := |mountPath|;
    var mount := if n > 0 && mountPath[n - 1] == '/' then mountPath[..n - 1] else mountPath;
    if wp == "" then mountPath else mount + "/" + wp
  }

  predicate KnownEngine(engine: string) { engine == "vllm" || engine == "sglang" }

  function BaseArgs(evt: ChangeEvent, mountPath: string): seq<string> {
    var dir, served := ModelDir(mountPath, evt.weightPath), ServedModelName(evt);
    (if evt.engine == "vllm" then ServerLine("vllm.entrypoints.openai.api_server", "--model", dir)
     else ServerLine("sglang.launch_server", "--model-path", dir))
    + if served != "" then ["--served-model-name", served] else []
  }

  function ServerLine(server: string, flag: string, dir: string): seq<string> {
    ["python3", "-m", server, flag, dir, "--port", "8000", "--host", "0.0.0.0"]
  }

  /** The arguments built from the topology and the role's argument map. */
  ghost function BuiltArgs(evt: ChangeEvent, role: StormRole): seq<Arg> {
    var set_ := Effective(evt.engineArgs, evt.roleEngineArgs, role.name);
    TopologyArgs(evt, role, set_) + OperatorArgs(SortedNames(set_.Keys), set_)
  }

  ghost function RoleTokens(evt: ChangeEvent, role: StormRole): seq<string> {
    Render(BuiltArgs(evt, role)) + Kept(Extras(evt.extraArgs, evt.roleEngineArgs, role.name))
  }

  ghost function CommandOf(evt: ChangeEvent, mountPath: string, role: StormRole): Command {
    if !KnownEngine(evt.engine) then ImageDefault
    else
      var args := BaseArgs(evt, mountPath) + RoleTokens(evt, role);
      if role.podGroupSize > 1 then Rendezvous(role.podGroupSize, args) else Direct(args)
  }

  lemma RoleTokensRegroup(base: seq<string>, top: seq<Arg>, operator: seq<Arg>, kept: seq<string>)
    ensures base + Render(top) + Render(operator) + kept == base + (Render(top + operator) + kept)
  {
    RenderConcat(top, operator);
    Associates(base, Render(top), Render(operator));
    Associates(base, Render(top + operator), kept);
  }

  method AppendRoleArgs(base: seq<string>, evt: ChangeEvent, role: StormRole) returns (args: seq<string>)
    ensures args == base + RoleTokens(evt, role)
  {
    var engineArgs, extra := ArgsForRole(evt, role.name);
    var topologyArgs := TopologyArgs(evt, role, engineArgs);
    args := base + Render(topologyArgs);
    args := AppendEngineArgs(args, engineArgs, extra);
    RoleTokensRegroup(base, topologyArgs, OperatorArgs(SortedNames(engineArgs.Keys), engineArgs), Kept(extra));
  }

  /** engineCommand: one command for every order in which the maps are walked. */
  method EngineCommand(evt: ChangeEvent, mountPath: string, role: StormRole) returns (command: Command)
    ensures command == CommandOf(evt, mountPath, role)
  {
    if !KnownEngine(evt.engine) { return ImageDefault; }
    var args := AppendRoleArgs(BaseArgs(evt, mountPath), evt, role);
    return if role.podGroupSize > 1 then Rendezvous(role.podGroupSize, args) else Direct(args);
  }

  // ----------------------------------------------------------- what it runs

  /** The line passes this value for this flag. */
  ghost predicate Passes(args: seq<string>, flag: string, value: string) {
    exists i :: 0 <= i < |args| - 1 && args[i] == flag && args[i + 1] == value
  }

  lemma PassesAt(args: seq<string>, more: seq<string>, i: nat)
    requires i + 1 < |args|
    ensures Passes(args + more, args[i], args[i + 1])
  {
    assert (args + more)[i] == args[i] && (args + more)[i + 1] == args[i + 1];
  }

  function ArgsOf(c: Command): seq<string> {
    match c
    case ImageDefault => []
    case Direct(args) => args
    case Rendezvous(_, args) => args
  }

  /** A command that serves the model: the engine's own server, told where the weights
    * are, on the port and host the cluster expects, under the name clients use. */
  ghost predicate ServesModel(evt: ChangeEvent, weights: string, args: seq<string>) {
    var model := if Text.TrimSpace(evt.modelName) != "" then Text.TrimSpace(evt.modelName) else evt.name;
    && 3 <= |args| && args[0] == "python3" && args[1] == "-m"
    && args[2] == (if evt.engine == "vllm" then "vllm.entrypoints.openai.api_server" else "sglang.launch_server")
    && Passes(args, if evt.engine == "vllm" then "--model" else "--model-path", weights)
    && Passes(args, "--port", "8000") && Passes(args, "--host", "0.0.0.0")
    && (model != "" ==> Passes(args, "--served-model-name", model))
  }

  lemma ServerLinePasses(server: string, flag: string, dir: string, more: seq<string>)
    ensures var args := ServerLine(server, flag, dir) + more;
            && args[0] == "python3" && args[1] == "-m" && args[2] == server
            && Passes(args, flag, dir) && Passes(args, "--port", "8000") && Passes(args, "--host", "0.0.0.0")
  {
    var line := ServerLine(server, flag, dir);
    PassesAt(line, more, 3);
    PassesAt(line, more, 5);
    PassesAt(line, more, 7);
  }

  lemma NamePasses(line: seq<string>, name: string, more: seq<string>)
    ensures Passes(line + ["--served-model-name", name] + more, "--served-model-name", name)
  {
    PassesAt(line + ["--served-model-name", name], more, |line|);
  }

  lemma LineServes(evt: ChangeEvent, server: string, flag: string, dir: string, more: seq<string>, args: seq<string>)
    requires server == if evt.engine == "vllm" then "vllm.entrypoints.openai.api_server" else "sglang.launch_server"
    requires flag == if evt.engine == "vllm" then "--model" else "--model-path"
    requires var model := ServedModelName(evt);
             var named := if model != "" then ["--served-model-name", model] else [];
             args == ServerLine(server, flag, dir) + (named + more)
    ensures ServesModel(evt, dir, args)
  {
    var line, model := ServerLine(server, flag, dir), ServedModelName(evt);
    ServerLinePasses(server, flag, dir, (if model != "" then ["--served-model-name", model] else []) + more);
    if model != "" {
      NamePasses(line, model, more);
      Associates(line, ["--served-model-name", model], more);
    }
  }

  lemma BaseServesModel(evt: ChangeEvent, mountPath: string, more: seq<string>)
    requires evt.engine == "vllm" || evt.engine == "sglang"
    ensures ServesModel(evt, ModelDir(mountPath, evt.weightPath), BaseArgs(evt, mountPath) + more)
  {
    var server := if evt.engine == "vllm" then "vllm.entrypoints.openai.api_server" else "sglang.launch_server";
    var flag := if evt.engine == "vllm" then "--model" else "--model-path";
    var dir, model := ModelDir(mountPath, evt.weightPath), ServedModelName(evt);
    Associates(ServerLine(server, flag, dir), if model != "" then ["--served-model-name", model] else [], more);
    LineServes(evt, server, flag, dir, more, BaseArgs(evt, mountPath) + more);
  }

  /** Every known engine is started so, with the role's flags at the end of the line, in
    * one pod or in as many as the role spans; an unknown one is left to its image. */
  lemma CommandMeans(evt: ChangeEvent, mountPath: string, role: StormRole)
    ensures var c := CommandOf(evt, mountPath, role);
            if evt.engine == "vllm" || evt.engine == "sglang" then
              && ServesModel(evt, ModelDir(mountPath, evt.weightPath), ArgsOf(c))
              && (exists base :: ArgsOf(c) == base + RoleTokens(evt, role))
              && if role.podGroupSize > 1 then c.Rendezvous? && c.nodes == role.podGroupSize else c.Direct?
            else c == ImageDefault
  {
    if evt.engine == "vllm" || evt.engine == "sglang" {
      BaseServesModel(evt, mountPath, RoleTokens(evt, role));
    }
  }

  lemma {:induction false} RenderPasses(args: seq<Arg>, a: Arg)
    requires a in args
    ensures "--" + a.name in Render(args)
    ensures a.Setting? ==> Passes(Render(args), "--" + a.name, a.value)
  {
    var front, last := args[..|args| - 1], args[|args| - 1];
    assert args == front + [last];
    if a == last {
      assert Render(args)[|Render(front)|] == "--" + a.name;
      if a.Setting? { assert Render(args)[|Render(front)| + 1] == a.value; }
    } else {
      RenderPasses(front, a);
      if a.Setting? {
        var i :| 0 <= i < |Render(front)| - 1 && Render(front)[i] == "--" + a.name && Render(front)[i + 1] == a.value;
        PassesAt(Render(front), Tokens(last), i);
      }
    }
  }

  lemma PassesWithin(before: seq<string>, args: seq<string>, after: seq<string>, flag: string, value: string)
    requires Passes(args, flag, value)
    ensures Passes(before + (args + after), flag, value)
  {
    var i :| 0 <= i < |args| - 1 && args[i] == flag && args[i + 1] == value;
    var line := before + (args + after);
    assert line[|before| + i] == flag && line[|before| + i + 1] == value;
  }

  /** Every argument built for the role is on its line: the flag by itself, or followed
    * at once by its value. */
  lemma ArgumentsArePassed(evt: ChangeEvent, mountPath: string, role: StormRole, a: Arg)
    requires (evt.engine == "vllm" || evt.engine == "sglang") && a in BuiltArgs(evt, role)
    ensures "--" + a.name in ArgsOf(CommandOf(evt, mountPath, role))
    ensures a.Setting? ==> Passes(ArgsOf(CommandOf(evt, mountPath, role)), "--" + a.name, a.value)
  {
    var built, kept := Render(BuiltArgs(evt, role)), Kept(Extras(evt.extraArgs, evt.roleEngineArgs, role.name));
    RenderPasses(BuiltArgs(evt, role), a);
    assert ArgsOf(CommandOf(evt, mountPath, role)) == BaseArgs(evt, mountPath) + (built + kept);
    if a.Setting? { PassesWithin(BaseArgs(evt, mountPath), built, kept, "--" + a.name, a.value); }
  }

  /** The weights are below the mount point, one slash apart, or are the mount itself. */
  lemma ModelDirMeans(mountPath: string, weightPath: string)
    ensures var path := Text.Trim(weightPath, (c: char) => c == '/');
            if path == "" then ModelDir(mountPath, weightPath) == mountPath
            else ModelDir(mountPath, weightPath) == mountPath + "/" + path
                 || exists m :: mountPath == m + "/" && ModelDir(mountPath, weightPath) == mountPath + path
  {
    var path := Text.Trim(weightPath, (c: char) => c == '/');
    var n := |mountPath|;
    if path != "" && n > 0 && mountPath[n - 1] == '/' {
      assert mountPath == mountPath[..n - 1] + "/";
      assert mountPath[..n - 1] + "/" + path == mountPath + path;
    }
  }

  lemma KeptOneMeans(raw: string, word: string)
    ensures word in KeptOne(raw) <==> word != "" && Text.TrimSpace(raw) == word
  {
  }

  lemma KeptGrows(front: seq<string>, last: string, word: string)
    ensures word in Kept(front + [last]) <==> word in Kept(front) || word in KeptOne(last)
  {
    assert (front + [last])[..|front|] == front;
  }

  /** The free-form arguments follow as they are, but for blanks around them. */
  lemma {:induction false} KeptMeans(extra: seq<string>, word: string)
    ensures word in Kept(extra) <==> word != "" && exists raw :: raw in extra && Text.TrimSpace(raw) == word
  {
    if extra == [] {
    } else {
      var front, last := extra[..|extra| - 1], extra[|extra| - 1];
      assert extra == front + [last];
      KeptMeans(front, word);
      KeptGrows(front, last, word);
      KeptOneMeans(last, word);
    }
  }

  /** They are the shared ones and those of every override for the role. */
  lemma {:induction false} ExtrasMean(shared: seq<string>, overrides: seq<RoleArgs>, role: string, raw: string)
    ensures raw in Extras(shared, overrides, role) <==>
              raw in shared || exists o :: o in overrides && o.role == role && raw in o.extraArgs
  {
    if overrides == [] {
    } else {
      var front, last := overrides[..|overrides| - 1], overrides[|overrides| - 1];
      ExtrasMean(shared, front, role, raw);
      assert overrides == front + [last];
    }
  }

  // ------------------------------------------------------------- its contents

  /** What the topology alone asks for. */
  ghost predicate Derived(evt: ChangeEvent, role: StormRole, a: Arg) {
    Distributed(evt) && Wants(TopologyFlags(evt, role), a)
  }

  ghost predicate Wants(flags: seq<Flag>, a: Arg) {
    a.Setting? && Flag(a.name, a.value, true) in flags
  }

  ghost predicate DistinctNames(args: seq<Arg>) {
    forall i, j :: 0 <= i < j < |args| ==> args[i].name != args[j].name
  }

  lemma InConcat(x: seq<Arg>, y: seq<Arg>, a: Arg)
    ensures a in x + y <==> a in x || a in y
  {
  }

  lemma {:induction false} CollectContents(names: seq<string>, emit: string -> seq<Arg>, a: Arg)
    requires forall n, b :: b in emit(n) ==> b.name == n
    ensures a in Collect(names, emit) <==> a.name in names && a in emit(a.name)
  {
    if names == [] {
    } else {
      var front, last := names[..|names| - 1], names[|names| - 1];
      CollectContents(front, emit, a);
      InConcat(Collect(front, emit), emit(last), a);
      assert names == front + [last];
    }
  }

  lemma {:induction false} CollectDistinct(names: seq<string>, emit: string -> seq<Arg>)
    requires forall n, b :: b in emit(n) ==> b.name == n
    requires forall n :: |emit(n)| <= 1
    requires forall i, j :: 0 <= i < j < |names| ==> names[i] != names[j]
    ensures DistinctNames(Collect(names, emit))
  {
    if names == [] {
    } else {
      var front, last := names[..|names| - 1], names[|names| - 1];
      CollectDistinct(front, emit);
      assert last !in front;
      forall a | a in Collect(front, emit) ensures a.name != last {
        CollectContents(front, emit, a);
      }
      AppendDistinct(Collect(front, emit), emit(last));
    }
  }

  lemma OperatorContents(names: seq<string>, args: map<string, string>, a: Arg)
    requires forall n :: n in names ==> n in args
    ensures a in OperatorArgs(names, args) <==> a.name in names && a in OperatorArg(a.name, args[a.name])
  {
    CollectContents(names, Emitter(args), a);
  }

  lemma OperatorDistinct(names: seq<string>, args: map<string, string>)
    requires forall i, j :: 0 <= i < j < |names| ==> names[i] != names[j]
    ensures DistinctNames(OperatorArgs(names, args))
  {
    CollectDistinct(names, Emitter(args));
  }

  lemma AppendDistinct(a: seq<Arg>, b: seq<Arg>)
    requires DistinctNames(a) && DistinctNames(b)
    requires forall x, y :: x in a && y in b ==> x.name != y.name
    ensures DistinctNames(a + b)
  {
    var c := a + b;
    forall i, j | 0 <= i < j < |c| ensures c[i].name != c[j].name {
      if i < |a| <= j { assert c[i] in a && c[j] in b; }
    }
  }

  lemma FlagsDiffer(engine: string)
    ensures var t, p := TensorFlag(engine), PipelineFlag(engine);
            t != p && KV_CONFIG != t && KV_CONFIG != p && DISAGGREGATION != t && DISAGGREGATION != p
              && KV_CONFIG != DISAGGREGATION
  {
    assert |KV_CONFIG| == 18 && |DISAGGREGATION| == 19;
    assert "tp-size"[0] != "pp-size"[0];
  }

  lemma {:induction false} UnsetContents(flags: seq<Flag>, set_: map<string, string>, a: Arg)
    ensures a in Unset(flags, set_) <==> Wants(flags, a) && a.name !in set_
  {
    if flags == [] {
    } else {
      var front, f := flags[..|flags| - 1], flags[|flags| - 1];
      UnsetContents(front, set_, a);
      assert flags == front + [f];
      InConcat(Unset(front, set_), if f.wanted && f.name !in set_ then [Setting(f.name, f.value)] else [], a);
    }
  }

  lemma {:induction false} UnsetDistinct(flags: seq<Flag>, set_: map<string, string>)
    requires forall i, j :: 0 <= i < j < |flags| ==> flags[i].name != flags[j].name
    ensures DistinctNames(Unset(flags, set_))
  {
    if flags == [] {
    } else {
      var front, f := flags[..|flags| - 1], flags[|flags| - 1];
      UnsetDistinct(front, set_);
      forall a | a in Unset(front, set_) ensures a.name != f.name {
        UnsetContents(front, set_, a);
        var i :| 0 <= i < |front| && front[i] == Flag(a.name, a.value, true);
        assert flags[i].name != flags[|flags| - 1].name;
      }
      AppendDistinct(Unset(front, set_), if f.wanted && f.name !in set_ then [Setting(f.name, f.value)] else []);
    }
  }

  lemma TopologyMember(evt: ChangeEvent, role: StormRole, set_: map<string, string>, a: Arg)
    ensures a in TopologyArgs(evt, role, set_) <==> Derived(evt, role, a) && a.name !in set_
  {
    UnsetContents(TopologyFlags(evt, role), set_, a);
  }

  lemma TopologyDistinct(evt: ChangeEvent, role: StormRole, set_: map<string, string>)
    ensures DistinctNames(TopologyArgs(evt, role, set_))
  {
    FlagsDiffer(evt.engine);
    UnsetDistinct(TopologyFlags(evt, role), set_);
  }

  /** Exactly which arguments the topology and the operator's map produce: every
    * flag at most once, an operator's flag as the operator set it, and a derived
    * flag only where the operator's map is silent about it. */
  lemma BuiltArgsContents(evt: ChangeEvent, role: StormRole, a: Arg)
    ensures DistinctNames(BuiltArgs(evt, role))
    ensures var set_ := Effective(evt.engineArgs, evt.roleEngineArgs, role.name);
            a in BuiltArgs(evt, role) <==>
              if a.name in set_ then a in OperatorArg(a.name, set_[a.name]) else Derived(evt, role, a)
  {
    var set_ := Effective(evt.engineArgs, evt.roleEngineArgs, role.name);
    var names := SortedNames(set_.Keys);
    TopologyMember(evt, role, set_, a);
    TopologyDistinct(evt, role, set_);
    OperatorContents(names, set_, a);
    OperatorDistinct(names, set_);
    InConcat(TopologyArgs(evt, role, set_), OperatorArgs(names, set_), a);
    forall x, y | x in TopologyArgs(evt, role, set_) && y in OperatorArgs(names, set_) ensures x.name != y.name {
      TopologyMember(evt, role, set_, x);
      OperatorContents(names, set_, y);
    }
    AppendDistinct(TopologyArgs(evt, role, set_), OperatorArgs(names, set_));
  }

  /** An explicit value that is neither blank nor a switch is the one emitted. */
  lemma ExplicitValueWins(evt: ChangeEvent, role: StormRole, flag: string, raw: string)
    requires var set_ := Effective(evt.engineArgs, evt.roleEngineArgs, role.name); flag in set_ && set_[flag] == raw
    requires Text.TrimSpace(raw) != "" && !IsSwitch(Text.TrimSpace(raw))
    ensures forall a :: a in BuiltArgs(evt, role) && a.name == flag ==> a == Setting(flag, Text.TrimSpace(raw))
    ensures Setting(flag, Text.TrimSpace(raw)) in BuiltArgs(evt, role)
  {
    BuiltArgsContents(evt, role, Setting(flag, Text.TrimSpace(raw)));
    forall a | a in BuiltArgs(evt, role) && a.name == flag ensures a == Setting(flag, Text.TrimSpace(raw)) {
      BuiltArgsContents(evt, role, a);
    }
  }

  /** A flag with the number as its value. */
  predicate Gives(a: Arg, n: int) {
    a.Setting? && Decimal.Shortest(a.value) && Decimal.Value(a.value) == n
  }

  lemma NumeralGives(name: string, n: nat)
    ensures Gives(Setting(name, Decimal.Itoa(n)), n)
  {
    Decimal.DigitsValue(n);
  }

  lemma WantedIs(flags: seq<Flag>, a: Arg, i: nat)
    requires i < |flags| && a.name == flags[i].name
    requires forall j, k :: 0 <= j < k < |flags| ==> flags[j].name != flags[k].name
    ensures Wants(flags, a) <==> flags[i].wanted && a == Setting(flags[i].name, flags[i].value)
  {
    if flags[i].wanted && a == Setting(flags[i].name, flags[i].value) {
      assert flags[i] == Flag(a.name, a.value, true);
    }
  }

  lemma TopologyFlagsDiffer(evt: ChangeEvent, role: StormRole)
    ensures var flags := TopologyFlags(evt, role);
            forall j, k :: 0 <= j < k < |flags| ==> flags[j].name != flags[k].name
  {
    FlagsDiffer(evt.engine);
  }

  /** Where the operator is silent, a flag is there if and only if the topology asks for
    * it. */
  lemma AskedFor(evt: ChangeEvent, role: StormRole, a: Arg, i: nat)
    requires a.name !in Effective(evt.engineArgs, evt.roleEngineArgs, role.name)
    requires i < |TopologyFlags(evt, role)| && a.name == TopologyFlags(evt, role)[i].name
    ensures var f := TopologyFlags(evt, role)[i];
            a in BuiltArgs(evt, role) <==> Distributed(evt) && f.wanted && a == Setting(f.name, f.value)
  {
    BuiltArgsContents(evt, role, a);
    TopologyFlagsDiffer(evt, role);
    WantedIs(TopologyFlags(evt, role), a, i);
  }

  /** Where the operator is silent, a distributed engine is told how many ways to split
    * the tensors exactly when that is more than one ... */
  lemma TensorFlagMeans(evt: ChangeEvent, role: StormRole, a: Arg)
    requires evt.topology == "multinode" || evt.topology == "distributed" || evt.topology == "pd"
    requires a.name == (if evt.engine == "sglang" then "tp-size" else "tensor-parallel-size")
    requires a.name !in Effective(evt.engineArgs, evt.roleEngineArgs, role.name)
    ensures a in BuiltArgs(evt, role) ==> evt.tensorParallelSize > 1 && Gives(a, evt.tensorParallelSize)
    ensures evt.tensorParallelSize > 1 ==> exists b :: b in BuiltArgs(evt, role) && b.name == a.name
  {
    AskedFor(evt, role, a, 0);
    if evt.tensorParallelSize > 1 {
      AskedFor(evt, role, Setting(a.name, Decimal.Itoa(evt.tensorParallelSize)), 0);
      NumeralGives(a.name, evt.tensorParallelSize);
    }
  }

  /** ... and likewise how many stages to pipeline. */
  lemma PipelineFlagMeans(evt: ChangeEvent, role: StormRole, a: Arg)
    requires evt.topology == "multinode" || evt.topology == "distributed" || evt.topology == "pd"
    requires a.name == (if evt.engine == "sglang" then "pp-size" else "pipeline-parallel-size")
    requires a.name !in Effective(evt.engineArgs, evt.roleEngineArgs, role.name)
    ensures a in BuiltArgs(evt, role) ==> evt.pipelineParallelSize > 1 && Gives(a, evt.pipelineParallelSize)
    ensures evt.pipelineParallelSize > 1 ==> exists b :: b in BuiltArgs(evt, role) && b.name == a.name
  {
    AskedFor(evt, role, a, 1);
    if evt.pipelineParallelSize > 1 {
      AskedFor(evt, role, Setting(a.name, Decimal.Itoa(evt.pipelineParallelSize)), 1);
      NumeralGives(a.name, evt.pipelineParallelSize);
    }
  }

  /** The text ends so. */
  ghost predicate EndsWith(s: string, end: string) { exists front :: s == front + end }

  lemma KvConfigEnds(engineRole: string)
    ensures EndsWith(KvConfig(engineRole),
                     if engineRole == "decode" then "\"kv_role\":\"kv_consumer\"}"
                     else "\"kv_role\":\"kv_producer\"}")
  {
    var end := if engineRole == "decode" then "\"kv_role\":\"kv_consumer\"}" else "\"kv_role\":\"kv_producer\"}";
    Associates1("{", KV_GROUP, end);
  }

  /** The rest of the group is the same for both sides: the default connector, two peers. */
  lemma KvConfigIs(engineRole: string)
    ensures KV_GROUP == "\"kv_connector\":\"PyNcclConnector\",\"kv_parallel_size\":2,\"kv_rank\":0,"
    ensures exists end :: KvConfig(engineRole) == "{" + (KV_GROUP + end)
  {
    var end := if engineRole == "decode" then "\"kv_role\":\"kv_consumer\"}" else "\"kv_role\":\"kv_producer\"}";
    assert KvConfig(engineRole) == "{" + (KV_GROUP + end);
  }

  lemma Associates1(a: string, b: string, c: string)
    ensures a + (b + c) == (a + b) + c
  {
  }

  lemma RoleTells(evt: ChangeEvent, role: StormRole)
    requires role in StormRoles(evt)
    ensures role.engineRole == if evt.topology == "pd" then role.name else ""
    ensures evt.topology == "pd" ==> role.name == "prefill" || role.name == "decode"
    ensures evt.topology == "pd" ==> Distributed(evt)
  {
    RolesMean(evt, role);
  }

  /** A vLLM pair's roles, and no others, are told which side of the transfer they are
    * on: decoding consumes what prefilling produces. */
  lemma KvFlagMeans(evt: ChangeEvent, role: StormRole, a: Arg)
    requires role in StormRoles(evt) && a.name == "kv-transfer-config"
    requires a.name !in Effective(evt.engineArgs, evt.roleEngineArgs, role.name)
    ensures (exists b :: b in BuiltArgs(evt, role) && b.name == a.name)
       <==> evt.topology == "pd" && evt.engine == "vllm"
    ensures a in BuiltArgs(evt, role) ==>
              && a.Setting?
              && (role.name == "decode" ==> EndsWith(a.value, "\"kv_role\":\"kv_consumer\"}"))
              && (role.name == "prefill" ==> EndsWith(a.value, "\"kv_role\":\"kv_producer\"}"))
  {
    RoleTells(evt, role);
    AskedFor(evt, role, a, 2);
    var config := KvConfig(role.engineRole);
    AskedFor(evt, role, Setting(a.name, config), 2);
    forall b | b in BuiltArgs(evt, role) && b.name == a.name ensures b == Setting(a.name, config) {
      AskedFor(evt, role, b, 2);
    }
    KvConfigEnds(role.engineRole);
  }

  /** An SGLang pair's roles are told their own names. */
  lemma DisaggregationFlagMeans(evt: ChangeEvent, role: StormRole, a: Arg)
    requires role in StormRoles(evt) && a.name == "disaggregation-mode"
    requires a.name !in Effective(evt.engineArgs, evt.roleEngineArgs, role.name)
    ensures a in BuiltArgs(evt, role) <==>
              evt.topology == "pd" && evt.engine == "sglang" && a == Setting("disaggregation-mode", role.name)
  {
    RoleTells(evt, role);
    AskedFor(evt, role, a, 3);
  }

  lemma SwitchIs(value: string, rest: string)
    ensures IsSwitch(value) && value[5..] == rest <==> value == "flag:" + rest
  {
    if IsSwitch(value) { assert value == "flag:" + value[5..]; }
  }

  /** What the operator's own flags become: a blank value nothing, "flag:true", "flag:1"
    * and "flag:" a bare flag, any other "flag:" nothing, and every other value itself. */
  lemma OperatorArgMeans(name: string, raw: string, a: Arg)
    ensures var value := Text.TrimSpace(raw);
            a in OperatorArg(name, raw) <==>
              if value == "flag:" + "true" || value == "flag:" + "1" || value == "flag:" + "" then a == Switch(name)
              else value != "" && !("flag:" <= value) && a == Setting(name, value)
  {
    var value := Text.TrimSpace(raw);
    SwitchIs(value, "true");
    SwitchIs(value, "1");
    SwitchIs(value, "");
  }

  function Named(args: seq<Arg>, flag: string): nat {
    if args == [] then 0 else Named(args[..|args| - 1], flag) + if args[|args| - 1].name == flag then 1 else 0
  }

  function Valued(args: seq<Arg>, token: string): nat {
    if args == [] then 0
    else
      var last := args[|args| - 1];
      Valued(args[..|args| - 1], token) + if last.Setting? && last.value == token then 1 else 0
  }

  lemma SameDashed(a: string, b: string)
    ensures "--" + a == "--" + b <==> a == b
  {
    assert ("--" + a)[2..] == a && ("--" + b)[2..] == b;
  }

  lemma TokensOf(a: Arg, flag: string)
    ensures multiset(Tokens(a))["--" + flag]
         == (if a.name == flag then 1 else 0) + if a.Setting? && a.value == "--" + flag then 1 else 0
  {
    SameDashed(a.name, flag);
    if a.Setting? {
      assert Tokens(a) == ["--" + a.name] + [a.value];
      assert multiset(Tokens(a)) == multiset{"--" + a.name} + multiset{a.value};
    } else {
      assert multiset(Tokens(a)) == multiset{"--" + a.name};
    }
  }

  /** On the rendered command line the token "--flag" stands once for the flag and
    * once for every value an operator spelled the same way. */
  lemma {:induction false} FlagTokens(args: seq<Arg>, flag: string)
    ensures multiset(Render(args))["--" + flag] == Named(args, flag) + Valued(args, "--" + flag)
  {
    if args == [] {
    } else {
      var front, last := args[..|args| - 1], args[|args| - 1];
      FlagTokens(front, flag);
      assert multiset(Render(args)) == multiset(Render(front)) + multiset(Tokens(last));
      TokensOf(last, flag);
    }
  }

  lemma {:induction false} DistinctMeansOnce(args: seq<Arg>, flag: string)
    requires DistinctNames(args)
    ensures Named(args, flag) == if exists a :: a in args && a.name == flag then 1 else 0
  {
    if args == [] {
    } else {
      var front, last := args[..|args| - 1], args[|args| - 1];
      DistinctMeansOnce(front, flag);
      assert args == front + [last];
      if last.name == flag {
        assert last in args;
        assert forall a :: a in front ==> a.name != flag;
      }
    }
  }

  /** What the operator gave a flag puts it on the command line. */
  predicate Emits(raw: string) {
    var value := Text.TrimSpace(raw);
    value != "" && (IsSwitch(value) ==> SwitchedOn(value[5..]))
  }

  /** The topology asks for the flag. */
  predicate TopologyAsks(evt: ChangeEvent, role: StormRole, flag: string) {
    && Distributed(evt)
    && (|| (flag == TensorFlag(evt.engine) && evt.tensorParallelSize > 1)
        || (flag == PipelineFlag(evt.engine) && evt.pipelineParallelSize > 1)
        || (flag == KV_CONFIG && evt.engine == "vllm" && role.engineRole != "")
        || (flag == DISAGGREGATION && evt.engine == "sglang" && role.engineRole != ""))
  }

  /** The flag is on the command line: the operator's map decides if it speaks of the
    * flag at all, and the topology otherwise. */
  predicate Emitted(evt: ChangeEvent, role: StormRole, flag: string) {
    var set_ := Effective(evt.engineArgs, evt.roleEngineArgs, role.name);
    if flag in set_ then Emits(set_[flag]) else TopologyAsks(evt, role, flag)
  }

  /** The flags the operator gave this very word for a value. */
  function Spellers(set_: map<string, string>, word: string): set<string> {
    set name | name in set_ && Text.TrimSpace(set_[name]) == word
  }

  lemma {:induction false} ValuedConcat(a: seq<Arg>, b: seq<Arg>, token: string)
    ensures Valued(a + b, token) == Valued(a, token) + Valued(b, token)
  {
    if b == [] {
      assert a + b == a;
    } else {
      var front, last := b[..|b| - 1], b[|b| - 1];
      ValuedConcat(a, front, token);
      assert (a + b)[..|a + b| - 1] == a + front;
    }
  }

  lemma {:induction false} ValuedNowhere(args: seq<Arg>, token: string)
    requires forall a :: a in args && a.Setting? ==> a.value != token
    ensures Valued(args, token) == 0
  {
    if args == [] {
    } else {
      ValuedNowhere(args[..|args| - 1], token);
    }
  }

  lemma StartsElsewhere(value: string, flag: string)
    requires value == "" || value[0] != '-'
    ensures value != "--" + flag
  {
    assert ("--" + flag)[0] == '-';
  }

  lemma JsonOpens(engineRole: string)
    ensures KvConfig(engineRole) != "" && KvConfig(engineRole)[0] == '{'
  {
  }

  lemma NumberOpens(n: nat)
    ensures Decimal.Itoa(n) != "" && Decimal.IsDigit(Decimal.Itoa(n)[0])
  {
  }

  /** No value the topology supplies looks like a flag. */
  lemma DerivedIsNoFlag(evt: ChangeEvent, role: StormRole, a: Arg, flag: string)
    requires role.engineRole in {"", PREFILL, DECODE} && Derived(evt, role, a)
    ensures a.value != "--" + flag
  {
    var tp, pp := AtLeastOne(evt.tensorParallelSize), AtLeastOne(evt.pipelineParallelSize);
    assert a.value in {Decimal.Itoa(tp), Decimal.Itoa(pp), KvConfig(role.engineRole), role.engineRole};
    NumberOpens(tp);
    NumberOpens(pp);
    JsonOpens(role.engineRole);
    StartsElsewhere(a.value, flag);
  }

  lemma OperatorSpells(name: string, raw: string, flag: string)
    ensures Valued(OperatorArg(name, raw), "--" + flag) == if Text.TrimSpace(raw) == "--" + flag then 1 else 0
  {
    var args := OperatorArg(name, raw);
    assert ("--" + flag)[0] == '-' && "flag:"[0] == 'f';
    if args != [] { assert args[..|args| - 1] == []; }
  }

  ghost function SpellersIn(names: seq<string>, set_: map<string, string>, word: string): set<string> {
    set name | name in names && name in set_ && Text.TrimSpace(set_[name]) == word
  }

  lemma SpellersGrow(front: seq<string>, last: string, set_: map<string, string>, word: string)
    requires last !in front && last in set_
    ensures |SpellersIn(front + [last], set_, word)|
         == |SpellersIn(front, set_, word)| + if Text.TrimSpace(set_[last]) == word then 1 else 0
  {
    var before := SpellersIn(front, set_, word);
    assert SpellersIn(front + [last], set_, word)
        == if Text.TrimSpace(set_[last]) == word then before + {last} else before;
  }

  lemma ValuesGrow(front: seq<string>, last: string, set_: map<string, string>, flag: string)
    requires last in set_
    ensures Valued(OperatorArgs(front + [last], set_), "--" + flag)
         == Valued(OperatorArgs(front, set_), "--" + flag) + if Text.TrimSpace(set_[last]) == "--" + flag then 1 else 0
  {
    ValuedConcat(OperatorArgs(front, set_), OperatorArg(last, set_[last]), "--" + flag);
    OperatorSpells(last, set_[last], flag);
    assert (front + [last])[..|front|] == front;
  }

  lemma {:induction false} OperatorValues(names: seq<string>, set_: map<string, string>, flag: string)
    requires forall n :: n in names ==> n in set_
    requires forall i, j :: 0 <= i < j < |names| ==> names[i] != names[j]
    ensures Valued(OperatorArgs(names, set_), "--" + flag) == |SpellersIn(names, set_, "--" + flag)|
  {
    if names == [] {
    } else {
      var front, last := names[..|names| - 1], names[|names| - 1];
      assert names == front + [last] && last !in front;
      OperatorValues(front, set_, flag);
      ValuesGrow(front, last, set_, flag);
      SpellersGrow(front, last, set_, "--" + flag);
    }
  }

  lemma BuiltValues(evt: ChangeEvent, role: StormRole, flag: string)
    requires role.engineRole in {"", PREFILL, DECODE}
    ensures var set_ := Effective(evt.engineArgs, evt.roleEngineArgs, role.name);
            Valued(BuiltArgs(evt, role), "--" + flag) == |Spellers(set_, "--" + flag)|
  {
    var set_ := Effective(evt.engineArgs, evt.roleEngineArgs, role.name);
    var names, top := SortedNames(set_.Keys), TopologyArgs(evt, role, set_);
    ValuedConcat(top, OperatorArgs(names, set_), "--" + flag);
    forall a | a in top && a.Setting? ensures a.value != "--" + flag {
      TopologyMember(evt, role, set_, a);
      DerivedIsNoFlag(evt, role, a, flag);
    }
    ValuedNowhere(top, "--" + flag);
    OperatorValues(names, set_, flag);
    assert SpellersIn(names, set_, "--" + flag) == Spellers(set_, "--" + flag);
  }

  lemma TopologyAsksFor(evt: ChangeEvent, role: StormRole, flag: string)
    ensures TopologyAsks(evt, role, flag) <==> exists a: Arg :: Derived(evt, role, a) && a.name == flag
  {
    var flags := TopologyFlags(evt, role);
    FlagsDiffer(evt.engine);
    if TopologyAsks(evt, role, flag) {
      var k := if flag == TensorFlag(evt.engine) then 0 else if flag == PipelineFlag(evt.engine) then 1
               else if flag == KV_CONFIG then 2 else 3;
      assert flags[k].name == flag && flags[k].wanted;
      assert Derived(evt, role, Setting(flag, flags[k].value));
    }
  }

  lemma EmittedIsBuilt(evt: ChangeEvent, role: StormRole, flag: string)
    ensures Emitted(evt, role, flag) <==> exists a :: a in BuiltArgs(evt, role) && a.name == flag
  {
    var set_ := Effective(evt.engineArgs, evt.roleEngineArgs, role.name);
    forall a: Arg | a.name == flag
      ensures a in BuiltArgs(evt, role)
          <==> if flag in set_ then a in OperatorArg(flag, set_[flag]) else Derived(evt, role, a)
    {
      BuiltArgsContents(evt, role, a);
    }
    if flag in set_ {
      var given := OperatorArg(flag, set_[flag]);
      if given != [] { assert given[0] in given && given[0].name == flag; }
    } else {
      TopologyAsksFor(evt, role, flag);
    }
  }

  /** How often the token "--flag" stands on the rendered line: once if the flag is
    * emitted, and once more for every flag the operator gave that word for a value. */
  lemma FlagCount(evt: ChangeEvent, role: StormRole, flag: string)
    requires role.engineRole in {"", PREFILL, DECODE}
    ensures var set_ := Effective(evt.engineArgs, evt.roleEngineArgs, role.name);
            multiset(Render(BuiltArgs(evt, role)))["--" + flag]
            == |Spellers(set_, "--" + flag)| + if Emitted(evt, role, flag) then 1 else 0
  {
    BuiltArgsContents(evt, role, Switch(flag));
    FlagTokens(BuiltArgs(evt, role), flag);
    DistinctMeansOnce(BuiltArgs(evt, role), flag);
    EmittedIsBuilt(evt, role, flag);
    BuiltValues(evt, role, flag);
  }

  /** So it stands there at most once if and only if the operator's values spell it at
    * most once, and not at all where the flag itself is emitted. */
  lemma FlagAppearsOnce(evt: ChangeEvent, role: StormRole, flag: string)
    requires role in StormRoles(evt)
    ensures var set_ := Effective(evt.engineArgs, evt.roleEngineArgs, role.name);
            multiset(Render(BuiltArgs(evt, role)))["--" + flag] <= 1
            <==> |Spellers(set_, "--" + flag)| <= if Emitted(evt, role, flag) then 0 else 1
  {
    FlagCount(evt, role, flag);
  }

  lemma OneSpeller(set_: map<string, string>, name: string, word: string)
    requires set_ == map[name := word] && Text.TrimSpace(word) == word
    ensures |Spellers(set_, word)| == 1
  {
    assert Spellers(set_, word) == {name};
  }

  /** A two-machine deployment whose operator calls the chat template like a flag. */
  const MISSPELT: ChangeEvent := ChangeEvent(
    "upsert", "id", "chat", "", "", "image", "sglang", 1, "nvidia", "", None, "", "", 0, 0,
    map["chat-template" := "--tp-size"], [], [], "multinode", 2, 1, 1, 1, 1, 0, 0, "")

  lemma MisspeltArgs(role: StormRole, set_: map<string, string>)
    requires set_ == Effective(MISSPELT.engineArgs, MISSPELT.roleEngineArgs, role.name)
    ensures |Spellers(set_, "--tp-size")| == 1 && "tp-size" !in set_
  {
    assert set_ == map["chat-template" := "--tp-size"];
    Text.NothingToTrim("--tp-size");
    OneSpeller(set_, "chat-template", "--tp-size");
    assert |"tp-size"| == 7 && |"chat-template"| == 13;
  }

  lemma MisspeltEmits(role: StormRole)
    requires role in StormRoles(MISSPELT)
    ensures Emitted(MISSPELT, role, "tp-size") && role.engineRole == ""
  {
    MisspeltArgs(role, Effective(MISSPELT.engineArgs, MISSPELT.roleEngineArgs, role.name));
  }

  /** Its command line holds "--tp-size" twice. */
  lemma FlagAppearsTwice(role: StormRole)
    requires role in StormRoles(MISSPELT)
    ensures multiset(Render(BuiltArgs(MISSPELT, role)))["--tp-size"] == 2
  {
    assert "--" + "tp-size" == "--tp-size";
    MisspeltArgs(role, Effective(MISSPELT.engineArgs, MISSPELT.roleEngineArgs, role.name));
    MisspeltEmits(role);
    FlagCount(MISSPELT, role, "tp-size");
  }
}
