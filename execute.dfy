/**
 * The execution routes (backend/routes/execute.js): `/run`, `/command` and
 * `/install`. Each validates its request before any sandbox exists, then
 * creates one, drives it through a fixed sequence of file writes and shell
 * commands, maps the last command's result, and kills the sandbox on every
 * path out (`finally`).
 *
 * The sandbox platform is foreign: `Sandbox` records every call in an ordered
 * log, counts kills, and answers from a `Platform` description that fixes
 * what each command returns, what hostname it exposes, and which call (if
 * any) throws.
 */
module Execute {
  import opened Wrappers
  import opened Text
  import Registry
  import Shell

  const WorkDir: string := "/project"

  /** An auxiliary file of a `/run` request; a missing path or content reads as "". */
  datatype AuxFile = AuxFile(path: string, content: string)

  /** The `/run` body. Falsy `code`, `input` and `path` are "", and `language` is `None` when absent. */
  datatype RunRequest = RunRequest(code: string, language: Option<string>, input: string, files: seq<AuxFile>, path: string)

  /** The `/command` body: `cwd` is `None` when absent. */
  datatype CommandRequest = CommandRequest(command: string, cwd: Option<string>)

  /** The `/install` body: `packages` is `None` when it is not an array, `packageManager` `None` when absent. */
  datatype InstallRequest = InstallRequest(packageManager: Option<string>, packages: Option<seq<string>>)

  /** What `commands.run` returns; an absent stdout or logs reads as "". */
  datatype Raw = Raw(exitCode: Option<int>, stdout: string, logs: string, stderr: string)

  datatype ExecResult = ExecResult(success: bool, exitCode: int, stdout: string, stderr: string)

  datatype Response =
    | RunDone(result: ExecResult, previewUrl: Option<string>)
    | CommandDone(result: ExecResult, cwd: string)
    | InstallDone(result: ExecResult, packages: seq<string>)
    | BadRequest(error: string, supported: seq<string>)
    | ServerError

  function Status(r: Response): int
  {
    match r
    case BadRequest(_, _) => 400
    case ServerError => 500
    case _ => 200
  }

  /** One call into a sandbox. */
  datatype Op = Write(path: string, content: string) | Exec(cmd: string) | Hostname

  /**
   * The foreign platform: whether `Sandbox.create` throws, which call (by its
   * position in the log) throws, what each command returns, whether the
   * sandbox has a `getHostname` accessor and what it returns ("" for none).
   */
  datatype Platform = Platform(createFails: bool, fault: Option<nat>, reply: string -> Raw, hostAccessor: bool, host: string)

  class Sandbox {
    var log: seq<Op>
    var kills: nat
    const fault: Option<nat>
    const reply: string -> Raw
    const hostAccessor: bool
    const host: string

    constructor (p: Platform)
      ensures log == [] && kills == 0
      ensures fault == p.fault && reply == p.reply && hostAccessor == p.hostAccessor && host == p.host
    {
      log, kills := [], 0;
      fault, reply, hostAccessor, host := p.fault, p.reply, p.hostAccessor, p.host;
    }

    /** `files.write(path, content)`; false when the call throws. */
    method WriteFile(path: string, content: string) returns (ok: bool)
      requires kills == 0
      modifies this`log
      ensures log == old(log) + [Write(path, content)]
      ensures ok <==> fault != Some(|old(log)|)
    {
      log := log + [Write(path, content)];
      ok := fault != Some(|log| - 1);
    }

    /** `commands.run(cmd)`; `None` when the call throws. */
    method RunCommand(cmd: string) returns (res: Option<Raw>)
      requires kills == 0
      modifies this`log
      ensures log == old(log) + [Exec(cmd)]
      ensures res == if fault == Some(|old(log)|) then None else Some(reply(cmd))
    {
      log := log + [Exec(cmd)];
      res := if fault == Some(|log| - 1) then None else Some(reply(cmd));
    }

    /** `getHostname()`; `None` when the call throws. */
    method GetHostname() returns (res: Option<string>)
      requires kills == 0 && hostAccessor
      modifies this`log
      ensures log == old(log) + [Hostname]
      ensures res == if fault == Some(|old(log)|) then None else Some(host)
    {
      log := log + [Hostname];
      res := if fault == Some(|log| - 1) then None else Some(host);
    }

    /** `kill()`; its errors are swallowed. */
    method Kill()
      modifies this`kills
      ensures kills == old(kills) + 1
    {
      kills := kills + 1;
    }
  }

  /** The calls of a plan that a sandbox made before the one that threw, and that one. */
  predicate Faulted(plan: seq<Op>, fault: Option<nat>)
  {
    fault.Some? && fault.value < |plan|
  }

  // ---------------------------------------------------------------- result mapping

  /** `success: exitCode === 0`, `exitCode: exitCode ?? 0`, `stdout: stdout || logs || ''`. */
  function MapRaw(raw: Raw): (r: ExecResult)
    ensures r.success <==> raw.exitCode == Some(0)
    ensures raw.exitCode.None? ==> !r.success && r.exitCode == 0
    ensures raw.exitCode.Some? ==> r.exitCode == raw.exitCode.value
    ensures r.stdout == (if raw.stdout != "" then raw.stdout else raw.logs)
    ensures r.stderr == raw.stderr
  {
    ExecResult(raw.exitCode == Some(0), if raw.exitCode.Some? then raw.exitCode.value else 0,
               if raw.stdout != "" then raw.stdout else raw.logs, raw.stderr)
  }

  // ---------------------------------------------------------------- /run

  /** The language text the route reports: `language` defaults to 'javascript'. */
  function LanguageText(language: Option<string>): string
  {
    match language
    case None => "javascript"
    case Some(l) => l
  }

  /** `String(language || '').toLowerCase()`. */
  function LangKey(language: Option<string>): string
  {
    Lower(LanguageText(language))
  }

  datatype Checked<T> = Valid(value: T) | Rejected(response: Response)

  /** The checks made before any sandbox is created: code first, then the language. */
  function ValidateRun(req: RunRequest): (v: Checked<Registry.Runner>)
    ensures v.Valid? <==> req.code != "" && Registry.Lookup(LangKey(req.language)).Some?
    ensures v.Valid? ==> Registry.Lookup(LangKey(req.language)) == Some(v.value)
    ensures req.code == "" ==> v == Rejected(BadRequest("Code is required", []))
    ensures req.code != "" && v.Rejected? ==>
      v.response == BadRequest("Unsupported language: " + LanguageText(req.language), Registry.Keys)
  {
    if req.code == "" then Rejected(BadRequest("Code is required", []))
    else
      match Registry.Lookup(LangKey(req.language))
      case None => Rejected(BadRequest("Unsupported language: " + LanguageText(req.language), Registry.Keys))
      case Some(r) => Valid(r)
  }

  /** The registry is consulted with the lower-cased language: `PYTHON` resolves as `python` does. */
  lemma LanguageCaseInsensitive(req: RunRequest, l: string)
    ensures ValidateRun(req.(language := Some(l))).Valid? <==> ValidateRun(req.(language := Some(Lower(l)))).Valid?
    ensures ValidateRun(req.(language := Some(l))).Valid? ==>
      ValidateRun(req.(language := Some(l))) == ValidateRun(req.(language := Some(Lower(l))))
  {
    LowerIdempotent(l);
    var v1, v2 := ValidateRun(req.(language := Some(l))), ValidateRun(req.(language := Some(Lower(l))));
    assert LangKey(Some(l)) == LangKey(Some(Lower(l)));
    if v1.Valid? {
      assert Registry.Lookup(LangKey(Some(l))) == Some(v1.value);
      assert v2.Valid?;
    }
  }

  /** A path starting with `/` is used as it is; any other is placed under /project. */
  function Target(path: string): string
  {
    if StartsWith(path, "/") then path else WorkDir + "/" + path
  }

  /** Resolved paths are absolute, resolving twice changes nothing, and a relative path stays its tail. */
  lemma TargetResolves(path: string)
    ensures StartsWith(Target(path), "/")
    ensures Target(Target(path)) == Target(path)
    ensures !StartsWith(path, "/") ==> Target(path) == "/project/" + path && EndsWith(Target(path), path)
  {
    if !StartsWith(path, "/") {
      assert Target(path)[..1] == "/";
      assert Target(path)[|Target(path)| - |path|..] == path;
    }
  }

  /** `/<html[\s>]/i` matches at position i. */
  predicate HtmlTagAt(code: string, i: nat)
    requires i + 6 <= |code|
  {
    Lower(code[i..i + 5]) == "<html" && (IsSpace(code[i + 5]) || code[i + 5] == '>')
  }

  /** `detectHtml(code)`. */
  predicate DetectHtml(code: string)
  {
    code != "" && exists i: nat :: i + 6 <= |code| && HtmlTagAt(code, i)
  }

  /** The sniffing ignores case: a document and its lower-cased copy are sniffed alike. */
  lemma DetectHtmlIgnoresCase(code: string)
    ensures DetectHtml(Lower(code)) <==> DetectHtml(code)
  {
    var low := Lower(code);
    forall i: nat | i + 6 <= |code|
      ensures HtmlTagAt(low, i) <==> HtmlTagAt(code, i)
    {
      assert low[i..i + 5] == Lower(code[i..i + 5]);
      LowerIdempotent(code[i..i + 5]);
      assert low[i + 5] == LowerChar(code[i + 5]);
      assert IsSpace(code[i + 5]) || code[i + 5] == '>' ==> low[i + 5] == code[i + 5];
      assert IsUpper(code[i + 5]) ==> !IsSpace(low[i + 5]) && low[i + 5] != '>';
    }
  }

  /** An `<html>` or `<HTML ` tag anywhere is detected. */
  lemma DetectHtmlFinds(before: string, tag: string, after: string)
    requires Lower(tag) == "<html" && |after| > 0 && (IsSpace(after[0]) || after[0] == '>')
    ensures DetectHtml(before + tag + after)
  {
    var code := before + tag + after;
    assert code[|before|..|before| + 5] == tag;
    assert code[|before| + 5] == after[0];
    assert HtmlTagAt(code, |before|);
  }

  /** HTML mode: JavaScript whose code sniffs as an HTML document. */
  predicate IsHtml(req: RunRequest)
  {
    LangKey(req.language) == "javascript" && DetectHtml(req.code)
  }

  /** The main file: the given path resolved, or /project/main.<ext>; /project/index.html in HTML mode. */
  function FinalPath(req: RunRequest, runner: Registry.Runner): string
  {
    if IsHtml(req) then WorkDir + "/index.html"
    else if req.path != "" then Target(req.path)
    else WorkDir + "/main." + runner.ext
  }

  /** The auxiliary file writes, in request order. */
  function AuxWrites(files: seq<AuxFile>): (ops: seq<Op>)
    ensures |ops| == |files|
    ensures forall i :: 0 <= i < |files| ==> ops[i] == Write(Target(files[i].path), files[i].content)
  {
    seq(|files|, i requires 0 <= i < |files| => Write(Target(files[i].path), files[i].content))
  }

  /** A file path that names the manifest: the name itself, `/name`, or anything ending in `/name`. */
  predicate NamesManifest(path: string, name: string)
  {
    path == name || path == "/" + name || EndsWith(path, "/" + name)
  }

  /** The `'/name'` test adds nothing to the `endsWith('/name')` test. */
  lemma NamesManifestIff(path: string, name: string)
    ensures NamesManifest(path, name) <==> path == name || EndsWith(path, "/" + name)
  {
    if path == "/" + name {
      assert path[|path| - |"/" + name|..] == path;
    }
  }

  predicate HasManifest(files: seq<AuxFile>, name: string)
  {
    exists i :: 0 <= i < |files| && NamesManifest(files[i].path, name)
  }

  const NpmInstall: string := "bash -lc \"cd /project && npm install\""
  const PipInstall: string := "bash -lc \"cd /project && pip install -r requirements.txt\""
  const StaticServer: string := "bash -lc \"cd /project && nohup python3 -m http.server 8000 >/dev/null 2>&1 &\""

  /** The dependency installs for the request's language family. */
  function InstallOps(key: string, files: seq<AuxFile>): seq<Op>
  {
    (if (key == "javascript" || key == "typescript") && HasManifest(files, "package.json") then [Exec(NpmInstall)] else [])
    + (if key == "python" && HasManifest(files, "requirements.txt") then [Exec(PipInstall)] else [])
  }

  /** npm install runs exactly for JavaScript/TypeScript with a package.json, pip exactly for Python with a requirements.txt, and nothing else is installed. */
  lemma InstallOpsIff(key: string, files: seq<AuxFile>)
    ensures Exec(NpmInstall) in InstallOps(key, files) <==> (key == "javascript" || key == "typescript") && HasManifest(files, "package.json")
    ensures Exec(PipInstall) in InstallOps(key, files) <==> key == "python" && HasManifest(files, "requirements.txt")
    ensures |InstallOps(key, files)| <= 1
    ensures forall op :: op in InstallOps(key, files) ==> op == Exec(NpmInstall) || op == Exec(PipInstall)
  {
    assert NpmInstall != PipInstall by {
      assert |NpmInstall| != |PipInstall|;
    }
  }

  /** The command that runs the main file, with the input piped in when there is any. */
  function FullCommand(input: string, cmd: string): string
  {
    if input == "" then cmd else Shell.PipeInput(input, cmd)
  }

  /** The command `/run` runs last: the static server in HTML mode, else the runner's command on the main file. */
  function RunCmd(req: RunRequest, runner: Registry.Runner): string
  {
    if IsHtml(req) then StaticServer else FullCommand(req.input, Registry.RunCommand(runner, FinalPath(req, runner)))
  }

  /** The calls before the last command: auxiliary files, the main file, dependency installs. */
  function Prep(req: RunRequest, runner: Registry.Runner): seq<Op>
  {
    AuxWrites(req.files) + [Write(FinalPath(req, runner), req.code)] + InstallOps(LangKey(req.language), req.files)
  }

  /** The last command, then the hostname lookup when the sandbox has the accessor. */
  function Tail(cmd: string, hostAccessor: bool): seq<Op>
  {
    [Exec(cmd)] + (if hostAccessor then [Hostname] else [])
  }

  /** Every sandbox call of a `/run` that nothing interrupts, in order. */
  function RunPlan(req: RunRequest, runner: Registry.Runner, hostAccessor: bool): seq<Op>
  {
    Prep(req, runner) + Tail(RunCmd(req, runner), hostAccessor)
  }

  /** The preview address: port 8000 of the host in HTML mode, the bare host otherwise, none without a host. */
  function Preview(html: bool, hostAccessor: bool, host: string): Option<string>
  {
    if hostAccessor && host != "" then Some(if html then "https://" + host + ":8000/" else "https://" + host) else None
  }

  /** The `/run` response when no call throws. */
  function RunReply(req: RunRequest, runner: Registry.Runner, reply: string -> Raw, hostAccessor: bool, host: string): Response
  {
    RunDone(if IsHtml(req) then ExecResult(true, 0, "", "") else MapRaw(reply(RunCmd(req, runner))),
            Preview(IsHtml(req), hostAccessor, host))
  }

  /** The content the last write to `path` in `log` left there. */
  function LastWrite(log: seq<Op>, path: string): Option<string>
  {
    if log == [] then None
    else
      var op := log[|log| - 1];
      if op.Write? && op.path == path then Some(op.content) else LastWrite(log[..|log| - 1], path)
  }

  lemma {:induction false} LastWriteAppend(a: seq<Op>, b: seq<Op>, path: string)
    ensures LastWrite(a + b, path) == if LastWrite(b, path).Some? then LastWrite(b, path) else LastWrite(a, path)
  {
    if b != [] {
      assert (a + b)[..|a + b| - 1] == a + b[..|b| - 1];
      LastWriteAppend(a, b[..|b| - 1], path);
    } else {
      assert a + b == a;
    }
  }

  lemma {:induction false} LastWriteNoWrites(log: seq<Op>, path: string)
    requires forall i :: 0 <= i < |log| ==> !log[i].Write?
    ensures LastWrite(log, path) == None
  {
    if log != [] {
      LastWriteNoWrites(log[..|log| - 1], path);
    }
  }

  /**
   * The main file is written after every auxiliary file and nothing writes
   * after it: it holds the code even when an auxiliary file has its path,
   * and every other path holds what its last auxiliary write put there.
   */
  lemma MainFileWins(req: RunRequest, runner: Registry.Runner, hostAccessor: bool, path: string)
    ensures LastWrite(RunPlan(req, runner, hostAccessor), FinalPath(req, runner)) == Some(req.code)
    ensures path != FinalPath(req, runner) ==>
      LastWrite(RunPlan(req, runner, hostAccessor), path) == LastWrite(AuxWrites(req.files), path)
  {
    var main := [Write(FinalPath(req, runner), req.code)];
    var installs := InstallOps(LangKey(req.language), req.files);
    var rest := installs + Tail(RunCmd(req, runner), hostAccessor);
    InstallOpsIff(LangKey(req.language), req.files);
    assert forall i :: 0 <= i < |installs| ==> installs[i] in installs;
    assert RunPlan(req, runner, hostAccessor) == (AuxWrites(req.files) + main) + rest;
    LastWriteNoWrites(rest, FinalPath(req, runner));
    LastWriteNoWrites(rest, path);
    LastWriteAppend(AuxWrites(req.files) + main, rest, FinalPath(req, runner));
    LastWriteAppend(AuxWrites(req.files) + main, rest, path);
    LastWriteAppend(AuxWrites(req.files), main, path);
    assert main[..0] == [];
  }

  /**
   * HTML mode writes /project/index.html whatever the path, starts the static
   * server instead of the runner, and answers exit code 0 with empty output.
   */
  lemma HtmlMode(req: RunRequest, runner: Registry.Runner, reply: string -> Raw, hostAccessor: bool, host: string)
    requires IsHtml(req)
    ensures FinalPath(req, runner) == "/project/index.html"
    ensures forall op :: op in RunPlan(req, runner, hostAccessor) && op.Exec? ==>
      op.cmd == NpmInstall || op.cmd == StaticServer
    ensures RunReply(req, runner, reply, hostAccessor, host).result == ExecResult(true, 0, "", "")
    ensures RunReply(req, runner, reply, hostAccessor, host).previewUrl ==
      if hostAccessor && host != "" then Some("https://" + host + ":8000/") else None
  {
    InstallOpsIff(LangKey(req.language), req.files);
  }

  /** Outside HTML mode the runner gets the resolved main path, and without input its command runs exactly as built. */
  lemma RunsRunnerCommand(req: RunRequest, runner: Registry.Runner, hostAccessor: bool)
    requires !IsHtml(req)
    ensures req.path != "" ==> FinalPath(req, runner) == Target(req.path)
    ensures req.path == "" ==> FinalPath(req, runner) == "/project/main." + runner.ext
    ensures req.input == "" ==> RunCmd(req, runner) == Registry.RunCommand(runner, FinalPath(req, runner))
    ensures req.input != "" ==> RunCmd(req, runner) == Shell.PipeInput(req.input, Registry.RunCommand(runner, FinalPath(req, runner)))
  {
  }

  /**
   * How a run with a created sandbox ends, given the calls before the last
   * command: the sandbox log is the whole sequence of calls, cut short at the
   * call that threw (answered 500), or complete with the mapped reply.
   */
  predicate Ended(log: seq<Op>, resp: Response, prep: seq<Op>, cmd: string, html: bool,
                  fault: Option<nat>, reply: string -> Raw, hostAccessor: bool, host: string)
  {
    var plan := prep + Tail(cmd, hostAccessor);
    if Faulted(plan, fault) then log == plan[..fault.value + 1] && resp == ServerError
    else log == plan && resp == RunDone(if html then ExecResult(true, 0, "", "") else MapRaw(reply(cmd)), Preview(html, hostAccessor, host))
  }

  /** How a `/run` with a created sandbox ends. */
  predicate RunEnded(log: seq<Op>, resp: Response, req: RunRequest, runner: Registry.Runner,
                     fault: Option<nat>, reply: string -> Raw, hostAccessor: bool, host: string)
  {
    Ended(log, resp, Prep(req, runner), RunCmd(req, runner), IsHtml(req), fault, reply, hostAccessor, host)
  }

  /** The log of a `/run` is its plan, cut short at the call that threw (answered 500), or else complete and answered with the reply. */
  lemma RunEndedMeans(log: seq<Op>, resp: Response, req: RunRequest, runner: Registry.Runner,
                      fault: Option<nat>, reply: string -> Raw, hostAccessor: bool, host: string)
    requires RunEnded(log, resp, req, runner, fault, reply, hostAccessor, host)
    ensures Faulted(RunPlan(req, runner, hostAccessor), fault) ==>
      log == RunPlan(req, runner, hostAccessor)[..fault.value + 1] && resp == ServerError && Status(resp) == 500
    ensures !Faulted(RunPlan(req, runner, hostAccessor), fault) ==>
      log == RunPlan(req, runner, hostAccessor) && resp == RunReply(req, runner, reply, hostAccessor, host) && Status(resp) == 200
  {
  }

  /**
   * How a run of `ops` that started on `log0` ends: cut short at the call that
   * threw when that call is one of them, else complete.
   */
  predicate Performed(log0: seq<Op>, ops: seq<Op>, fault: Option<nat>, log: seq<Op>, ok: bool)
  {
    if fault.Some? && |log0| <= fault.value < |log0| + |ops| then !ok && log == log0 + ops[..fault.value - |log0| + 1]
    else ok && log == log0 + ops
  }

  /** Makes the writes and commands of `ops` in order, ignoring command results, and stops at the first call that throws. */
  method Perform(sb: Sandbox, ops: seq<Op>) returns (ok: bool)
    requires sb.kills == 0
    requires forall op :: op in ops ==> !op.Hostname?
    modifies sb`log
    ensures Performed(old(sb.log), ops, sb.fault, sb.log, ok)
  {
    ok := true;
    var i := 0;
    while i < |ops|
      invariant 0 <= i <= |ops|
      invariant sb.log == old(sb.log) + ops[..i]
      invariant sb.fault.None? || sb.fault.value < |old(sb.log)| || sb.fault.value >= |sb.log|
    {
      assert ops[i] in ops;
      match ops[i] {
        case Write(path, content) =>
          ok := sb.WriteFile(path, content);
        case Exec(cmd) =>
          var res := sb.RunCommand(cmd);
          ok := res.Some?;
      }
      assert sb.log == old(sb.log) + ops[..i + 1];
      if !ok {
        return;
      }
      i := i + 1;
    }
    assert ops[..i] == ops;
  }

  lemma PrepMakesNoHostnameCall(req: RunRequest, runner: Registry.Runner)
    ensures forall op :: op in Prep(req, runner) ==> !op.Hostname?
  {
    InstallOpsIff(LangKey(req.language), req.files);
  }

  /** Makes the calls of `prep`, runs `cmd`, then asks for the hostname when there is an accessor. */
  method Drive(sb: Sandbox, prep: seq<Op>, cmd: string, html: bool) returns (resp: Response)
    requires sb.log == [] && sb.kills == 0
    requires forall op :: op in prep ==> !op.Hostname?
    modifies sb`log
    ensures Ended(sb.log, resp, prep, cmd, html, sb.fault, sb.reply, sb.hostAccessor, sb.host)
  {
    ghost var plan := prep + Tail(cmd, sb.hostAccessor);
    var ok := Perform(sb, prep);
    if !ok {
      assert plan[..sb.fault.value + 1] == prep[..sb.fault.value + 1];
      return ServerError;
    }
    var res := sb.RunCommand(cmd);
    assert sb.log == plan[..|prep| + 1];
    if res.None? {
      return ServerError;
    }
    var previewUrl: Option<string> := None;
    if sb.hostAccessor {
      var host := sb.GetHostname();
      assert sb.log == plan[..|prep| + 2];
      if host.None? {
        return ServerError;
      }
      if host.value != "" {
        previewUrl := Some(if html then "https://" + host.value + ":8000/" else "https://" + host.value);
      }
    }
    assert sb.log == plan;
    if html {
      resp := RunDone(ExecResult(true, 0, "", ""), previewUrl);
    } else {
      resp := RunDone(MapRaw(res.value), previewUrl);
    }
  }

  /** `/run` after validation, between `Sandbox.create` and the `finally`. */
  method RunSteps(sb: Sandbox, req: RunRequest, runner: Registry.Runner) returns (resp: Response)
    requires sb.log == [] && sb.kills == 0
    modifies sb`log
    ensures RunEnded(sb.log, resp, req, runner, sb.fault, sb.reply, sb.hostAccessor, sb.host)
  {
    PrepMakesNoHostnameCall(req, runner);
    resp := Drive(sb, Prep(req, runner), RunCmd(req, runner), IsHtml(req));
  }

  /**
   * `POST /run`. An invalid request is answered 400 and no sandbox is
   * created; a created sandbox is killed exactly once, and its log is the
   * plan, cut short at the call that threw.
   */
  method HandleRun(req: RunRequest, p: Platform) returns (resp: Response, sb: Sandbox?)
    ensures ValidateRun(req).Rejected? ==> sb == null && resp == ValidateRun(req).response && Status(resp) == 400
    ensures ValidateRun(req).Valid? && p.createFails ==> sb == null && resp == ServerError
    ensures ValidateRun(req).Valid? && !p.createFails ==>
      sb != null && fresh(sb) && sb.kills == 1 &&
      RunEnded(sb.log, resp, req, ValidateRun(req).value, p.fault, p.reply, p.hostAccessor, p.host)
  {
    var v := ValidateRun(req);
    if v.Rejected? {
      return v.response, null;
    }
    if p.createFails {
      return ServerError, null;
    }
    sb := new Sandbox(p);
    resp := RunSteps(sb, req, v.value);
    sb.Kill();
  }

  // ---------------------------------------------------------------- /command

  function Cwd(req: CommandRequest): string
  {
    match req.cwd
    case None => WorkDir
    case Some(c) => c
  }

  function CommandPlan(req: CommandRequest): seq<Op>
  {
    [Exec("bash -lc \"mkdir -p " + Cwd(req) + "\""), Exec("bash -lc \"cd " + Cwd(req) + " && " + req.command + "\"")]
  }

  /**
   * `POST /command`. An empty command is answered 400 without a sandbox; a
   * created sandbox is killed exactly once, after making the directory and
   * running the command in it.
   */
  method HandleCommand(req: CommandRequest, p: Platform) returns (resp: Response, sb: Sandbox?)
    ensures req.command == "" ==> sb == null && resp == BadRequest("Command is required", [])
    ensures req.command != "" && p.createFails ==> sb == null && resp == ServerError
    ensures req.command != "" && !p.createFails ==>
      sb != null && fresh(sb) && sb.kills == 1 &&
      var plan := CommandPlan(req);
      if Faulted(plan, p.fault) then sb.log == plan[..p.fault.value + 1] && resp == ServerError
      else sb.log == plan && resp == CommandDone(MapRaw(p.reply(plan[1].cmd)), Cwd(req))
  {
    if req.command == "" {
      return BadRequest("Command is required", []), null;
    }
    if p.createFails {
      return ServerError, null;
    }
    sb := new Sandbox(p);
    ghost var plan := CommandPlan(req);
    var cwd := Cwd(req);
    var made := sb.RunCommand("bash -lc \"mkdir -p " + cwd + "\"");
    if made.None? {
      resp := ServerError;
    } else {
      var res := sb.RunCommand("bash -lc \"cd " + cwd + " && " + req.command + "\"");
      assert sb.log == plan;
      resp := if res.None? then ServerError else CommandDone(MapRaw(res.value), cwd);
    }
    sb.Kill();
  }

  // ---------------------------------------------------------------- /install

  const Managers: seq<string> := ["npm", "pip", "apt", "cargo"]

  /** The install text of each package manager, before the package list. */
  function ManagerPrefix(manager: string): Option<string>
  {
    if manager == "npm" then Some("npm install ")
    else if manager == "pip" then Some("pip install ")
    else if manager == "apt" then Some("apt-get update && apt-get install -y ")
    else if manager == "cargo" then Some("cargo install ")
    else None
  }

  function ManagerText(req: InstallRequest): string
  {
    match req.packageManager
    case None => "npm"
    case Some(m) => m
  }

  /** The checks made before any sandbox is created: the package list first, then the manager. */
  function ValidateInstall(req: InstallRequest): (v: Checked<string>)
    ensures v.Valid? <==> req.packages.Some? && req.packages.value != [] && ManagerText(req) in Managers
    ensures (req.packages.None? || req.packages.value == []) ==> v == Rejected(BadRequest("Packages array is required", []))
    ensures v.Valid? ==> exists prefix :: ManagerPrefix(ManagerText(req)) == Some(prefix) && v.value == prefix + Join(req.packages.value, " ")
  {
    if req.packages.None? || req.packages.value == [] then Rejected(BadRequest("Packages array is required", []))
    else
      match ManagerPrefix(ManagerText(req))
      case None => Rejected(BadRequest("Unsupported package manager: " + ManagerText(req), Managers))
      case Some(prefix) => Valid(prefix + Join(req.packages.value, " "))
  }

  /** The package list can be read back off the install command when no package holds a space. */
  lemma InstallCommandListsPackages(req: InstallRequest)
    requires ValidateInstall(req).Valid?
    requires forall i :: 0 <= i < |req.packages.value| ==> ' ' !in req.packages.value[i]
    ensures ManagerPrefix(ManagerText(req)).Some?
    ensures StartsWith(ValidateInstall(req).value, ManagerPrefix(ManagerText(req)).value)
    ensures Split(ValidateInstall(req).value[|ManagerPrefix(ManagerText(req)).value|..], ' ') == req.packages.value
  {
    var prefix := ManagerPrefix(ManagerText(req)).value;
    var cmd := ValidateInstall(req).value;
    assert cmd[|prefix|..] == Join(req.packages.value, [' ']);
    SplitJoin(req.packages.value, ' ');
  }

  /**
   * `POST /install`. A missing, non-array or empty package list, or an
   * unknown manager, is answered 400 without a sandbox; otherwise one
   * command runs and the sandbox is killed exactly once.
   */
  method HandleInstall(req: InstallRequest, p: Platform) returns (resp: Response, sb: Sandbox?)
    ensures ValidateInstall(req).Rejected? ==> sb == null && resp == ValidateInstall(req).response && Status(resp) == 400
    ensures ValidateInstall(req).Valid? && p.createFails ==> sb == null && resp == ServerError
    ensures ValidateInstall(req).Valid? && !p.createFails ==>
      sb != null && fresh(sb) && sb.kills == 1 &&
      var cmd := "bash -lc \"" + ValidateInstall(req).value + "\"";
      sb.log == [Exec(cmd)] &&
      resp == if p.fault == Some(0) then ServerError else InstallDone(MapRaw(p.reply(cmd)), req.packages.value)
  {
    var v := ValidateInstall(req);
    if v.Rejected? {
      return v.response, null;
    }
    if p.createFails {
      return ServerError, null;
    }
    sb := new Sandbox(p);
    var res := sb.RunCommand("bash -lc \"" + v.value + "\"");
    resp := if res.None? then ServerError else InstallDone(MapRaw(res.value), req.packages.value);
    sb.Kill();
  }
}
