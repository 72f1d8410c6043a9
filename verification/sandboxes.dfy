/** The isolation backends as seen by the pipelines: pkg/sandbox/sandbox.go. */
module Sandboxes {
  import opened Models
  import opened Requests

  /** Why a pipeline panics: a backend raised a value, or the pipeline itself
      dereferenced a nil pointer. */
  datatype Cause = Raised(value: string) | NilPointer

  /** A panic, with the stack text the worker's recovery prints. */
  datatype Panic = Panic(cause: Cause, stack: string)

  /** A call into a backend returns, returns an error, or panics. */
  datatype Reply<+T> = Returns(value: T) | Errs(message: string) | Panics(panic: Panic)

  /** Compile may hand back a (possibly nil) result together with an error. */
  datatype CompileReply =
    | Compiled(result: Option<Compilation>)
    | CompileErrs(message: string, partial: Option<Compilation>)
    | CompilePanics(panic: Panic)

  /** The part of a request that Prepare and Compile read: not the test case. */
  datatype Workspace = Workspace(id: string, language: string, code: string, limits: Limits, sandbox: string)

  function WorkspaceOf(r: Request): Workspace {
    Workspace(r.id, r.language, r.code, r.limits, r.sandbox)
  }

  /** What Prepare hands back without an error; the interface does not rule out nil. */
  datatype Context = Ready | Nil

  /** An arbitrary backend; nothing keeps it from returning nil without an error.
      `execute` also receives the number of earlier Execute calls, so successive
      runs may behave differently; `trace` is the stack text of a nil dereference. */
  datatype Sandbox = Sandbox(
    prepare: Workspace -> Reply<Context>,
    compile: Workspace -> CompileReply,
    execute: (nat, Request) -> Reply<Option<Execution>>,
    trace: string)

  function NilPanic(sb: Sandbox): Panic { Panic(NilPointer, sb.trace) }

  /** The backend as the worker's test loop meets it: the loop writes each test into
      the context first, so a nil context panics in place of every Execute. */
  function InContext(sb: Sandbox, context: Context): Sandbox {
    if context.Nil? then sb.(execute := (i: nat, r: Request) => Panics(NilPanic(sb))) else sb
  }

  datatype Backend = Native | Docker | DevProcess

  /** A host: its runtime.GOOS, which backends are available and how each behaves. */
  datatype Host = Host(
    os: string,
    nativeAvailable: bool,
    dockerAvailable: bool,
    freshId: string,
    backend: Backend -> Sandbox)

  function AutoSandbox(host: Host): Backend {
    if host.os == "linux" && host.nativeAvailable then Native
    else if host.dockerAvailable then Docker
    else DevProcess
  }

  function SelectSandbox(host: Host, preference: string): Option<Backend> {
    match preference
    case "native" => if host.nativeAvailable then Some(Native) else None
    case "cgroup" => if host.nativeAvailable then Some(Native) else None
    case "cgroupv2" => if host.nativeAvailable then Some(Native) else None
    case "docker" => if host.dockerAvailable then Some(Docker) else None
    case "container" => if host.dockerAvailable then Some(Docker) else None
    case "dev_process" => Some(DevProcess)
    case "dev" => Some(DevProcess)
    case "process" => Some(DevProcess)
    case "auto" => Some(AutoSandbox(host))
    case "" => Some(AutoSandbox(host))
    case _ => None
  }

  function NativeText(host: Host): string {
    "native cgroup v2 sandbox is not available on this host (" + host.os + ", root required)"
  }

  const DOCKER_TEXT := "docker sandbox is not available or Docker daemon is unreachable"

  /** The error of SelectSandbox when it finds no backend. */
  function SelectText(host: Host, preference: string): string {
    match preference
    case "native" => NativeText(host)
    case "cgroup" => NativeText(host)
    case "cgroupv2" => NativeText(host)
    case "docker" => DOCKER_TEXT
    case "container" => DOCKER_TEXT
    case _ => "unknown sandbox backend preference: '" + preference + "'"
  }

  /** Selection looks at availability only, not at behaviour. */
  lemma SelectionIgnoresBehaviour(g: Host, h: Host, preference: string)
    requires g.os == h.os && g.nativeAvailable == h.nativeAvailable && g.dockerAvailable == h.dockerAvailable
    ensures SelectSandbox(g, preference) == SelectSandbox(h, preference)
  {
  }

  const NATIVE := ["native", "cgroup", "cgroupv2"]
  const DOCKER := ["docker", "container"]
  const DEV := ["dev_process", "dev", "process"]
  const AUTO := ["auto", ""]

  /** Which backend a preference selects on a host, exactly. */
  lemma SelectionExactly(host: Host, preference: string)
    ensures var native := host.os == "linux" && host.nativeAvailable;
            && (SelectSandbox(host, preference) == Some(Native) <==>
                  (preference in NATIVE && host.nativeAvailable) || (preference in AUTO && native))
            && (SelectSandbox(host, preference) == Some(Docker) <==>
                  (preference in DOCKER && host.dockerAvailable)
                  || (preference in AUTO && !native && host.dockerAvailable))
            && (SelectSandbox(host, preference) == Some(DevProcess) <==>
                  preference in DEV || (preference in AUTO && !native && !host.dockerAvailable))
  {
  }

  /** The error of a failed selection names its reason. */
  lemma SelectTextSays(host: Host, preference: string)
    requires SelectSandbox(host, preference).None?
    ensures preference in NATIVE ==>
              SelectText(host, preference)
              == "native cgroup v2 sandbox is not available on this host (" + host.os + ", root required)"
    ensures preference in DOCKER ==>
              SelectText(host, preference) == "docker sandbox is not available or Docker daemon is unreachable"
    ensures preference !in NATIVE && preference !in DOCKER ==>
              SelectText(host, preference) == "unknown sandbox backend preference: '" + preference + "'"
  {
  }
}
