/**
 * How the program obtains superuser rights for `dd`: no prefix when it
 * already runs as root, otherwise the first of sudo, doas and pkexec that
 * is found on the PATH, and an error when none is.
 */
module Privilege {
  import opened Wrappers

  /** The facts the privilege probes read: the effective user id
      (`os.geteuid()`) and the names `shutil.which` finds on the PATH. */
  datatype Env = Env(euid: int, onPath: set<string>)

  datatype Escalator = Sudo | Doas | Pkexec

  /** The command name each escalator is invoked by. */
  function Tool(e: Escalator): string
  {
    match e
    case Sudo => "sudo"
    case Doas => "doas"
    case Pkexec => "pkexec"
  }

  /** `is_root`: the effective user id is the superuser's. */
  function IsRoot(env: Env): (root: bool)
    ensures root <==> env.euid == 0
  {
    env.euid == 0
  }

  /** `has_sudo`, `has_doas`, `has_pkexec`: `shutil.which` finds the
      escalator's command. */
  function HasSudo(env: Env): (found: bool)
    ensures found <==> Tool(Sudo) in env.onPath
  {
    "sudo" in env.onPath
  }

  function HasDoas(env: Env): (found: bool)
    ensures found <==> Tool(Doas) in env.onPath
  {
    "doas" in env.onPath
  }

  function HasPkexec(env: Env): (found: bool)
    ensures found <==> Tool(Pkexec) in env.onPath
  {
    "pkexec" in env.onPath
  }

  /** The order in which the escalators are tried. */
  const Priority: seq<Escalator> := [Sudo, Doas, Pkexec]

  datatype Decision = AlreadyPrivileged | Escalate(via: Escalator) | Unavailable

  /** The decision taken by the `if not is_root(): if has_sudo() … elif …`
      chain of `start_dd`. */
  function Resolve(env: Env): (d: Decision)
    ensures d == AlreadyPrivileged <==> IsRoot(env)
    ensures d.Escalate? ==> Tool(d.via) in env.onPath
    ensures d == Unavailable <==> !IsRoot(env) && forall e: Escalator :: Tool(e) !in env.onPath
  {
    if IsRoot(env) then AlreadyPrivileged
    else if HasSudo(env) then Escalate(Sudo)
    else if HasDoas(env) then Escalate(Doas)
    else if HasPkexec(env) then Escalate(Pkexec)
    else Unavailable
  }

  /** Reference definition: the first of `candidates` whose tool is on the PATH. */
  function FirstAvailable(candidates: seq<Escalator>, onPath: set<string>): (r: Option<Escalator>)
    ensures r.Some? ==> r.value in candidates && Tool(r.value) in onPath
    ensures r.Some? ==> exists k :: 0 <= k < |candidates| && candidates[k] == r.value
                                    && forall j :: 0 <= j < k ==> Tool(candidates[j]) !in onPath
    ensures r.None? <==> forall k :: 0 <= k < |candidates| ==> Tool(candidates[k]) !in onPath
  {
    if candidates == [] then None
    else if Tool(candidates[0]) in onPath then Some(candidates[0])
    else FirstAvailable(candidates[1..], onPath)
  }

  /** Without root, the escalator chosen is the first available one in the
      fixed priority order, and Unavailable means none is. */
  lemma ResolveFollowsPriority(env: Env)
    requires !IsRoot(env)
    ensures FirstAvailable(Priority, env.onPath)
            == if Resolve(env).Escalate? then Some(Resolve(env).via) else None
  {
    var p := env.onPath;
    assert Priority[1..] == [Doas, Pkexec] && Priority[1..][1..] == [Pkexec];
    if !HasSudo(env) && !HasDoas(env) {
      assert FirstAvailable(Priority, p) == FirstAvailable([Pkexec], p);
    }
  }

  /** The tokens put in front of the `dd` command: none as root, one
      escalator name otherwise. */
  function Prefix(d: Decision): (p: seq<string>)
    requires !d.Unavailable?
    ensures d == AlreadyPrivileged <==> p == []
    ensures d.Escalate? ==> |p| == 1 && p[0] in {"sudo", "doas", "pkexec"}
    ensures d.Escalate? ==> p == [Tool(d.via)]
  {
    match d
    case AlreadyPrivileged => []
    case Escalate(e) => [Tool(e)]
  }
}
