/**
 * `start_dd`: the chain of guards run when the operator presses Start, and
 * the `dd` argument list built once they have all passed. Every fact the
 * program learns from the system (does the image exist, does the exclusive
 * open succeed, what the operator answers, who we run as) is an input.
 */
module Commit {
  import opened Wrappers
  import opened Text
  import opened Privilege
  import opened Confirmation

  /** The five entries of the block-size combo box (not editable). */
  datatype BlockSize = K64 | K256 | K512 | M1 | M2

  function BlockSizeText(b: BlockSize): string
  {
    match b
    case K64 => "64k"
    case K256 => "256k"
    case K512 => "512k"
    case M1 => "1M"
    case M2 => "2M"
  }

  /** The state of the form when Start is pressed: the raw texts of the
      input field and the device combo, the block size and the two check
      boxes (both checked by default). */
  datatype Form = Form(inputText: string, deviceText: string, blockSize: BlockSize,
                       sync: bool, progress: bool)

  const EPERM: int := 1
  const EACCES: int := 13

  /** What `os.open(ofile, os.O_WRONLY | os.O_EXCL)` did: opened (and the
      descriptor was closed again), or raised OSError with this errno. */
  datatype OpenResult = Opened | Raised(errno: int)

  /** Python raises PermissionError, the subclass of OSError, for exactly
      these two error numbers. */
  predicate IsPermissionError(errno: int)
  {
    errno == EPERM || errno == EACCES
  }

  /** Everything the system answers during `start_dd`. */
  datatype Host = Host(
    existingPaths: set<string>,   // paths for which os.path.exists is true
    exclusiveOpen: OpenResult,    // the exclusive open of the target
    lsblkOutput: string,          // `lsblk <device>`
    smartctlOutput: string,       // `smartctl -i <device>`, when on the PATH
    interaction: Interaction,     // how the operator ended the dialog
    env: Env)                     // euid and the tools on the PATH

  datatype Outcome =
    | InvalidInput
    | PermissionError
    | DeviceBusy
    | Declined
    | NoPrivilege
    | Launch(cmd: seq<string>)

  /** What `start_dd` did with the outside world, in order. */
  datatype Step =
    | CheckedInput(path: string)
    | OpenedExclusive(device: string)
    | AskedConfirmation(message: string)
    | CheckedPrivilege
    | StartedWorker(cmd: seq<string>)

  function InputPath(form: Form): string { Strip(form.inputText) }

  function DevicePath(form: Form): string { Strip(form.deviceText) }

  /** The unprefixed `dd` command of lines 250-255: four fixed tokens and
      one more for each optional flag chosen (see DdArgsShape). */
  function DdArgs(infile: string, ofile: string, bs: BlockSize, sync: bool, progress: bool): (a: seq<string>)
    ensures |a| == 4 + (if sync then 1 else 0) + (if progress then 1 else 0)
    ensures a[..4] == ["dd", "if=" + infile, "of=" + ofile, "bs=" + BlockSizeText(bs)]
  {
    var base := ["dd", "if=" + infile, "of=" + ofile, "bs=" + BlockSizeText(bs)];
    var withSync := if sync then base + ["oflag=sync"] else base;
    if progress then withSync + ["status=progress"] else withSync
  }

  /** The dialog `start_dd` shows for this form and host. */
  function Disclosure(form: Form, host: Host): Verdict
  {
    ConfirmDestructiveWrite(DevicePath(form), InputPath(form), host.lsblkOutput,
                            host.env.onPath, host.smartctlOutput, host.interaction)
  }

  /** The steps of a run that ends with outcome `o`: each guard that ran,
      in the fixed order of the program, up to the one that stopped it. */
  function Trace(form: Form, host: Host, o: Outcome): seq<Step>
  {
    var checked := [CheckedInput(InputPath(form))];
    var afterOpen := checked + [OpenedExclusive(DevicePath(form))];
    var asked := afterOpen + [AskedConfirmation(Disclosure(form, host).message)];
    var privileged := asked + [CheckedPrivilege];
    match o
    case InvalidInput => checked
    case PermissionError => afterOpen
    case DeviceBusy => afterOpen
    case Declined => asked
    case NoPrivilege => privileged
    case Launch(cmd) => privileged + [StartedWorker(cmd)]
  }

  /** Lines 250-255: the argument list, built token by token. */
  method BuildCommand(infile: string, ofile: string, bs: BlockSize, sync: bool, progress: bool)
    returns (cmd: seq<string>)
    ensures cmd == DdArgs(infile, ofile, bs, sync, progress)
  {
    cmd := ["dd", "if=" + infile, "of=" + ofile, "bs=" + BlockSizeText(bs)];
    if sync {
      cmd := cmd + ["oflag=sync"];
    }
    if progress {
      cmd := cmd + ["status=progress"];
    }
  }

  /** Lines 257-266: put the escalator in front of the command (an insert at
      index 0), or report that none is available. */
  method AddPrivilegePrefix(env: Env, cmd: seq<string>) returns (launchable: bool, full: seq<string>)
    ensures launchable <==> Resolve(env) != Unavailable
    ensures launchable ==> full == Prefix(Resolve(env)) + cmd
  {
    full := cmd;
    if !IsRoot(env) {
      if HasSudo(env) {
        full := ["sudo"] + full;
      } else if HasDoas(env) {
        full := ["doas"] + full;
      } else if HasPkexec(env) {
        full := ["pkexec"] + full;
      } else {
        return false, full;
      }
    }
    launchable := true;
  }

  /** `start_dd`. The guards run in a fixed order and each failure stops the
      run there; a worker is started only when all of them passed, and then
      with the privilege prefix followed by the `dd` command. */
  method StartDd(form: Form, host: Host) returns (o: Outcome, steps: seq<Step>)
    ensures o == InvalidInput <==> InputPath(form) !in host.existingPaths
    ensures o == PermissionError <==>
              InputPath(form) in host.existingPaths
              && host.exclusiveOpen.Raised? && IsPermissionError(host.exclusiveOpen.errno)
    ensures o == DeviceBusy <==>
              InputPath(form) in host.existingPaths
              && host.exclusiveOpen.Raised? && !IsPermissionError(host.exclusiveOpen.errno)
    ensures o == Declined <==>
              InputPath(form) in host.existingPaths && host.exclusiveOpen == Opened
              && host.interaction != Clicked(Ok)
    ensures o == NoPrivilege <==>
              InputPath(form) in host.existingPaths && host.exclusiveOpen == Opened
              && host.interaction == Clicked(Ok) && Resolve(host.env) == Unavailable
    ensures o.Launch? ==>
              o.cmd == Prefix(Resolve(host.env))
                       + DdArgs(InputPath(form), DevicePath(form), form.blockSize, form.sync, form.progress)
    ensures steps == Trace(form, host, o)
  {
    var infile := InputPath(form);
    var ofile := DevicePath(form);

    steps := [CheckedInput(infile)];
    if infile !in host.existingPaths {
      return InvalidInput, steps;
    }

    steps := steps + [OpenedExclusive(ofile)];
    match host.exclusiveOpen {
      case Raised(errno) =>
        if IsPermissionError(errno) {
          return PermissionError, steps;
        }
        return DeviceBusy, steps;
      case Opened =>
    }

    var verdict := ConfirmDestructiveWrite(ofile, infile, host.lsblkOutput, host.env.onPath,
                                           host.smartctlOutput, host.interaction);
    steps := steps + [AskedConfirmation(verdict.message)];
    if !verdict.accepted {
      return Declined, steps;
    }

    var cmd := BuildCommand(infile, ofile, form.blockSize, form.sync, form.progress);

    steps := steps + [CheckedPrivilege];
    var launchable;
    launchable, cmd := AddPrivilegePrefix(host.env, cmd);
    if !launchable {
      return NoPrivilege, steps;
    }

    steps := steps + [StartedWorker(cmd)];
    o := Launch(cmd);
  }

  /** The `dd` command is four fixed tokens (program, input, output, block
      size), each path a token of its own, followed by exactly the chosen
      optional flags, sync before progress. */
  lemma DdArgsShape(infile: string, ofile: string, bs: BlockSize, sync: bool, progress: bool)
    ensures var a := DdArgs(infile, ofile, bs, sync, progress);
            && a[..4] == ["dd", "if=" + infile, "of=" + ofile, "bs=" + BlockSizeText(bs)]
            && |a| == 4 + (if sync then 1 else 0) + (if progress then 1 else 0)
            && ("oflag=sync" in a <==> sync)
            && ("status=progress" in a <==> progress)
            && (sync ==> a[4] == "oflag=sync")
            && (progress ==> a[|a| - 1] == "status=progress")
  {
    var base := ["dd", "if=" + infile, "of=" + ofile, "bs=" + BlockSizeText(bs)];
    assert ("if=" + infile)[0] == 'i' && ("of=" + ofile)[2] == '=';
    assert ("bs=" + BlockSizeText(bs))[0] == 'b';
    assert "oflag=sync" !in base;
    assert "status=progress" !in base;
  }

  /** A launched command is the `dd` command, unchanged, behind at most one
      token: nothing as root, else the first of sudo, doas, pkexec present. */
  lemma LaunchPrefix(env: Env, args: seq<string>)
    requires Resolve(env) != Unavailable
    ensures var cmd := Prefix(Resolve(env)) + args;
            && (IsRoot(env) ==> cmd == args)
            && (!IsRoot(env) ==>
                  |cmd| == |args| + 1 && cmd[1..] == args
                  && cmd[0] in env.onPath
                  && (cmd[0] == "doas" ==> "sudo" !in env.onPath)
                  && (cmd[0] == "pkexec" ==> "sudo" !in env.onPath && "doas" !in env.onPath))
  {
    var cmd := Prefix(Resolve(env)) + args;
    if !IsRoot(env) {
      assert cmd == [Tool(Resolve(env).via)] + args;
      assert cmd[1..] == args;
    }
  }

  /** The `critical` dialog each refusal shows: a title and a text. */
  datatype Dialog = Dialog(title: string, text: string)

  /** The error dialogs of `start_dd`. A declined confirmation and a launch
      show none, and a permission problem is reported apart from a busy
      device, since the remedies differ. */
  function ErrorDialog(o: Outcome): (r: Option<Dialog>)
    ensures r.None? <==> o == Declined || o.Launch?
    ensures o == PermissionError || o == DeviceBusy ==> (r.value.title == "Device Busy" <==> o == DeviceBusy)
  {
    match o
    case InvalidInput => Some(Dialog("Error", "Invalid input file."))
    case PermissionError => Some(Dialog("Permission Error", "Requires root privileges."))
    case DeviceBusy => Some(Dialog("Device Busy", "Target device is mounted or in use."))
    case NoPrivilege => Some(Dialog("Privileges", "Run as root or install sudo/doas."))
    case Declined => None
    case Launch(_) => None
  }
}
