# ddwrap: a Dafny model of the write decisions

ddwrap is a small PyQt front end for `dd`. It copies a disk image onto a
whole disk (`/dev/sdX`). This project models what the program decides on
its own, before and during a write:

- which devices it offers;
- which of Start and Unmount it enables;
- what the confirmation dialog discloses and when it counts as a yes;
- the chain of guards behind the Start button;
- the `dd` argument list and its privilege prefix;
- how dd's stderr is relayed as progress, then a completion notice.

Every fact the program gets from the system is an input value. These are:
the entry names of `/dev` (`os.listdir`), whether a path exists, the errno
of the exclusive open, the operator's dialog action, the effective user id,
the tools `shutil.which` finds, the output of `lsblk` and `smartctl`, and
dd's stderr lines. Every external command is taken to start and return
normally; what happens when one cannot be started is listed under
"## Left out".

Modules, one per component of `ddwrap.py`:

- `Wrappers` (wrappers.dfy): the `Option` type.
- `Text` (text.dfy): Python's `str.isspace`, `str.strip()`, `startswith`
  and the substring test `p in s`.
- `Privilege` (privilege.dfy): `is_root`, `has_sudo`, `has_doas`,
  `has_pkexec` and the escalator choice.
- `Devices` (devices.dfy): the `/dev` filter of `refresh_devices`, the
  mount test of `get_mounted_partitions` and the button gating of
  `update_dev_capacity`.
- `Confirmation` (confirmation.dfy): `get_lsblk_info`, `get_smart_info`
  and `confirm_destructive_write`.
- `Commit` (commit.dfy): `start_dd`, as a method that returns an outcome
  and the list of steps it took (existence check, exclusive open,
  confirmation dialog, privilege check, worker start). The steps show the
  order of the guards: a run always takes a prefix of that chain. The
  command is built by appends and a prepend, as in the source; those two
  parts are helper methods.
- `Worker` (worker.dfy): `DDWorker.run`, as a loop over the stderr lines.

What the program does not do (the model follows the code):

- The code computes no percentage, rate or ETA. The fields that would hold
  them are set once and never updated.
- There is no cancellation.
- dd's exit status is ignored: once dd has started, the worker always ends
  with "DD completed successfully.". `Worker.Run` takes the exit status as a parameter and its
  contract shows that the result does not depend on it.
- The exclusive-open check runs before the confirmation dialog, not again
  after it.
- Pressing Start while a write is running is not refused; a new worker is
  started.
- The block size comes from a non-editable combo box with five entries, so
  there is no invalid-block-size error.

## Model

| member | source | states |
|---|---|---|
| `Text.Strip` | ddwrap.py:226-227 | the result is no longer than the input and neither starts nor ends with whitespace (Python `str.strip()`) |
| `Text.StripSlice` | ddwrap.py:226-227 | the input is the stripped text with only whitespace on either side |
| `Text.TrimStartSpec` | ddwrap.py:226-227 | the leading-whitespace cut removes only whitespace and leaves a suffix that does not start with whitespace |
| `Text.TrimEndSpec` | ddwrap.py:226-227 | the trailing-whitespace cut removes only whitespace and leaves a prefix that does not end with whitespace |
| `Text.StripEmptyIff` | ddwrap.py:290 | stripping leaves nothing exactly when every character is whitespace |
| `Privilege.IsRoot` | ddwrap.py:25-26 | running as root means the effective user id is 0 |
| `Privilege.HasSudo` | ddwrap.py:28-29 | sudo is available exactly when its command, Tool(Sudo), is found on the PATH |
| `Privilege.HasDoas` | ddwrap.py:31-32 | doas is available exactly when its command, Tool(Doas), is found on the PATH |
| `Privilege.HasPkexec` | ddwrap.py:34-35 | pkexec is available exactly when its command, Tool(Pkexec), is found on the PATH |
| `Privilege.Resolve` | ddwrap.py:257-266 | no prefix exactly when running as root; an escalator chosen is on the PATH; Unavailable exactly when not root and none of sudo, doas, pkexec is on the PATH |
| `Privilege.FirstAvailable` | ddwrap.py:258-263 | reference definition: an escalator of the priority list that is on the PATH and every escalator listed before it is not (the first available one); None exactly when none is available |
| `Privilege.ResolveFollowsPriority` | ddwrap.py:257-266 | without root, the decision is the first available escalator in the order sudo, doas, pkexec, and Unavailable when none is |
| `Privilege.Prefix` | ddwrap.py:257-263 | the prefix is empty as root and otherwise exactly the command name of the escalator chosen |
| `Devices.Candidates` | ddwrap.py:165-168 | at most one candidate per entry; every candidate starts with "/dev/sd" and does not end in a digit |
| `Devices.CandidatesMembership` | ddwrap.py:165-168 | "/dev/"+d is offered exactly when d is a listed entry starting with "sd" whose last character is not a digit |
| `Devices.CandidatesAppend` | ddwrap.py:165-168 | the listing order is kept: candidates of a concatenation are the candidates of each part in turn |
| `Devices.HasMounts` | ddwrap.py:284-290 | a device counts as mounted exactly when the mountpoint listing has a character that is not whitespace |
| `Devices.UpdateButtons` | ddwrap.py:173-192 | nothing changes when the device text is blank; otherwise exactly one of Start and Unmount is enabled, and Unmount exactly when the mountpoint listing has a non-whitespace character |
| `Devices.RefreshDevices` | ddwrap.py:163-171 | the offered list is the candidate list of the entries, in listing order and with nothing else, so "/dev/"+d is offered exactly when d is a listed disk name; the buttons are updated exactly when the list is non-empty, as the gating sets them for its first entry: Unmount exactly when that device is mounted and Start exactly when it is not |
| `Confirmation.LayoutInfo` | ddwrap.py:292-298 | the layout text is a contiguous piece of the lsblk output with only whitespace around it in that output, and it neither starts nor ends with whitespace |
| `Confirmation.SmartInfo` | ddwrap.py:300-307 | the SMART info is None exactly when smartctl is not on the PATH; otherwise it is a contiguous piece of the smartctl output with only whitespace around it in that output, and it neither starts nor ends with whitespace |
| `Confirmation.SmartText` | ddwrap.py:204 | the SMART section is empty exactly when the SMART info is falsy (missing or empty); otherwise it is the SMART heading followed by the info |
| `Confirmation.Message` | ddwrap.py:206-213 | the warning opens with the destructive-operation notice and the target device label, followed at once by the device; it ends with the image followed by the instruction to click OK, and is exactly as long as its fixed wording plus the device, layout, SMART section and image |
| `Confirmation.MessageDiscloses` | ddwrap.py:204-213 | the message always contains the device, the whole layout text and the image path, and contains the SMART heading followed by the SMART text whenever that text is truthy |
| `Confirmation.FalsySmartAddsNothing` | ddwrap.py:204 | missing or empty SMART info gives the same message as no SMART info at all |
| `Confirmation.ConfirmDestructiveWrite` | ddwrap.py:201-222 | the write is accepted exactly when the operator clicked OK (Enter picks the default button, Cancel; escape and closing the box give Cancel) |
| `Commit.StartDd` | ddwrap.py:225-273 | a missing input gives InvalidInput; a failed exclusive open gives PermissionError for EPERM/EACCES and DeviceBusy for any other errno; a declined dialog gives Declined; no root and no escalator gives NoPrivilege; each only when all earlier guards passed; a launch carries the privilege prefix followed by the dd command; the steps taken are the guards that ran, in program order, up to the one that stopped the run, and a worker is started only at the end of a launch |
| `Commit.DdArgs` | ddwrap.py:250-255 | the dd command is the four tokens "dd", "if="+infile, "of="+ofile, "bs="+size, plus one token for each optional flag chosen |
| `Commit.BuildCommand` | ddwrap.py:250-255 | the list built by appends is the dd command for the paths, block size and flags |
| `Commit.AddPrivilegePrefix` | ddwrap.py:257-266 | the prefixing succeeds exactly when a privilege decision other than Unavailable exists, and then puts that decision's prefix in front of the command |
| `Commit.DdArgsShape` | ddwrap.py:250-255 | the command starts with the four tokens "dd", "if="+infile, "of="+ofile, "bs="+size; "oflag=sync" is present exactly when sync is set, "status=progress" exactly when progress is set; sync comes right after bs=, progress last, nothing else |
| `Commit.LaunchPrefix` | ddwrap.py:257-266 | as root the command is unchanged; otherwise one token is added in front, it is on the PATH, it is not doas or pkexec when sudo is there, not pkexec when doas is there, and the rest is the unprefixed command |
| `Commit.ErrorDialog` | ddwrap.py:230-265 | every refusal except a declined confirmation shows an error dialog, a launch shows none, and a permission problem is titled differently from a busy device |
| `Worker.Relayed` | ddwrap.py:53-55 | the relayed events are progress events, at most one per line |
| `Worker.ProgressIndices` | ddwrap.py:53-55 | reference definition: the increasing list of exactly the indices of lines containing "bytes" |
| `Worker.RelayedMatchesIndices` | ddwrap.py:53-55 | the k-th progress event is the stripped k-th line containing "bytes": exactly those lines are relayed, each once, in order |
| `Worker.RelayedAppend` | ddwrap.py:53-55 | relaying two batches of lines gives the first batch's events, then the second's |
| `Worker.EffectOf` | ddwrap.py:276-280 | a progress event appends exactly its text to the log; the finished event shows "Done" / "DD completed successfully." |
| `Worker.Run` | ddwrap.py:46-58 | the events are the relayed progress events followed by one Finished event and nothing after it; the completion notice is "DD completed successfully." whatever dd's exit status |

## Left out

- Qt widgets, layouts, labels, the file dialog and the message boxes:
  only the dialog's answer and the texts of the error dialogs are modelled.
- `QThread` and signal dispatch: the worker is a sequential loop over a
  finite list of lines.
- The subprocess and OS calls (`lsblk`, `smartctl`, `umount`, `dd`,
  `os.open`, `os.close`, `os.listdir`, `os.path.exists`, `os.path.getsize`,
  `shutil.which`, `os.geteuid`): their results are inputs.
- `human_readable` (lines 155-160): it uses float division and `%.2f`
  formatting.
- The capacity label (lines 178-188): it depends on Python's `int()`
  parsing rules and only affects a display label.
- `unmount_device` (lines 194-198): one external call and a message box.
- The "Running: …" log line (line 268): display only.
- `show_file_size`, `browse_file` and the window title: display only.
- Devices.Candidates: only the ASCII digits 0-9 count as digits. Python's
  `isdigit` also accepts other Unicode digits, which do not occur in
  `/dev` entry names.
- Commit.StartDd: PermissionError is taken to be errno EPERM or EACCES,
  which is how CPython maps these errors on Linux. An OSError from
  `os.close` after a successful open is not modelled.
- Commit.StartDd: the `lsblk` and `smartctl` calls of the confirmation
  (lines 293 and 303) are not guarded. If one of them cannot be started
  (the command is missing, say), the exception leaves `start_dd` in none
  of the six outcomes, and no dialog or worker follows. The model has no
  outcome for this.
- Devices.UpdateButtons: the mountpoint `lsblk` call (line 285, reached
  from line 190) is outside the `try` of lines 178-188. If it cannot be
  started, the exception leaves the buttons unchanged. The model always
  sets them.
- Confirmation.ConfirmDestructiveWrite: that Enter gives the default button
  and that escape or closing the box gives Cancel is Qt's documented
  behaviour for an Ok/Cancel box. It is stated here, not derived.
- Worker.Run: decoding errors on dd's stderr are not modelled; lines are
  given already decoded.
- Worker.Run: the `Popen` of line 47 is not guarded. If the command cannot
  be started (for example `dd` is not on the PATH when running as root,
  where only the escalators are probed), the thread ends with an exception
  and no Finished event is sent. The model assumes dd starts.
