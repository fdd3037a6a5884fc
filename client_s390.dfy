/**
 * Ignition on s390x hosts (pkg/cloud/libvirt/client/s390_ignition.go): QEMU
 * there has no fw_cfg device, so the Ignition file is written straight into
 * the boot file system of the domain's first disk with guestfish, either on
 * the local host or, for a remote connection URI, over SSH.
 */
module ClientS390 {
  import opened Wrappers
  import opened Strs
  import opened LibvirtXml
  import opened Hypervisor
  import opened Kube
  import ClientIgnition

  // ----- commands -----

  /**
   * A command as `exec.Command` builds it: the program, its arguments, and
   * the environment when one is set (None: the command inherits the
   * provider's environment).
   */
  datatype Cmd = Cmd(path: string, args: seq<string>, env: Option<seq<string>>)

  /** `cmd.Args`: the program name followed by the arguments. */
  function Argv(c: Cmd): seq<string> {
    [c.path] + c.args
  }

  /**
   * `genCmd(runAsRoot, env, args...)`: guestfish with `args`, run through
   * `sudo --preserve-env` when `runAsRoot`; a non-empty `env` becomes the
   * command's whole environment.
   */
  function GenCmd(runAsRoot: bool, env: seq<string>, args: seq<string>): (c: Cmd)
    ensures runAsRoot <==> c.path == "sudo"
    ensures c.env.Some? <==> env != []
    ensures c.env.Some? ==> c.env.value == env
  {
    var env' := if env != [] then Some(env) else None;
    if runAsRoot then Cmd("sudo", ["--preserve-env", "guestfish"] + args, env')
    else Cmd("guestfish", args, env')
  }

  /**
   * The command line `genCmd` builds ends with guestfish and exactly the
   * arguments given; as root it is `sudo --preserve-env guestfish …`.
   */
  lemma GenCmdRunsGuestfish(runAsRoot: bool, env: seq<string>, args: seq<string>)
    ensures var a := Argv(GenCmd(runAsRoot, env, args));
            |a| > |args| && a[|a| - |args|..] == args && a[|a| - |args| - 1] == "guestfish" &&
            (runAsRoot ==> a[..|a| - |args|] == ["sudo", "--preserve-env", "guestfish"]) &&
            (!runAsRoot ==> a == ["guestfish"] + args)
  {
    var a := Argv(GenCmd(runAsRoot, env, args));
    if runAsRoot {
      assert a == ["sudo", "--preserve-env", "guestfish"] + args;
    }
  }

  /** How running a command can go wrong. */
  datatype Fault =
    | NoPipe(e: Error)      // `cmd.StdoutPipe()` failed
    | NotStarted(e: Error)  // `cmd.Start()` failed
    | Failed(e: Error)      // reading the output failed, or the command exited with an error

  /** The context `execCmd` wraps a command's error in. */
  function RunContext(c: Cmd): string {
    "error running command '" + Join(Argv(c), " ") + "'"
  }

  function PipeContext(c: Cmd): string {
    "error getting stdout pipe for command '" + Join(Argv(c), " ") + "'"
  }

  function StartContext(c: Cmd): string {
    "error starting command '" + Join(Argv(c), " ") + "'"
  }

  /**
   * The local host's processes, as far as the provider sees them: the
   * commands it has run, in order, and for each command its output and
   * whether it fails.
   */
  class Shell {
    var ran: seq<Cmd>
    const outputs: map<Cmd, string>
    const faults: map<Cmd, Fault>

    constructor (outputs0: map<Cmd, string>, faults0: map<Cmd, Fault>)
      ensures ran == [] && outputs == outputs0 && faults == faults0
    {
      ran := [];
      outputs := outputs0;
      faults := faults0;
    }

    function Output(c: Cmd): string {
      if c in outputs then outputs[c] else ""
    }

    /** The error `execCmd` returns for a command: any fault, wrapped in the command line. */
    function ExecError(c: Cmd): (err: Outcome)
      ensures err.None? <==> c !in faults
      ensures c in faults ==> err == Some(Wrap(RunContext(c), faults[c].e))
    {
      if c in faults then Some(Wrap(RunContext(c), faults[c].e)) else None
    }

    /**
     * What `startCmd` returns for a command: a pipe or start failure wrapped
     * in the command line, a read failure as it is, and no output with any
     * of them.
     */
    function StartAnswer(c: Cmd): (r: (string, Outcome))
      ensures r.1.None? <==> c !in faults
      ensures r.1.None? ==> r.0 == Output(c)
      ensures r.1.Some? ==> r.0 == ""
    {
      if c !in faults then (Output(c), None)
      else match faults[c]
        case NoPipe(e) => ("", Some(Wrap(PipeContext(c), e)))
        case NotStarted(e) => ("", Some(Wrap(StartContext(c), e)))
        case Failed(e) => ("", Some(e))
    }

    /** `execCmd(runAsRoot, env, args...)`: runs the command to completion. */
    method ExecCmd(runAsRoot: bool, env: seq<string>, args: seq<string>) returns (out: string, err: Outcome)
      modifies this
      ensures ran == old(ran) + [GenCmd(runAsRoot, env, args)]
      ensures out == Output(GenCmd(runAsRoot, env, args)) && err == ExecError(GenCmd(runAsRoot, env, args))
    {
      var c := GenCmd(runAsRoot, env, args);
      ran := ran + [c];
      out, err := Output(c), ExecError(c);
    }

    /** `startCmd(runAsRoot, env, args...)`: starts the command and reads its output without waiting for it. */
    method StartCmd(runAsRoot: bool, env: seq<string>, args: seq<string>) returns (out: string, err: Outcome)
      modifies this
      ensures ran == old(ran) + [GenCmd(runAsRoot, env, args)]
      ensures (out, err) == StartAnswer(GenCmd(runAsRoot, env, args))
    {
      var c := GenCmd(runAsRoot, env, args);
      ran := ran + [c];
      out, err := StartAnswer(c).0, StartAnswer(c).1;
    }
  }

  // ----- the guestfish session -----

  /** The arguments of a command sent to the guestfish server started with `--listen`. */
  function Remote(args: seq<string>): seq<string> {
    ["--remote", "--"] + args
  }

  function StartArgs(file: string): seq<string> {
    ["--listen", "-a", file]
  }

  /** The path the Ignition file is uploaded to, inside the boot file system. */
  const IgnitionTarget := "/ignition/config.ign"

  /**
   * The `GUESTFISH_PID=<pid>` assignment in the output of `guestfish
   * --listen`: the output must be two pieces around one ';', and its first
   * piece two pieces around one '='.
   */
  function PidAssignment(output: string): (r: Result<string>)
    ensures r.Ok? ==> |Split(output, ";")| == 2 && r.value == Split(output, ";")[0] && |Split(r.value, "=")| == 2
    ensures |Split(output, ";")| != 2 ==> r == Err(Fail("invalid output when starting guestfish: " + output))
    ensures |Split(output, ";")| == 2 && |Split(Split(output, ";")[0], "=")| != 2 ==>
              r == Err(Fail("failed to get the guestfish PID from " + output))
  {
    var parts := Split(output, ";");
    if |parts| != 2 then Err(Fail("invalid output when starting guestfish: " + output))
    else if |Split(parts[0], "=")| != 2 then Err(Fail("failed to get the guestfish PID from " + output))
    else Ok(parts[0])
  }

  /**
   * An output `<name>=<value>;<rest>` (as in "GUESTFISH_PID=4513; export
   * GUESTFISH_PID") yields the assignment before the ';'.
   */
  lemma PidAssignmentOf(name: string, value: string, rest: string)
    requires ';' !in name && ';' !in value && ';' !in rest && '=' !in name && '=' !in value
    ensures PidAssignment(name + "=" + value + ";" + rest) == Ok(name + "=" + value)
  {
    var assignment := name + "=" + value;
    assert ';' !in assignment by {
      forall i | 0 <= i < |assignment| ensures assignment[i] != ';' {
        if i < |name| { assert assignment[i] == name[i]; }
        else if i > |name| { assert assignment[i] == value[i - |name| - 1]; }
      }
    }
    SplitAtOnly(assignment, rest, ';');
    SplitAtOnly(name, value, '=');
  }

  /** The boot file system guestfish reports, without surrounding white space. */
  function BootDevice(sh: Shell, env: seq<string>): string {
    TrimSpace(sh.Output(GenCmd(true, env, Remote(["findfs-label", "boot"]))))
  }

  /** Launching the guestfish appliance and searching for the file system labelled "boot". */
  function FindBoot(env: seq<string>): (cmds: seq<Cmd>)
    ensures |cmds| == 2
  {
    [GenCmd(true, env, Remote(["run"])), GenCmd(true, env, Remote(["findfs-label", "boot"]))]
  }

  /** Mounting the boot file system, uploading the Ignition file, unmounting everything and exiting. */
  function Steps(env: seq<string>, bootDisk: string, ignitionFile: string): (cmds: seq<Cmd>)
    ensures |cmds| == 4
  {
    [GenCmd(true, env, Remote(["mount", bootDisk, "/"])),
     GenCmd(true, env, Remote(["upload", ignitionFile, IgnitionTarget])),
     GenCmd(true, env, Remote(["umount-all"])),
     GenCmd(true, env, Remote(["exit"]))]
  }

  /**
   * The commands of a complete session on `file`, as far as the outputs of
   * the shell allow one: start the server; then, with its PID assignment as
   * the environment, launch the appliance and find the boot file system; then
   * mount it, upload, unmount and exit.  An unreadable PID ends the plan
   * after the start, an empty boot device after the search.
   */
  function Session(sh: Shell, file: string, ignitionFile: string): (plan: seq<Cmd>)
    ensures |plan| == 1 || |plan| == 3 || |plan| == 7
  {
    var start := GenCmd(true, [], StartArgs(file));
    [start] +
    match PidAssignment(sh.Output(start))
    case Err(_) => []
    case Ok(pid) =>
      FindBoot([pid]) + if BootDevice(sh, [pid]) == "" then [] else Steps([pid], BootDevice(sh, [pid]), ignitionFile)
  }

  /** The session as its three phases see it: the start, the search for the boot device, the rest. */
  lemma SessionShape(sh: Shell, file: string, ignitionFile: string)
    ensures var plan := Session(sh, file, ignitionFile);
            plan[0] == GenCmd(true, [], StartArgs(file)) &&
            (PidAssignment(sh.Output(plan[0])).Err? <==> |plan| == 1) &&
            (PidAssignment(sh.Output(plan[0])).Ok? ==>
               var env := [PidAssignment(sh.Output(plan[0])).value];
               plan[1..3] == FindBoot(env) &&
               (BootDevice(sh, env) == "" <==> |plan| == 3) &&
               (BootDevice(sh, env) != "" ==> plan[3..] == Steps(env, BootDevice(sh, env), ignitionFile)))
  {
    var plan := Session(sh, file, ignitionFile);
    var start := GenCmd(true, [], StartArgs(file));
    match PidAssignment(sh.Output(start))
    case Err(_) =>
    case Ok(pid) =>
      var find := FindBoot([pid]);
      var boot := BootDevice(sh, [pid]);
      var tail := if boot == "" then [] else Steps([pid], boot, ignitionFile);
      assert plan == [start] + find + tail;
      assert plan[1..3] == find;
      assert plan[3..] == tail;
  }

  /**
   * The last steps run as root with the PID assignment as their whole
   * environment, and mount the boot file system on / before uploading the
   * Ignition file to /ignition/config.ign.
   */
  lemma StepsMountThenUpload(env: seq<string>, bootDisk: string, ignitionFile: string)
    requires env != []
    ensures var steps := Steps(env, bootDisk, ignitionFile);
            (forall i :: 0 <= i < 4 ==> steps[i].path == "sudo" && steps[i].env == Some(env)) &&
            Argv(steps[0])[3..] == ["--remote", "--", "mount", bootDisk, "/"] &&
            Argv(steps[1])[3..] == ["--remote", "--", "upload", ignitionFile, "/ignition/config.ign"] &&
            Argv(steps[2])[3..] == ["--remote", "--", "umount-all"] &&
            Argv(steps[3])[3..] == ["--remote", "--", "exit"]
  {
    GenCmdRunsGuestfish(true, env, Remote(["mount", bootDisk, "/"]));
    GenCmdRunsGuestfish(true, env, Remote(["upload", ignitionFile, IgnitionTarget]));
    GenCmdRunsGuestfish(true, env, Remote(["umount-all"]));
    GenCmdRunsGuestfish(true, env, Remote(["exit"]));
  }

  /** The commands of `plan` up to and including the first one that fails. */
  function UpToFailure(faults: map<Cmd, Fault>, plan: seq<Cmd>): (r: seq<Cmd>)
    ensures |r| <= |plan| && r == plan[..|r|]
    ensures forall i :: 0 <= i < |r| - 1 ==> r[i] !in faults
    ensures |r| < |plan| ==> r != [] && r[|r| - 1] in faults
    ensures plan != [] ==> r != []
  {
    if plan == [] then []
    else if plan[0] in faults then [plan[0]]
    else
      var rest := UpToFailure(faults, plan[1..]);
      assert forall i :: 1 <= i < |rest| + 1 ==> ([plan[0]] + rest)[i] == rest[i - 1];
      [plan[0]] + rest
  }

  /**
   * Running the next command of a plan: if it fails, the plan's run ends
   * with it; otherwise the run goes on with the rest of the plan.
   */
  lemma Advance(faults: map<Cmd, Fault>, done: seq<Cmd>, rest: seq<Cmd>)
    requires rest != []
    ensures Completes(faults, rest) <==> rest[0] !in faults && Completes(faults, rest[1..])
    ensures rest[0] in faults ==> done + UpToFailure(faults, rest) == done + [rest[0]]
    ensures rest[0] !in faults ==> done + UpToFailure(faults, rest) == (done + [rest[0]]) + UpToFailure(faults, rest[1..])
  {
    CompletesStep(faults, rest);
    if rest[0] !in faults {
      RunGoesOn(faults, done, rest);
    } else {
      assert UpToFailure(faults, rest) == [rest[0]];
    }
  }

  lemma RunGoesOn(faults: map<Cmd, Fault>, done: seq<Cmd>, rest: seq<Cmd>)
    requires rest != [] && rest[0] !in faults
    ensures done + UpToFailure(faults, rest) == (done + [rest[0]]) + UpToFailure(faults, rest[1..])
  {
    UpToFailureCons(faults, rest);
    ConcatAssoc(done, [rest[0]], UpToFailure(faults, rest[1..]));
  }

  lemma UpToFailureCons(faults: map<Cmd, Fault>, rest: seq<Cmd>)
    requires rest != [] && rest[0] !in faults
    ensures UpToFailure(faults, rest) == [rest[0]] + UpToFailure(faults, rest[1..])
  {
  }

  lemma ConcatAssoc<T>(a: seq<T>, b: seq<T>, c: seq<T>)
    ensures a + (b + c) == (a + b) + c
  {
  }

  /** A plan completes when its first command does not fail and the rest completes. */
  lemma CompletesStep(faults: map<Cmd, Fault>, rest: seq<Cmd>)
    requires rest != []
    ensures Completes(faults, rest) <==> rest[0] !in faults && Completes(faults, rest[1..])
  {
    if rest[0] !in faults && Completes(faults, rest[1..]) {
      forall i | 0 <= i < |rest|
        ensures rest[i] !in faults
      {
        if i > 0 {
          assert rest[i] == rest[1..][i - 1];
        }
      }
    }
  }

  /** No command of `plan` fails. */
  predicate Completes(faults: map<Cmd, Fault>, plan: seq<Cmd>) {
    forall i :: 0 <= i < |plan| ==> plan[i] !in faults
  }

  /**
   * `injectIgnitionByGuestfish(domainDef, ignitionFile)`: runs the guestfish
   * session on the file of the domain's first disk, as root.  The commands
   * run are those of `Session` up to the first that fails; the result is
   * nil exactly when the whole session ran and no command failed.  A domain
   * without disks, or whose first disk has no source, makes the Go code
   * panic before any command runs.
   */
  method InjectIgnitionByGuestfish(sh: Shell, def: DomainDef, ignitionFile: string) returns (err: Outcome)
    modifies sh
    ensures def.devices.disks == [] ==> err == Some(Panic("index out of range [0] with length 0")) && sh.ran == old(sh.ran)
    ensures def.devices.disks != [] && def.devices.disks[0].source.None? ==>
              err == Some(Panic("invalid memory address or nil pointer dereference")) && sh.ran == old(sh.ran)
    ensures def.devices.disks != [] && def.devices.disks[0].source.Some? ==>
              var plan := Session(sh, def.devices.disks[0].source.value, ignitionFile);
              sh.ran == old(sh.ran) + UpToFailure(sh.faults, plan) &&
              (err.None? <==> |plan| == 7 && Completes(sh.faults, plan)) &&
              (plan[0] in sh.faults ==> err == sh.StartAnswer(plan[0]).1) &&
              (plan[0] !in sh.faults && PidAssignment(sh.Output(plan[0])).Err? ==>
                 err == Some(PidAssignment(sh.Output(plan[0])).error)) &&
              (|plan| == 3 && Completes(sh.faults, plan) ==> err == BootNotFound)
  {
    if def.devices.disks == [] {
      return Some(Panic("index out of range [0] with length 0"));
    }
    if def.devices.disks[0].source.None? {
      return Some(Panic("invalid memory address or nil pointer dereference"));
    }
    var file := def.devices.disks[0].source.value;
    ghost var plan := Session(sh, file, ignitionFile);
    SessionShape(sh, file, ignitionFile);
    var pid := StartGuestfish(sh, file);
    Advance(sh.faults, old(sh.ran), plan);
    if pid.Err? {
      return Some(pid.error);
    }
    err := RunSteps(sh, [pid.value], ignitionFile, plan[1..]);
  }

  /**
   * `guestfish --listen -a <file>` as root, and the PID assignment read from
   * its output.
   */
  method StartGuestfish(sh: Shell, file: string) returns (pid: Result<string>)
    modifies sh
    ensures var start := GenCmd(true, [], StartArgs(file));
            sh.ran == old(sh.ran) + [start] &&
            (start in sh.faults ==> pid == Err(sh.StartAnswer(start).1.value)) &&
            (start !in sh.faults ==> pid == PidAssignment(sh.Output(start)))
  {
    var output, err := sh.StartCmd(true, [], StartArgs(file));
    if err.Some? {
      return Err(err.value);
    }
    pid := PidAssignment(output);
  }

  /** The error for a guest without a file system labelled "boot". */
  const BootNotFound: Outcome := Some(Fail("failed to get the boot filesystem"))

  /**
   * The remote part of the session, all after `guestfish --listen`: `rest`
   * is the plan after the start.
   */
  method RunSteps(sh: Shell, env: seq<string>, ignitionFile: string, ghost rest: seq<Cmd>) returns (err: Outcome)
    requires |rest| >= 2 && rest[..2] == FindBoot(env)
    requires BootDevice(sh, env) == "" <==> |rest| == 2
    requires BootDevice(sh, env) != "" ==> rest[2..] == Steps(env, BootDevice(sh, env), ignitionFile)
    modifies sh
    ensures sh.ran == old(sh.ran) + UpToFailure(sh.faults, rest)
    ensures err.None? <==> |rest| == 6 && Completes(sh.faults, rest)
    ensures |rest| == 2 && Completes(sh.faults, rest) ==> err == BootNotFound
  {
    var output;
    output, err := ExecStep(sh, env, Remote(["run"]), rest);
    if err.Some? {
      return;
    }
    output, err := ExecStep(sh, env, Remote(["findfs-label", "boot"]), rest[1..]);
    if err.Some? {
      return;
    }
    var bootDisk := TrimSpace(output);
    assert bootDisk == BootDevice(sh, env);
    if |bootDisk| == 0 {
      return BootNotFound;
    }
    err := Finish(sh, env, bootDisk, ignitionFile);
  }

  /** The last four commands of the session, stopping at the first failure. */
  method Finish(sh: Shell, env: seq<string>, bootDisk: string, ignitionFile: string) returns (err: Outcome)
    modifies sh
    ensures sh.ran == old(sh.ran) + UpToFailure(sh.faults, Steps(env, bootDisk, ignitionFile))
    ensures err.None? <==> Completes(sh.faults, Steps(env, bootDisk, ignitionFile))
  {
    ghost var steps := Steps(env, bootDisk, ignitionFile);
    var output;
    output, err := ExecStep(sh, env, Remote(["mount", bootDisk, "/"]), steps);
    if err.Some? {
      return;
    }
    output, err := ExecStep(sh, env, Remote(["upload", ignitionFile, IgnitionTarget]), steps[1..]);
    if err.Some? {
      return;
    }
    output, err := ExecStep(sh, env, Remote(["umount-all"]), steps[2..]);
    if err.Some? {
      return;
    }
    output, err := ExecStep(sh, env, Remote(["exit"]), steps[3..]);
  }

  /** `execCmd` as root for the next command of a plan whose remainder is `rest`. */
  method ExecStep(sh: Shell, env: seq<string>, args: seq<string>, ghost rest: seq<Cmd>) returns (output: string, err: Outcome)
    requires rest != [] && rest[0] == GenCmd(true, env, args)
    modifies sh
    ensures output == sh.Output(rest[0]) && err == sh.ExecError(rest[0])
    ensures err.Some? ==> old(sh.ran) + UpToFailure(sh.faults, rest) == sh.ran
    ensures err.None? ==> old(sh.ran) + UpToFailure(sh.faults, rest) == sh.ran + UpToFailure(sh.faults, rest[1..])
    ensures Completes(sh.faults, rest) <==> err.None? && Completes(sh.faults, rest[1..])
  {
    output, err := sh.ExecCmd(true, env, args);
    Advance(sh.faults, old(sh.ran), rest);
  }

  // ----- the host of the connection URI -----

  /** `h` is the host part at the front of `t`: the text before the first '/', or all of `t`. */
  predicate HostPart(t: string, h: string) {
    HasPrefix(t, h) && '/' !in h && (h == t || t[|h|] == '/')
  }

  /** There is only one host part. */
  lemma HostPartUnique(t: string, a: string, b: string)
    requires HostPart(t, a) && HostPart(t, b)
    ensures a == b
  {
  }

  lemma CharContained(s: string, i: nat)
    requires i < |s|
    ensures Contains(s, [s[i]])
  {
    assert OccursAt(s, [s[i]], i);
  }

  /** The first piece of `strings.Split(p, "/")` is the host part of `p`. */
  lemma FirstPieceIsHost(p: string)
    ensures HostPart(p, Split(p, "/")[0])
  {
    var parts := Split(p, "/");
    var h := parts[0];
    if '/' in h {
      var i :| 0 <= i < |h| && h[i] == '/';
      CharContained(h, i);
    }
    if |parts| > 1 {
      assert p == h + "/" + Join(parts[1..], "/");
      assert p[..|h|] == h && p[|h|] == '/';
    }
  }

  /** The host part of a prefix that is all of `t` or holds a '/' is the host part of `t`. */
  lemma HostOfPrefix(t: string, p: string, h: string)
    requires HasPrefix(t, p) && (p == t || '/' in p) && HostPart(p, h)
    ensures HostPart(t, h)
  {
    if p != t {
      assert h != p;
      assert t[|h|] == p[|h|];
    }
    assert t[..|h|] == p[..|h|];
  }

  /**
   * The libvirt host named by a connection URI, as `setIgnitionForS390X`
   * extracts it: the text after the first "//" up to the next '/'.  A URI
   * without "//" makes the Go code index past the end of the pieces, a panic.
   */
  function VirHost(uri: string): (r: Result<string>)
    ensures r.Err? <==> !Contains(uri, "//")
    ensures r.Err? ==> r.error == Panic("index out of range [1] with length 1")
    ensures r.Ok? ==> HostPart(uri[Index(uri, "//").value + 2..], r.value)
  {
    var parts := SplitAfter(uri, "//");
    if |parts| < 2 then Err(Panic("index out of range [1] with length 1"))
    else
      HostAfterSlashes(uri);
      Ok(Split(parts[1], "/")[0])
  }

  /** The second piece of `strings.SplitAfter(uri, "//")` starts with the host part of what follows the "//". */
  lemma HostAfterSlashes(uri: string)
    requires Contains(uri, "//")
    ensures |SplitAfter(uri, "//")| >= 2
    ensures HostPart(uri[Index(uri, "//").value + 2..], Split(SplitAfter(uri, "//")[1], "/")[0])
  {
    var i := Index(uri, "//").value;
    var t := uri[i + 2..];
    var p := SplitAfter(t, "//")[0];
    assert SplitAfter(uri, "//") == [uri[..i + 2]] + SplitAfter(t, "//");
    assert SplitAfter(uri, "//")[1] == p;
    if Contains(t, "//") {
      SplitAfterFirst(t, "//");
      var j := Index(t, "//").value;
      assert p[j] == '/';
    } else {
      var parts := SplitAfter(t, "//");
      assert |parts| == 1;
      assert Concat(parts) == parts[0] + Concat(parts[1..]);
    }
    FirstPieceIsHost(p);
    HostOfPrefix(t, p, Split(p, "/")[0]);
  }

  /** A local URI names no host: guestfish then runs on this machine. */
  lemma VirHostLocal()
    ensures VirHost("qemu:///system") == Ok("")
  {
    var uri := "qemu:///system";
    assert OccursAt(uri, "//", 5);
    assert forall j: nat :: j < 5 ==> !OccursAt(uri, "//", j) by {
      forall j: nat | j < 5 ensures !OccursAt(uri, "//", j) { assert uri[j..j + 2][0] == uri[j]; }
    }
    assert Index(uri, "//") == Some(5);
    assert HostPart(uri[7..], "");
    HostPartUnique(uri[7..], "", VirHost(uri).value);
  }

  // ----- setIgnitionForS390X -----

  /**
   * The part of `setIgnitionForS390X` after the upload: reads the connection
   * URI (its error is returned as it is) and injects the uploaded file
   * `ignitionFile` with guestfish, locally when the URI names no host;
   * `sshResult` is what the injection over SSH to a named host returns.
   */
  method InjectForURI(def: DomainDef, c: Connect, sh: Shell, ignitionFile: string, sshResult: Outcome)
    returns (err: Outcome)
    modifies c, sh
    ensures c.trace == old(c.trace) + [Call.GetURI] && c.store == old(c.store)
    ensures Call.GetURI in c.fails ==> err == Some(ErrorOf(c.fails[Call.GetURI])) && sh.ran == old(sh.ran)
    ensures Call.GetURI !in c.fails && VirHost(c.uri).Err? ==> err == Some(VirHost(c.uri).error) && sh.ran == old(sh.ran)
    ensures Call.GetURI !in c.fails && VirHost(c.uri).Ok? && VirHost(c.uri).value != "" ==>
              err == sshResult && sh.ran == old(sh.ran)
    ensures Call.GetURI !in c.fails && VirHost(c.uri) == Ok("") && def.devices.disks != [] &&
            def.devices.disks[0].source.Some? ==>
              var plan := Session(sh, def.devices.disks[0].source.value, ignitionFile);
              sh.ran == old(sh.ran) + UpToFailure(sh.faults, plan) &&
              (err.None? <==> |plan| == 7 && Completes(sh.faults, plan))
    ensures err.None? ==> Call.GetURI !in c.fails && VirHost(c.uri).Ok?
    ensures err.None? && VirHost(c.uri) == Ok("") ==>
              def.devices.disks != [] && def.devices.disks[0].source.Some? &&
              var plan := Session(sh, def.devices.disks[0].source.value, ignitionFile);
              |plan| == 7 && sh.ran == old(sh.ran) + plan
  {
    var uri := c.GetURI();
    if uri.Err? {
      return Some(uri.error);
    }
    var virHost := VirHost(uri.value);
    if virHost.Err? {
      return Some(virHost.error);
    }
    if virHost.value != "" {
      return sshResult;
    }
    err := InjectIgnitionByGuestfish(sh, def, ignitionFile);
    if err.None? {
      CompletesAll(sh.faults, Session(sh, def.devices.disks[0].source.value, ignitionFile));
    }
  }

  /** A plan none of whose commands fails runs to its end. */
  lemma CompletesAll(faults: map<Cmd, Fault>, plan: seq<Cmd>)
    requires Completes(faults, plan)
    ensures UpToFailure(faults, plan) == plan
  {
  }

  /**
   * `setIgnitionForS390X(domainDef, client, ignition, kubeClient, namespace,
   * volumeName)`: the user-data secret is read and uploaded as the Ignition
   * volume exactly as for other architectures, and the uploaded file is then
   * written into the guest's boot file system instead of being passed
   * through fw_cfg.  The domain definition is only read.
   */
  method SetIgnitionForS390X(def: DomainDef, c: Connect, sh: Shell, userDataSecret: string, secrets: Secrets,
                             namespace: string, volumeName: string, poolName: string,
                             files: map<string, seq<byte>>, isJSONObject: bool, tempName: string,
                             sshResult: Outcome)
    returns (err: Outcome)
    modifies c, sh
    ensures userDataSecret == "" ==>
              err == Some(Fail("ignition.userDataSecret not set")) && c.trace == old(c.trace) && sh.ran == old(sh.ran)
    ensures userDataSecret != "" && UserData(secrets, namespace, userDataSecret, "userData").Err? ==>
              err == Some(UserData(secrets, namespace, userDataSecret, "userData").error) &&
              c.trace == old(c.trace) && sh.ran == old(sh.ran)
    ensures sh.ran != old(sh.ran) ==> VirHost(c.uri) == Ok("")
    ensures err.None? ==>
              userDataSecret != "" && UserData(secrets, namespace, userDataSecret, "userData").Ok? &&
              poolName in c.pools && c.KeyIn(poolName, volumeName) in c.store.volumes &&
              Call.GetURI !in c.fails && VirHost(c.uri).Ok?
    ensures err.None? && VirHost(c.uri) == Ok("") ==>
              def.devices.disks != [] && def.devices.disks[0].source.Some? &&
              var plan := Session(sh, def.devices.disks[0].source.value, c.KeyIn(poolName, volumeName));
              |plan| == 7 && sh.ran == old(sh.ran) + plan
    ensures c.store.domains == old(c.store.domains) && c.store.networks == old(c.store.networks)
  {
    if userDataSecret == "" {
      return Some(Fail("ignition.userDataSecret not set"));
    }
    var data := UserData(secrets, namespace, userDataSecret, "userData");
    if data.Err? {
      return Some(data.error);
    }
    var key := ClientIgnition.CreateAndUpload(c, volumeName, poolName, BytesText(data.value), files, isJSONObject, tempName);
    if key.Err? {
      return Some(key.error);
    }
    err := InjectForURI(def, c, sh, key.value, sshResult);
  }
}
