/**
 * The VBoxManage command lines the manager issues, one builder per command,
 * and the fixed sequences `create_vm` and `access_vm_vrde` issue them in.
 * A command line is the argument vector handed to the process launcher,
 * the executable first.
 */
module VBox {

  type Path = string
  type Argv = seq<string>

  /**
   * The installation-specific settings the script hard-codes as placeholders:
   * the VBoxManage executable, the directory of the template VM, the clone
   * directory for a given VM name, the ISO attached to new VMs, the host
   * adapter bridged networking uses, and the platform's `os.path.join`.
   */
  datatype Config = Config(
    vboxManage: Path,
    sourceDir: Path,
    destinationDir: string -> Path,
    isoPath: Path,
    bridgeAdapter: string,
    join: (Path, string) -> Path)

  /** The disk image file inside the template VM's directory. */
  const VdiFileName: string := "kali-linux-2024.3-virtualbox-amd64.vdi"

  /** The guest property holding the first adapter's IPv4 address. */
  const GuestIpProperty: string := "/VirtualBox/GuestInfo/Net/0/V4/IP"

  const SataController: string := "SATA Controller"
  const IdeController: string := "IDE Controller"

  // ---------------------------------------------------------------------------
  // Single commands
  // ---------------------------------------------------------------------------

  function ListArgv(cfg: Config): Argv {
    [cfg.vboxManage, "list", "vms"]
  }

  function SetUuidArgv(cfg: Config, vdiPath: Path): Argv {
    [cfg.vboxManage, "internalcommands", "sethduuid", vdiPath]
  }

  function VrdeOnArgv(cfg: Config, vm: string): Argv {
    [cfg.vboxManage, "modifyvm", vm, "--vrde", "on"]
  }

  function StartArgv(cfg: Config, vm: string): Argv {
    [cfg.vboxManage, "startvm", vm, "--type", "headless"]
  }

  function StopArgv(cfg: Config, vm: string): Argv {
    [cfg.vboxManage, "controlvm", vm, "poweroff"]
  }

  function UnregisterArgv(cfg: Config, vm: string): Argv {
    [cfg.vboxManage, "unregistervm", vm, "--delete"]
  }

  function GuestIpArgv(cfg: Config, vm: string): Argv {
    [cfg.vboxManage, "guestproperty", "get", vm, GuestIpProperty]
  }

  function BridgedArgv(cfg: Config, vm: string): Argv {
    [cfg.vboxManage, "modifyvm", vm, "--nic1", "bridged", "--bridgeadapter1", cfg.bridgeAdapter]
  }

  function NatArgv(cfg: Config, vm: string): Argv {
    [cfg.vboxManage, "modifyvm", vm, "--nic1", "nat"]
  }

  // ---------------------------------------------------------------------------
  // `create_vm`
  // ---------------------------------------------------------------------------

  /**
   * The six commands that create, size and wire up the disks of a new VM:
   * the memory and CPU count are passed on as the user typed them.
   */
  function SetupCommands(cfg: Config, vm: string, memory: string, cpus: string, vdiPath: Path): seq<Argv> {
    [ [cfg.vboxManage, "createvm", "--name", vm, "--register"],
      [cfg.vboxManage, "modifyvm", vm, "--memory", memory, "--cpus", cpus, "--ostype", "Debian_64"],
      [cfg.vboxManage, "storagectl", vm, "--name", SataController, "--add", "sata", "--controller", "IntelAhci"],
      [cfg.vboxManage, "storageattach", vm, "--storagectl", SataController, "--port", "0", "--device", "0",
       "--type", "hdd", "--medium", vdiPath],
      [cfg.vboxManage, "storagectl", vm, "--name", IdeController, "--add", "ide"],
      [cfg.vboxManage, "storageattach", vm, "--storagectl", IdeController, "--port", "1", "--device", "0",
       "--type", "dvddrive", "--medium", cfg.isoPath] ]
  }

  /** The network step: one command for `bridged` or `nat`, none for any other mode. */
  function NetworkCommands(cfg: Config, vm: string, mode: string): seq<Argv> {
    if mode == "bridged" then [BridgedArgv(cfg, vm)]
    else if mode == "nat" then [NatArgv(cfg, vm)]
    else []
  }

  /** Everything `create_vm` issues, in order, whatever each step answers. */
  function CreateCommands(cfg: Config, vm: string, memory: string, cpus: string, vdiPath: Path, mode: string): seq<Argv> {
    SetupCommands(cfg, vm, memory, cpus, vdiPath) + NetworkCommands(cfg, vm, mode)
  }

  /** What `access_vm_vrde` issues: enable VRDE, start headless, ask for the address. */
  function ConsoleCommands(cfg: Config, vm: string): seq<Argv> {
    [VrdeOnArgv(cfg, vm), StartArgv(cfg, vm), GuestIpArgv(cfg, vm)]
  }

  // ---------------------------------------------------------------------------
  // Properties of command sequences
  // ---------------------------------------------------------------------------

  /** Every command runs the configured VBoxManage with a subcommand. */
  predicate IssuedBy(cfg: Config, cmds: seq<Argv>) {
    forall i :: 0 <= i < |cmds| ==> |cmds[i]| >= 2 && cmds[i][0] == cfg.vboxManage
  }

  /** Every command mentions `vm` as one of its arguments. */
  predicate AllAbout(cmds: seq<Argv>, vm: string) {
    forall i :: 0 <= i < |cmds| ==> |cmds[i]| > 0 && vm in cmds[i][1..]
  }

  /** The subcommand of each command (the word after the executable). */
  function Subcommands(cmds: seq<Argv>): (r: seq<string>)
    requires forall i :: 0 <= i < |cmds| ==> |cmds[i]| >= 2
    ensures |r| == |cmds| && forall i :: 0 <= i < |cmds| ==> r[i] == cmds[i][1]
  {
    if cmds == [] then [] else [cmds[0][1]] + Subcommands(cmds[1..])
  }

  lemma {:induction false} SubcommandsAppend(a: seq<Argv>, b: seq<Argv>)
    requires forall i :: 0 <= i < |a| ==> |a[i]| >= 2
    requires forall i :: 0 <= i < |b| ==> |b[i]| >= 2
    ensures Subcommands(a + b) == Subcommands(a) + Subcommands(b)
    decreases |a|
  {
    if a != [] {
      assert (a + b)[1..] == a[1..] + b;
      SubcommandsAppend(a[1..], b);
    } else {
      assert a + b == b;
    }
  }

  lemma IssuedByAppend(cfg: Config, a: seq<Argv>, b: seq<Argv>)
    requires IssuedBy(cfg, a) && IssuedBy(cfg, b)
    ensures IssuedBy(cfg, a + b)
  {
    assert forall i :: |a| <= i < |a + b| ==> (a + b)[i] == b[i - |a|];
  }

  lemma AllAboutAppend(a: seq<Argv>, b: seq<Argv>, vm: string)
    requires AllAbout(a, vm) && AllAbout(b, vm)
    ensures AllAbout(a + b, vm)
  {
    assert forall i :: |a| <= i < |a + b| ==> (a + b)[i] == b[i - |a|];
  }

  /** The setup commands run VBoxManage, each on the new VM. */
  lemma SetupCommandsTarget(cfg: Config, vm: string, memory: string, cpus: string, vdiPath: Path)
    ensures var cmds := SetupCommands(cfg, vm, memory, cpus, vdiPath);
      IssuedBy(cfg, cmds) && AllAbout(cmds, vm)
  {
    var cmds := SetupCommands(cfg, vm, memory, cpus, vdiPath);
    assert cmds[0][1..][2] == vm;
  }

  /** The setup commands create the VM, size it, then add and fill a SATA and an IDE controller. */
  lemma SetupCommandsOrder(cfg: Config, vm: string, memory: string, cpus: string, vdiPath: Path)
    ensures Subcommands(SetupCommands(cfg, vm, memory, cpus, vdiPath)) ==
      ["createvm", "modifyvm", "storagectl", "storageattach", "storagectl", "storageattach"]
  {
  }

  /** The disk image goes to SATA port 0 and the ISO to IDE port 1. */
  lemma SetupCommandsDisks(cfg: Config, vm: string, memory: string, cpus: string, vdiPath: Path)
    ensures var cmds := SetupCommands(cfg, vm, memory, cpus, vdiPath);
      && cmds[3][2..9] == [vm, "--storagectl", SataController, "--port", "0", "--device", "0"]
      && cmds[3][|cmds[3]| - 1] == vdiPath
      && cmds[5][2..9] == [vm, "--storagectl", IdeController, "--port", "1", "--device", "0"]
      && cmds[5][|cmds[5]| - 1] == cfg.isoPath
  {
  }

  /** The network step is one `modifyvm` for `bridged` or `nat` and nothing otherwise. */
  lemma NetworkCommandsShape(cfg: Config, vm: string, mode: string)
    ensures var cmds := NetworkCommands(cfg, vm, mode);
      && IssuedBy(cfg, cmds) && AllAbout(cmds, vm)
      && Subcommands(cmds) == (if mode == "bridged" || mode == "nat" then ["modifyvm"] else [])
  {
  }

  /**
   * `create_vm` issues six setup commands in a fixed order, then exactly one
   * network command for `bridged` or `nat` and none for any other mode; all
   * of them run VBoxManage on the new VM.
   */
  lemma CreateCommandsShape(cfg: Config, vm: string, memory: string, cpus: string, vdiPath: Path, mode: string)
    ensures var cmds := CreateCommands(cfg, vm, memory, cpus, vdiPath, mode);
      && |cmds| == (if mode == "bridged" || mode == "nat" then 7 else 6)
      && IssuedBy(cfg, cmds)
      && AllAbout(cmds, vm)
      && Subcommands(cmds) ==
           ["createvm", "modifyvm", "storagectl", "storageattach", "storagectl", "storageattach"]
           + (if mode == "bridged" || mode == "nat" then ["modifyvm"] else [])
  {
    var setup := SetupCommands(cfg, vm, memory, cpus, vdiPath);
    var net := NetworkCommands(cfg, vm, mode);
    SetupCommandsTarget(cfg, vm, memory, cpus, vdiPath);
    SetupCommandsOrder(cfg, vm, memory, cpus, vdiPath);
    NetworkCommandsShape(cfg, vm, mode);
    SubcommandsAppend(setup, net);
    IssuedByAppend(cfg, setup, net);
    AllAboutAppend(setup, net, vm);
  }

  /** The network step's command, when there is one, is the last one `create_vm` issues. */
  lemma NetworkCommandIsLast(cfg: Config, vm: string, memory: string, cpus: string, vdiPath: Path, mode: string)
    requires mode == "bridged" || mode == "nat"
    ensures var cmds := CreateCommands(cfg, vm, memory, cpus, vdiPath, mode);
      cmds[6][1..4] == ["modifyvm", vm, "--nic1"] && cmds[6][4] == mode
      && (mode == "bridged" <==> cfg.bridgeAdapter in cmds[6][5..])
  {
  }

  /** `access_vm_vrde` issues exactly three commands, all about the VM, in this order. */
  lemma ConsoleCommandsShape(cfg: Config, vm: string)
    ensures var cmds := ConsoleCommands(cfg, vm);
      && IssuedBy(cfg, cmds) && AllAbout(cmds, vm)
      && Subcommands(cmds) == ["modifyvm", "startvm", "guestproperty"]
  {
  }
}
