/**
 * The manager itself: the lifecycle operations as the host carries them out
 * (each recording the commands it issues), the `copy_directory` clone step
 * over a set of existing paths, and the `main_menu` loop that reads its
 * choices from a sequence of console lines.
 *
 * The host's methods are proved against the functions in the first half of
 * this module, which state what each step does to the world; the lemmas say
 * what those steps promise.
 */
module Manager {
  import opened Strings
  import opened Parsing
  import opened Select
  import opened VBox

  /** What a finished VBoxManage process reports. */
  datatype Completed = Completed(returnCode: int, stdout: string, stderr: string)

  /** How `shutil.copytree` ends: the paths that exist afterwards, or the exception it raised. */
  datatype CopyOutcome = Copied(after: set<Path>) | DestinationExists | CopyFailed

  /**
   * What the manager cannot see into: its settings, the answer of the n-th
   * command it issues, and the outcome of the n-th directory copy it
   * attempts, given the paths that exist then.
   */
  datatype Env = Env(
    cfg: Config,
    respond: (nat, Argv) -> Completed,
    copyTree: (nat, set<Path>, Path, Path) -> CopyOutcome)

  /** The commands issued so far, oldest first, the paths that exist, and the copies attempted. */
  datatype World = World(trace: seq<Argv>, paths: set<Path>, copies: nat)

  /** What `get_vm_ip` reports: the address, or the stripped error text. */
  datatype IpReport = Address(ip: string) | Failure(error: string)

  /** Why the menu loop stopped: option 7, or the console closed (`input()` raising EOFError). */
  datatype Exit = Quit | EndOfInput

  /** One round of the menu: go on reading at `pos`, or stop. */
  datatype Turn = Continue(w: World, pos: nat) | Halt(w: World, exit: Exit)

  // ---------------------------------------------------------------------------
  // What each step does to the world
  // ---------------------------------------------------------------------------

  /** The world after `cmds` are issued, in order. */
  function IssueAll(w: World, cmds: seq<Argv>): World {
    w.(trace := w.trace + cmds)
  }

  /** The answer to the next command issued in world `w`. */
  function Answer(env: Env, w: World, argv: Argv): Completed {
    env.respond(|w.trace|, argv)
  }

  /** `w2` continues `w` by commands that each run VBoxManage. */
  predicate Extends(cfg: Config, w: World, w2: World) {
    |w.trace| <= |w2.trace| && w2.trace[..|w.trace|] == w.trace && IssuedBy(cfg, w2.trace[|w.trace|..])
  }

  /** `get_vm_ip`'s reading of the `guestproperty get` answer. */
  function IpReportOf(c: Completed): IpReport {
    if c.returnCode == 0 then Address(ParseIp(c.stdout)) else Failure(Strip(c.stderr))
  }

  /** `delete_vm`: the unregister command, only when the answer confirms. */
  function DeleteCommands(cfg: Config, vm: string, answer: string): seq<Argv> {
    if ConfirmsDelete(answer) then [UnregisterArgv(cfg, vm)] else []
  }

  /**
   * `copy_directory`: nothing without the source; otherwise one more copy
   * attempted, and a new disk UUID when the copy succeeded and left the disk
   * image in place.
   */
  function Clone(env: Env, w: World, src: Path, dst: Path, vdiName: string): World {
    if src !in w.paths then w
    else
      var tried := w.(copies := w.copies + 1);
      match env.copyTree(w.copies, w.paths, src, dst)
        case Copied(after) =>
          var vdiPath := env.cfg.join(dst, vdiName);
          IssueAll(tried.(paths := after), if vdiPath in after then [SetUuidArgv(env.cfg, vdiPath)] else [])
        case DestinationExists => tried
        case CopyFailed => tried
  }

  /**
   * Option 2 once its four answers are read: clone the template, then create
   * and start the VM only if the cloned disk image exists.
   */
  function CreateFlow(env: Env, w: World, name: string, memory: string, cpus: string, netChoice: string): World {
    var dst := env.cfg.destinationDir(name);
    var w1 := Clone(env, w, env.cfg.sourceDir, dst, VdiFileName);
    var vdiPath := env.cfg.join(dst, VdiFileName);
    if vdiPath in w1.paths then
      IssueAll(w1, CreateCommands(env.cfg, name, memory, cpus, vdiPath, NetworkModeFor(netChoice)) + [StartArgv(env.cfg, name)])
    else w1
  }

  /** Options 3 to 6 once a VM is picked; `at` is the next unread line. */
  function ActOn(env: Env, w: World, choice: string, vm: string, inputs: seq<string>, at: nat): Turn
    requires at <= |inputs|
  {
    if choice == "3" then Continue(IssueAll(w, [StartArgv(env.cfg, vm)]), at)
    else if choice == "4" then Continue(IssueAll(w, [StopArgv(env.cfg, vm)]), at)
    else if choice == "5" then
      if at == |inputs| then Halt(w, EndOfInput)
      else Continue(IssueAll(w, DeleteCommands(env.cfg, vm, inputs[at])), at + 1)
    else Continue(IssueAll(w, ConsoleCommands(env.cfg, vm)), at)
  }

  /** Options 3 to 6 once the prompt is over: act on the VM picked, if any, whose name is not empty. */
  function Proceed(env: Env, w: World, choice: string, sel: Selection, inputs: seq<string>): Turn
    requires !sel.Exhausted? ==> sel.at < |inputs|
  {
    match sel
      case Exhausted => Halt(w, EndOfInput)
      case Back(i) => Continue(w, i + 1)
      case Picked(vm, i) => if vm == "" then Continue(w, i + 1) else ActOn(env, w, choice, vm, inputs, i + 1)
  }

  /**
   * Options 3 to 6: list the VMs; with none listed, back to the menu;
   * otherwise prompt from `pos` on and act on the VM picked, if any.
   */
  function PickAndAct(env: Env, w: World, choice: string, inputs: seq<string>, pos: nat): Turn
    requires pos <= |inputs|
  {
    var listing := ListingLines(Answer(env, w, ListArgv(env.cfg)).stdout);
    var w1 := IssueAll(w, [ListArgv(env.cfg)]);
    if listing == [] then Continue(w1, pos)
    else Proceed(env, w1, choice, Choose(listing, inputs, pos), inputs)
  }

  /** One round of `main_menu`, reading the choice at `inputs[pos]`. */
  function MenuTurn(env: Env, w: World, inputs: seq<string>, pos: nat): (t: Turn)
    requires pos < |inputs|
    ensures t.Continue? ==> pos < t.pos <= |inputs|
  {
    var choice := inputs[pos];
    if choice == "1" then Continue(IssueAll(w, [ListArgv(env.cfg)]), pos + 1)
    else if choice == "2" then
      if |inputs| < pos + 5 then Halt(w, EndOfInput)
      else Continue(CreateFlow(env, w, inputs[pos + 1], inputs[pos + 2], inputs[pos + 3], inputs[pos + 4]), pos + 5)
    else if choice in {"3", "4", "5", "6"} then PickAndAct(env, w, choice, inputs, pos + 1)
    else if choice == "7" then Halt(w, Quit)
    else Continue(w, pos + 1)
  }

  /**
   * The whole session from `inputs[pos]` on: rounds until option 7 or the end
   * of input. It always stops, and it stops by option 7 only when one of the
   * lines it reads is `7`.
   */
  function Session(env: Env, w: World, inputs: seq<string>, pos: nat): (r: Turn)
    requires pos <= |inputs|
    ensures r.Halt?
    ensures r.exit == Quit ==> exists i :: pos <= i < |inputs| && inputs[i] == "7"
    decreases |inputs| - pos
  {
    if pos == |inputs| then Halt(w, EndOfInput)
    else match MenuTurn(env, w, inputs, pos)
      case Continue(w1, next) => Session(env, w1, inputs, next)
      case Halt(w1, exit) => Halt(w1, exit)
  }

  // ---------------------------------------------------------------------------
  // What the steps promise
  // ---------------------------------------------------------------------------

  /**
   * `get_vm_ip` reports an address exactly when the command succeeded; the
   * address holds no `:` and no blanks around it, and a failure carries the
   * error output without its surrounding blanks.
   */
  lemma IpReportShape(c: Completed)
    ensures IpReportOf(c).Address? <==> c.returnCode == 0
    ensures IpReportOf(c).Address? ==> ':' !in IpReportOf(c).ip && Trimmed(IpReportOf(c).ip, Whitespace)
    ensures IpReportOf(c).Failure? ==> IpReportOf(c).error == Strip(c.stderr) && Trimmed(IpReportOf(c).error, Whitespace)
  {
    ParseIpShape(c.stdout);
    TrimSpec(c.stderr, Whitespace);
  }

  /**
   * `delete_vm` issues the unregister command once when the answer, blanks
   * around and letter case aside, is `yes`, and nothing otherwise.
   */
  lemma DeleteCommandsIff(cfg: Config, vm: string, answer: string)
    ensures var t := Strip(answer);
      DeleteCommands(cfg, vm, answer) ==
        if |t| == 3 && t[0] in {'y', 'Y'} && t[1] in {'e', 'E'} && t[2] in {'s', 'S'}
        then [UnregisterArgv(cfg, vm)] else []
  {
    ConfirmsDeleteIff(answer);
  }

  /**
   * `copy_directory` issues at most one command, a new UUID for the cloned
   * disk image, and only when the source exists, the copy succeeds and the
   * image is there afterwards. A missing source changes nothing; otherwise one
   * copy is attempted, and a failed copy changes nothing else.
   */
  lemma CloneCommands(env: Env, w: World, src: Path, dst: Path, vdiName: string)
    ensures var w2 := Clone(env, w, src, dst, vdiName);
      var outcome := env.copyTree(w.copies, w.paths, src, dst);
      var vdiPath := env.cfg.join(dst, vdiName);
      && (src !in w.paths ==> w2 == w)
      && (src in w.paths ==> w2.copies == w.copies + 1)
      && (src in w.paths && !outcome.Copied? ==> w2 == w.(copies := w.copies + 1))
      && (src in w.paths && outcome.Copied? ==> w2.paths == outcome.after)
      && w2.trace == w.trace +
           (if src in w.paths && outcome.Copied? && vdiPath in outcome.after then [SetUuidArgv(env.cfg, vdiPath)] else [])
  {
    if src !in w.paths || !env.copyTree(w.copies, w.paths, src, dst).Copied? {
      assert w.trace + [] == w.trace;
    }
  }

  lemma ExtendsIssueAll(cfg: Config, w: World, cmds: seq<Argv>)
    requires IssuedBy(cfg, cmds)
    ensures Extends(cfg, w, IssueAll(w, cmds))
  {
    assert (w.trace + cmds)[|w.trace|..] == cmds;
  }

  lemma ExtendsRefl(cfg: Config, w: World)
    ensures Extends(cfg, w, w)
  {
    assert w.trace[..|w.trace|] == w.trace;
  }

  lemma ExtendsTrans(cfg: Config, a: World, b: World, c: World)
    requires Extends(cfg, a, b) && Extends(cfg, b, c)
    ensures Extends(cfg, a, c)
  {
    var n := |a.trace|;
    var m := |b.trace|;
    assert c.trace[..n] == c.trace[..m][..n];
    assert c.trace[n..] == b.trace[n..] + c.trace[m..];
    IssuedByAppend(cfg, b.trace[n..], c.trace[m..]);
  }

  // ---------------------------------------------------------------------------
  // How the menu gates the operations
  // ---------------------------------------------------------------------------

  /** Option 7 ends the session with nothing more issued. */
  lemma QuitEndsSession(env: Env, w: World, inputs: seq<string>, pos: nat)
    requires pos < |inputs| && inputs[pos] == "7"
    ensures Session(env, w, inputs, pos) == Halt(w, Quit)
  {
  }

  /** A choice other than 1 to 7 issues nothing and reads the next line as a choice. */
  lemma UnknownChoiceIgnored(env: Env, w: World, inputs: seq<string>, pos: nat)
    requires pos < |inputs| && inputs[pos] !in {"1", "2", "3", "4", "5", "6", "7"}
    ensures Session(env, w, inputs, pos) == Session(env, w, inputs, pos + 1)
  {
    assert MenuTurn(env, w, inputs, pos) == Continue(w, pos + 1);
  }

  /** Options 3 to 6 with no VM listed: only the listing is issued, and no VM is asked for. */
  lemma EmptyListingSkipsSelection(env: Env, w: World, inputs: seq<string>, pos: nat)
    requires pos < |inputs| && inputs[pos] in {"3", "4", "5", "6"}
    requires ListingLines(Answer(env, w, ListArgv(env.cfg)).stdout) == []
    ensures MenuTurn(env, w, inputs, pos) == Continue(IssueAll(w, [ListArgv(env.cfg)]), pos + 1)
  {
  }

  /**
   * Options 3 to 6 when the prompt ends in `back`, or picks a line whose name
   * is empty: only the listing is issued, and the menu reads on after that line.
   */
  lemma CancelIssuesNoLifecycleCommand(env: Env, w: World, inputs: seq<string>, pos: nat)
    requires pos < |inputs| && inputs[pos] in {"3", "4", "5", "6"}
    requires var listing := ListingLines(Answer(env, w, ListArgv(env.cfg)).stdout);
      var sel := Choose(listing, inputs, pos + 1);
      listing != [] && (sel.Back? || (sel.Picked? && sel.name == ""))
    ensures var listing := ListingLines(Answer(env, w, ListArgv(env.cfg)).stdout);
      MenuTurn(env, w, inputs, pos) == Continue(IssueAll(w, [ListArgv(env.cfg)]), Choose(listing, inputs, pos + 1).at + 1)
  {
  }

  /** Option 3 or 4 followed by a listed VM's number starts, or stops, that VM. */
  lemma StartStopByNumber(env: Env, w: World, inputs: seq<string>, pos: nat, k: nat)
    requires pos + 1 < |inputs| && inputs[pos] in {"3", "4"}
    requires var listing := ListingLines(Answer(env, w, ListArgv(env.cfg)).stdout);
      1 <= k <= |listing| && inputs[pos + 1] == Decimal(k) && |Decimal(k)| <= MaxStrDigits && VmName(listing[k - 1]) != ""
    ensures var listing := ListingLines(Answer(env, w, ListArgv(env.cfg)).stdout);
      var vm := VmName(listing[k - 1]);
      MenuTurn(env, w, inputs, pos) ==
        Continue(IssueAll(w, [ListArgv(env.cfg), if inputs[pos] == "3" then StartArgv(env.cfg, vm) else StopArgv(env.cfg, vm)]), pos + 2)
  {
    var listing := ListingLines(Answer(env, w, ListArgv(env.cfg)).stdout);
    ChooseByNumber(listing, k, inputs, pos + 1);
    assert [ListArgv(env.cfg)] + [StartArgv(env.cfg, VmName(listing[k - 1]))] == [ListArgv(env.cfg), StartArgv(env.cfg, VmName(listing[k - 1]))];
    assert [ListArgv(env.cfg)] + [StopArgv(env.cfg, VmName(listing[k - 1]))] == [ListArgv(env.cfg), StopArgv(env.cfg, VmName(listing[k - 1]))];
  }

  /**
   * Option 5 followed by a listed VM's number reads one more line, the
   * confirmation, and unregisters that VM only if the line confirms.
   */
  lemma DeleteByNumber(env: Env, w: World, inputs: seq<string>, pos: nat, k: nat)
    requires pos + 2 < |inputs| && inputs[pos] == "5"
    requires var listing := ListingLines(Answer(env, w, ListArgv(env.cfg)).stdout);
      1 <= k <= |listing| && inputs[pos + 1] == Decimal(k) && |Decimal(k)| <= MaxStrDigits && VmName(listing[k - 1]) != ""
    ensures var listing := ListingLines(Answer(env, w, ListArgv(env.cfg)).stdout);
      var vm := VmName(listing[k - 1]);
      MenuTurn(env, w, inputs, pos) ==
        Continue(IssueAll(w, [ListArgv(env.cfg)] + DeleteCommands(env.cfg, vm, inputs[pos + 2])), pos + 3)
  {
    var listing := ListingLines(Answer(env, w, ListArgv(env.cfg)).stdout);
    var vm := VmName(listing[k - 1]);
    var w1 := IssueAll(w, [ListArgv(env.cfg)]);
    var cmds := DeleteCommands(env.cfg, vm, inputs[pos + 2]);
    ChooseByNumber(listing, k, inputs, pos + 1);
    assert ActOn(env, w1, "5", vm, inputs, pos + 2) == Continue(IssueAll(w1, cmds), pos + 3);
    assert PickAndAct(env, w, "5", inputs, pos + 1) == ActOn(env, w1, "5", vm, inputs, pos + 2);
    assert IssueAll(w1, cmds) == IssueAll(w, [ListArgv(env.cfg)] + cmds);
  }

  /** Option 6 followed by a listed VM's number enables VRDE, starts the VM and asks for its address. */
  lemma ConsoleByNumber(env: Env, w: World, inputs: seq<string>, pos: nat, k: nat)
    requires pos + 1 < |inputs| && inputs[pos] == "6"
    requires var listing := ListingLines(Answer(env, w, ListArgv(env.cfg)).stdout);
      1 <= k <= |listing| && inputs[pos + 1] == Decimal(k) && |Decimal(k)| <= MaxStrDigits && VmName(listing[k - 1]) != ""
    ensures var listing := ListingLines(Answer(env, w, ListArgv(env.cfg)).stdout);
      MenuTurn(env, w, inputs, pos) ==
        Continue(IssueAll(w, [ListArgv(env.cfg)] + ConsoleCommands(env.cfg, VmName(listing[k - 1]))), pos + 2)
  {
    var listing := ListingLines(Answer(env, w, ListArgv(env.cfg)).stdout);
    ChooseByNumber(listing, k, inputs, pos + 1);
  }

  /**
   * Option 2 once its answers are read clones the template, and then creates
   * and starts the VM only if the cloned disk image exists: eight commands,
   * the network one bridged exactly for choice `2`, the disk being the cloned
   * image and the last command starting the VM.
   */
  lemma CreateFlowCommands(env: Env, w: World, name: string, memory: string, cpus: string, netChoice: string)
    ensures var dst := env.cfg.destinationDir(name);
      var w1 := Clone(env, w, env.cfg.sourceDir, dst, VdiFileName);
      var vdiPath := env.cfg.join(dst, VdiFileName);
      var w2 := CreateFlow(env, w, name, memory, cpus, netChoice);
      && w2.paths == w1.paths
      && (vdiPath !in w1.paths ==> w2 == w1)
      && (vdiPath in w1.paths ==>
            var added := w2.trace[|w1.trace|..];
            && w2.trace == w1.trace + added
            && |added| == 8 && IssuedBy(env.cfg, added)
            && Subcommands(added) ==
                 ["createvm", "modifyvm", "storagectl", "storageattach", "storagectl", "storageattach", "modifyvm", "startvm"]
            && added[3][|added[3]| - 1] == vdiPath
            && |added[6]| > 4 && added[6][4] == (if netChoice == "2" then "bridged" else "nat")
            && added[7] == StartArgv(env.cfg, name))
  {
    var dst := env.cfg.destinationDir(name);
    var w1 := Clone(env, w, env.cfg.sourceDir, dst, VdiFileName);
    var vdiPath := env.cfg.join(dst, VdiFileName);
    if vdiPath in w1.paths {
      var mode := NetworkModeFor(netChoice);
      var create := CreateCommands(env.cfg, name, memory, cpus, vdiPath, mode);
      var added := create + [StartArgv(env.cfg, name)];
      CreateCommandsShape(env.cfg, name, memory, cpus, vdiPath, mode);
      SetupCommandsDisks(env.cfg, name, memory, cpus, vdiPath);
      NetworkCommandIsLast(env.cfg, name, memory, cpus, vdiPath, mode);
      SubcommandsAppend(create, [StartArgv(env.cfg, name)]);
      IssuedByAppend(env.cfg, create, [StartArgv(env.cfg, name)]);
      assert (w1.trace + added)[|w1.trace|..] == added;
    }
  }

  /**
   * Option 2 reads four more lines (name, memory, CPU count, network choice)
   * and carries out the creation with them; with fewer lines left, the
   * session ends.
   */
  lemma CreateReadsFourAnswers(env: Env, w: World, inputs: seq<string>, pos: nat)
    requires pos < |inputs| && inputs[pos] == "2"
    ensures var t := MenuTurn(env, w, inputs, pos);
      && (pos + 4 < |inputs| ==>
            t == Continue(CreateFlow(env, w, inputs[pos + 1], inputs[pos + 2], inputs[pos + 3], inputs[pos + 4]), pos + 5))
      && (pos + 4 >= |inputs| ==> t == Halt(w, EndOfInput))
  {
  }

  // ---------------------------------------------------------------------------
  // Deletions need confirmations
  // ---------------------------------------------------------------------------

  /** How many of `cmds` unregister (and delete) a VM. */
  function Unregisters(cmds: seq<Argv>): nat {
    if cmds == [] then 0
    else (if |cmds[0]| >= 2 && cmds[0][1] == "unregistervm" then 1 else 0) + Unregisters(cmds[1..])
  }

  /** How many of `lines` confirm a deletion. */
  function Confirmations(lines: seq<string>): nat {
    if lines == [] then 0
    else (if ConfirmsDelete(lines[0]) then 1 else 0) + Confirmations(lines[1..])
  }

  /** Where the menu reads on after a round: its next position, or the end of the input. */
  function TurnEnd(t: Turn, inputs: seq<string>): nat {
    if t.Continue? then t.pos else |inputs|
  }

  lemma {:induction false} UnregistersAppend(a: seq<Argv>, b: seq<Argv>)
    ensures Unregisters(a + b) == Unregisters(a) + Unregisters(b)
    decreases |a|
  {
    if a == [] {
      assert a + b == b;
    } else {
      assert (a + b)[1..] == a[1..] + b;
      UnregistersAppend(a[1..], b);
    }
  }

  lemma {:induction false} ConfirmationsAppend(a: seq<string>, b: seq<string>)
    ensures Confirmations(a + b) == Confirmations(a) + Confirmations(b)
    decreases |a|
  {
    if a == [] {
      assert a + b == b;
    } else {
      assert (a + b)[1..] == a[1..] + b;
      ConfirmationsAppend(a[1..], b);
    }
  }

  lemma ConfirmationsSplit(lines: seq<string>, i: nat, j: nat, k: nat)
    requires i <= j <= k <= |lines|
    ensures Confirmations(lines[i..k]) == Confirmations(lines[i..j]) + Confirmations(lines[j..k])
  {
    assert lines[i..k] == lines[i..j] + lines[j..k];
    ConfirmationsAppend(lines[i..j], lines[j..k]);
  }

  /** None of `cmds` unregisters a VM. */
  predicate NoUnregister(cmds: seq<Argv>) {
    forall i :: 0 <= i < |cmds| && |cmds[i]| >= 2 ==> cmds[i][1] != "unregistervm"
  }

  lemma {:induction false} NoUnregisters(cmds: seq<Argv>)
    requires NoUnregister(cmds)
    ensures Unregisters(cmds) == 0
    decreases |cmds|
  {
    if cmds != [] {
      NoUnregisters(cmds[1..]);
    }
  }

  lemma NoUnregisterAppend(a: seq<Argv>, b: seq<Argv>)
    requires NoUnregister(a) && NoUnregister(b)
    ensures NoUnregister(a + b)
  {
    assert forall i :: |a| <= i < |a + b| ==> (a + b)[i] == b[i - |a|];
  }

  lemma NoUnregisterBySubcommands(cmds: seq<Argv>)
    requires forall i :: 0 <= i < |cmds| ==> |cmds[i]| >= 2
    requires "unregistervm" !in Subcommands(cmds)
    ensures NoUnregister(cmds)
  {
    assert forall i :: 0 <= i < |cmds| ==> cmds[i][1] == Subcommands(cmds)[i];
  }

  /** `w2` continues `w` by VBoxManage commands of which at most `n` unregister a VM. */
  predicate DeletesAtMost(cfg: Config, w: World, w2: World, n: nat) {
    Extends(cfg, w, w2) && Unregisters(w2.trace[|w.trace|..]) <= n
  }

  lemma NoDeletionByIssuing(cfg: Config, w: World, cmds: seq<Argv>)
    requires IssuedBy(cfg, cmds) && NoUnregister(cmds)
    ensures DeletesAtMost(cfg, w, IssueAll(w, cmds), 0)
  {
    ExtendsIssueAll(cfg, w, cmds);
    assert (w.trace + cmds)[|w.trace|..] == cmds;
    NoUnregisters(cmds);
  }

  lemma NoDeletionRefl(cfg: Config, w: World)
    ensures DeletesAtMost(cfg, w, w, 0)
  {
    ExtendsRefl(cfg, w);
    assert w.trace[|w.trace|..] == [];
  }

  lemma DeletesTrans(cfg: Config, a: World, b: World, c: World, n: nat, m: nat)
    requires DeletesAtMost(cfg, a, b, n) && DeletesAtMost(cfg, b, c, m)
    ensures DeletesAtMost(cfg, a, c, n + m)
  {
    ExtendsTrans(cfg, a, b, c);
    assert c.trace[|a.trace|..] == b.trace[|a.trace|..] + c.trace[|b.trace|..];
    UnregistersAppend(b.trace[|a.trace|..], c.trace[|b.trace|..]);
  }

  lemma CloneDeletesNothing(env: Env, w: World, src: Path, dst: Path, vdiName: string)
    ensures DeletesAtMost(env.cfg, w, Clone(env, w, src, dst, vdiName), 0)
  {
    var w1 := Clone(env, w, src, dst, vdiName);
    CloneCommands(env, w, src, dst, vdiName);
    var cloned := w1.trace[|w.trace|..];
    assert w1 == IssueAll(w1.(trace := w.trace), cloned);
    NoDeletionByIssuing(env.cfg, w1.(trace := w.trace), cloned);
  }

  /** What option 2 issues after the clone: VBoxManage commands, none of them unregistering. */
  lemma CreateAndStartNoDeletion(cfg: Config, name: string, memory: string, cpus: string, vdiPath: Path, mode: string)
    ensures var added := CreateCommands(cfg, name, memory, cpus, vdiPath, mode) + [StartArgv(cfg, name)];
      IssuedBy(cfg, added) && NoUnregister(added)
  {
    var create := CreateCommands(cfg, name, memory, cpus, vdiPath, mode);
    CreateCommandsShape(cfg, name, memory, cpus, vdiPath, mode);
    NoUnregisterBySubcommands(create);
    NoUnregisterAppend(create, [StartArgv(cfg, name)]);
    IssuedByAppend(cfg, create, [StartArgv(cfg, name)]);
  }

  /** Option 2 never unregisters a VM. */
  lemma CreateFlowDeletesNothing(env: Env, w: World, name: string, memory: string, cpus: string, netChoice: string)
    ensures DeletesAtMost(env.cfg, w, CreateFlow(env, w, name, memory, cpus, netChoice), 0)
  {
    var dst := env.cfg.destinationDir(name);
    var w1 := Clone(env, w, env.cfg.sourceDir, dst, VdiFileName);
    var vdiPath := env.cfg.join(dst, VdiFileName);
    CloneDeletesNothing(env, w, env.cfg.sourceDir, dst, VdiFileName);
    if vdiPath in w1.paths {
      var added := CreateCommands(env.cfg, name, memory, cpus, vdiPath, NetworkModeFor(netChoice)) + [StartArgv(env.cfg, name)];
      CreateAndStartNoDeletion(env.cfg, name, memory, cpus, vdiPath, NetworkModeFor(netChoice));
      NoDeletionByIssuing(env.cfg, w1, added);
      assert CreateFlow(env, w, name, memory, cpus, netChoice) == IssueAll(w1, added);
      DeletesTrans(env.cfg, w, w1, IssueAll(w1, added), 0, 0);
    }
  }

  /** Option 5 with an answer to read: one deletion at most, and only if that answer confirms. */
  lemma DeleteAnswerDeletions(cfg: Config, w: World, vm: string, inputs: seq<string>, at: nat)
    requires at < |inputs|
    ensures DeletesAtMost(cfg, w, IssueAll(w, DeleteCommands(cfg, vm, inputs[at])), Confirmations(inputs[at..at + 1]))
  {
    var cmds := DeleteCommands(cfg, vm, inputs[at]);
    ExtendsIssueAll(cfg, w, cmds);
    assert (w.trace + cmds)[|w.trace|..] == cmds;
    assert inputs[at..at + 1] == [inputs[at]];
    assert Confirmations([inputs[at]]) == (if ConfirmsDelete(inputs[at]) then 1 else 0);
  }

  /** Acting on a picked VM unregisters it at most once, and only after a confirming line. */
  lemma ActOnDeletions(env: Env, w: World, choice: string, vm: string, inputs: seq<string>, at: nat)
    requires at <= |inputs|
    ensures var t := ActOn(env, w, choice, vm, inputs, at);
      at <= TurnEnd(t, inputs) <= |inputs| && DeletesAtMost(env.cfg, w, t.w, Confirmations(inputs[at..TurnEnd(t, inputs)]))
  {
    var t := ActOn(env, w, choice, vm, inputs, at);
    if choice == "5" && at < |inputs| {
      DeleteAnswerDeletions(env.cfg, w, vm, inputs, at);
    } else if choice == "5" || choice == "3" || choice == "4" {
      if t.w == w {
        NoDeletionRefl(env.cfg, w);
      } else {
        NoDeletionByIssuing(env.cfg, w, t.w.trace[|w.trace|..]);
      }
    } else {
      ConsoleCommandsShape(env.cfg, vm);
      NoDeletionByIssuing(env.cfg, w, ConsoleCommands(env.cfg, vm));
    }
  }

  lemma PickAndActDeletions(env: Env, w: World, choice: string, inputs: seq<string>, pos: nat)
    requires pos <= |inputs|
    ensures var t := PickAndAct(env, w, choice, inputs, pos);
      pos <= TurnEnd(t, inputs) <= |inputs| && DeletesAtMost(env.cfg, w, t.w, Confirmations(inputs[pos..TurnEnd(t, inputs)]))
  {
    var t := PickAndAct(env, w, choice, inputs, pos);
    var w1 := IssueAll(w, [ListArgv(env.cfg)]);
    NoDeletionByIssuing(env.cfg, w, [ListArgv(env.cfg)]);
    var listing := ListingLines(Answer(env, w, ListArgv(env.cfg)).stdout);
    var sel := if listing == [] then Exhausted else Choose(listing, inputs, pos);
    var end := TurnEnd(t, inputs);
    if sel.Picked? && sel.name != "" {
      var at := sel.at + 1;
      assert t == ActOn(env, w1, choice, sel.name, inputs, at);
      ActOnDeletions(env, w1, choice, sel.name, inputs, at);
      DeletesTrans(env.cfg, w, w1, t.w, 0, Confirmations(inputs[at..end]));
      ConfirmationsSplit(inputs, pos, at, end);
    } else {
      assert t.w == w1 && pos <= end;
    }
  }

  /** A round of the menu unregisters no more VMs than the lines it read confirm. */
  lemma MenuTurnDeletions(env: Env, w: World, inputs: seq<string>, pos: nat)
    requires pos < |inputs|
    ensures var t := MenuTurn(env, w, inputs, pos);
      pos <= TurnEnd(t, inputs) <= |inputs| && DeletesAtMost(env.cfg, w, t.w, Confirmations(inputs[pos..TurnEnd(t, inputs)]))
  {
    var choice := inputs[pos];
    if choice == "1" {
      NoDeletionByIssuing(env.cfg, w, [ListArgv(env.cfg)]);
    } else if choice == "2" && |inputs| >= pos + 5 {
      CreateFlowDeletesNothing(env, w, inputs[pos + 1], inputs[pos + 2], inputs[pos + 3], inputs[pos + 4]);
    } else if choice in {"3", "4", "5", "6"} {
      PickAndActDeletions(env, w, choice, inputs, pos + 1);
      var t := MenuTurn(env, w, inputs, pos);
      ConfirmationsSplit(inputs, pos, pos + 1, TurnEnd(t, inputs));
    } else {
      NoDeletionRefl(env.cfg, w);
    }
  }

  /**
   * Over a whole session, the manager unregisters (and deletes) no more VMs
   * than there are console lines confirming a deletion.
   */
  lemma {:induction false} SessionDeletions(env: Env, w: World, inputs: seq<string>, pos: nat)
    requires pos <= |inputs|
    ensures DeletesAtMost(env.cfg, w, Session(env, w, inputs, pos).w, Confirmations(inputs[pos..]))
    decreases |inputs| - pos
  {
    if pos == |inputs| {
      NoDeletionRefl(env.cfg, w);
    } else {
      var t := MenuTurn(env, w, inputs, pos);
      MenuTurnDeletions(env, w, inputs, pos);
      var end := TurnEnd(t, inputs);
      ConfirmationsSplit(inputs, pos, end, |inputs|);
      assert inputs[pos..|inputs|] == inputs[pos..];
      assert inputs[end..|inputs|] == inputs[end..];
      if t.Continue? {
        SessionDeletions(env, t.w, inputs, t.pos);
        DeletesTrans(env.cfg, w, t.w, Session(env, t.w, inputs, t.pos).w, Confirmations(inputs[pos..end]), Confirmations(inputs[end..]));
      }
    }
  }

  /**
   * A whole session keeps what was issued before it and adds only commands
   * that run the configured VBoxManage.
   */
  lemma SessionExtends(env: Env, w: World, inputs: seq<string>, pos: nat)
    requires pos <= |inputs|
    ensures Extends(env.cfg, w, Session(env, w, inputs, pos).w)
  {
    SessionDeletions(env, w, inputs, pos);
  }

  // ---------------------------------------------------------------------------
  // The host
  // ---------------------------------------------------------------------------

  /** The machine the manager runs on: the commands it has issued, the paths that exist and the copies it attempted. */
  class Host {
    const env: Env
    var trace: seq<Argv>
    var paths: set<Path>
    var copies: nat

    function State(): World
      reads this
    {
      World(trace, paths, copies)
    }

    constructor (env: Env, paths: set<Path>)
      ensures this.env == env && State() == World([], paths, 0)
    {
      this.env := env;
      this.trace := [];
      this.paths := paths;
      this.copies := 0;
    }

    /** `subprocess.run`: issue one command and collect what it reports. */
    method Run(argv: Argv) returns (c: Completed)
      modifies this
      ensures State() == IssueAll(old(State()), [argv])
      ensures c == Answer(env, old(State()), argv)
    {
      c := env.respond(|trace|, argv);
      trace := trace + [argv];
    }

    /** Issue `cmds` one after the other, whatever each reports. */
    method RunAll(cmds: seq<Argv>)
      modifies this
      ensures State() == IssueAll(old(State()), cmds)
    {
      for i := 0 to |cmds|
        invariant State() == IssueAll(old(State()), cmds[..i])
      {
        var c := Run(cmds[i]);
        assert cmds[..i + 1] == cmds[..i] + [cmds[i]];
      }
      assert cmds[..|cmds|] == cmds;
    }

    /** `list_vms`: the raw lines of the listing, as the menu keeps them. */
    method ListVms() returns (vms: seq<string>)
      modifies this
      ensures State() == IssueAll(old(State()), [ListArgv(env.cfg)])
      ensures vms == ListingLines(Answer(env, old(State()), ListArgv(env.cfg)).stdout)
    {
      var result := Run(ListArgv(env.cfg));
      vms := Lines(Strip(result.stdout));
    }

    /** `copy_directory`. */
    method CopyDirectory(src: Path, dst: Path, vdiName: string)
      modifies this
      ensures State() == Clone(env, old(State()), src, dst, vdiName)
    {
      if src in paths {
        var outcome := env.copyTree(copies, paths, src, dst);
        copies := copies + 1;
        match outcome {
          case Copied(after) =>
            paths := after;
            var vdiPath := env.cfg.join(dst, vdiName);
            if vdiPath in paths {
              var c := Run(SetUuidArgv(env.cfg, vdiPath));
            }
          case DestinationExists =>
          case CopyFailed =>
        }
      }
    }

    /** `enable_vrde`. */
    method EnableVrde(vm: string)
      modifies this
      ensures State() == IssueAll(old(State()), [VrdeOnArgv(env.cfg, vm)])
    {
      var c := Run(VrdeOnArgv(env.cfg, vm));
    }

    /** `start_vm`. */
    method StartVm(vm: string)
      modifies this
      ensures State() == IssueAll(old(State()), [StartArgv(env.cfg, vm)])
    {
      var c := Run(StartArgv(env.cfg, vm));
    }

    /** `stop_vm`. */
    method StopVm(vm: string)
      modifies this
      ensures State() == IssueAll(old(State()), [StopArgv(env.cfg, vm)])
    {
      var c := Run(StopArgv(env.cfg, vm));
    }

    /** `delete_vm`, given the line typed at its confirmation prompt. */
    method DeleteVm(vm: string, answer: string)
      modifies this
      ensures State() == IssueAll(old(State()), DeleteCommands(env.cfg, vm, answer))
    {
      var confirm := Lower(Strip(answer));
      if confirm == "yes" {
        var c := Run(UnregisterArgv(env.cfg, vm));
      } else {
        assert DeleteCommands(env.cfg, vm, answer) == [];
        assert trace + [] == trace;
      }
    }

    /** `get_vm_ip` (the boot wait left out). */
    method GetVmIp(vm: string) returns (report: IpReport)
      modifies this
      ensures State() == IssueAll(old(State()), [GuestIpArgv(env.cfg, vm)])
      ensures report == IpReportOf(Answer(env, old(State()), GuestIpArgv(env.cfg, vm)))
    {
      var result := Run(GuestIpArgv(env.cfg, vm));
      if result.returnCode == 0 {
        report := Address(ParseIp(result.stdout));
      } else {
        report := Failure(Strip(result.stderr));
      }
    }

    /** `access_vm_vrde`: enable VRDE, start headless, then read the address. */
    method AccessVmVrde(vm: string) returns (report: IpReport)
      modifies this
      ensures State() == IssueAll(old(State()), ConsoleCommands(env.cfg, vm))
      ensures report == IpReportOf(env.respond(|old(trace)| + 2, GuestIpArgv(env.cfg, vm)))
    {
      EnableVrde(vm);
      StartVm(vm);
      report := GetVmIp(vm);
    }

    /** `create_vm`: every step issued in order, none depending on an earlier step's answer. */
    method CreateVm(vm: string, memory: string, cpus: string, vdiPath: Path, mode: string)
      modifies this
      ensures State() == IssueAll(old(State()), CreateCommands(env.cfg, vm, memory, cpus, vdiPath, mode))
    {
      RunAll(SetupCommands(env.cfg, vm, memory, cpus, vdiPath));
      if mode == "bridged" {
        var c := Run(BridgedArgv(env.cfg, vm));
      } else if mode == "nat" {
        var c := Run(NatArgv(env.cfg, vm));
      }
    }

    /** Option 2 of the menu, once its four answers are read. */
    method CreateOption(name: string, memory: string, cpus: string, netChoice: string)
      modifies this
      ensures State() == CreateFlow(env, old(State()), name, memory, cpus, netChoice)
    {
      var mode := NetworkModeFor(netChoice);
      var dst := env.cfg.destinationDir(name);
      CopyDirectory(env.cfg.sourceDir, dst, VdiFileName);
      var vdiPath := env.cfg.join(dst, VdiFileName);
      if vdiPath in paths {
        CreateVm(name, memory, cpus, vdiPath, mode);
        StartVm(name);
      }
    }

    /** Options 3 to 6 once a VM is picked; `at` is the next unread line. */
    method ActOnPicked(choice: string, vm: string, inputs: seq<string>, at: nat) returns (t: Turn)
      requires at <= |inputs|
      modifies this
      ensures t == ActOn(env, old(State()), choice, vm, inputs, at) && State() == t.w
    {
      if choice == "3" {
        StartVm(vm);
      } else if choice == "4" {
        StopVm(vm);
      } else if choice == "5" {
        if at == |inputs| {
          return Halt(State(), EndOfInput);
        }
        DeleteVm(vm, inputs[at]);
        return Continue(State(), at + 1);
      } else {
        var report := AccessVmVrde(vm);
      }
      return Continue(State(), at);
    }

    /** Options 3 to 6 once the prompt is over. */
    method ProceedWith(choice: string, selection: Selection, inputs: seq<string>) returns (t: Turn)
      requires !selection.Exhausted? ==> selection.at < |inputs|
      modifies this
      ensures t == Proceed(env, old(State()), choice, selection, inputs) && State() == t.w
    {
      match selection {
        case Exhausted =>
          t := Halt(State(), EndOfInput);
        case Back(i) =>
          t := Continue(State(), i + 1);
        case Picked(vm, i) =>
          if vm == "" {
            t := Continue(State(), i + 1);
          } else {
            t := ActOnPicked(choice, vm, inputs, i + 1);
          }
      }
    }

    /** Options 3 to 6 of the menu, prompting from `inputs[pos]` on. */
    method PickOption(choice: string, inputs: seq<string>, pos: nat) returns (t: Turn)
      requires pos <= |inputs|
      modifies this
      ensures t == PickAndAct(env, old(State()), choice, inputs, pos) && State() == t.w
    {
      var vms := ListVms();
      if vms == [] {
        return Continue(State(), pos);
      }
      var selection := SelectVm(vms, inputs, pos);
      t := ProceedWith(choice, selection, inputs);
    }

    /** One round of the menu, reading the choice at `inputs[pos]`. */
    method Dispatch(inputs: seq<string>, pos: nat) returns (t: Turn)
      requires pos < |inputs|
      modifies this
      ensures t == MenuTurn(env, old(State()), inputs, pos) && State() == t.w
    {
      var choice := inputs[pos];
      if choice == "1" {
        var vms := ListVms();
        t := Continue(State(), pos + 1);
      } else if choice == "2" {
        if |inputs| < pos + 5 {
          return Halt(State(), EndOfInput);
        }
        CreateOption(inputs[pos + 1], inputs[pos + 2], inputs[pos + 3], inputs[pos + 4]);
        t := Continue(State(), pos + 5);
      } else if choice in {"3", "4", "5", "6"} {
        t := PickOption(choice, inputs, pos + 1);
      } else if choice == "7" {
        t := Halt(State(), Quit);
      } else {
        t := Continue(State(), pos + 1);
      }
    }

    /** `main_menu`: rounds of the menu over the console lines, until option 7 or their end. */
    method MainMenu(inputs: seq<string>) returns (exit: Exit)
      modifies this
      ensures Halt(State(), exit) == Session(env, old(State()), inputs, 0)
    {
      var pos := 0;
      while pos < |inputs|
        invariant pos <= |inputs|
        invariant Session(env, old(State()), inputs, 0) == Session(env, State(), inputs, pos)
        decreases |inputs| - pos
      {
        var t := Dispatch(inputs, pos);
        if t.Halt? {
          return t.exit;
        }
        pos := t.pos;
      }
      return EndOfInput;
    }
  }
}
