# VM Remote Access — a verified model

`VM_Remote_access.py` is a console menu that drives VirtualBox through its
`VBoxManage` command-line tool. It can list the registered VMs, clone a
template VM directory and create a new VM from the cloned disk image, start or
stop a VM headless, delete a VM after a `yes`, and enable VRDE on a VM and
read its guest IP address.

This project models the logic of that script in Dafny and proves what it
promises:

- **Strings** (`strings.dfy`): the Python string operations the script uses,
  restricted to ASCII:
  - `str.strip()` and `str.strip(chars)`;
  - `str.split(sep)` and the matching join;
  - `str.splitlines()` with line feeds as the only break;
  - `str.lower()`;
  - `int(str)`: C blanks (space, tab to carriage return) around, an optional
    sign, then decimal digits.
- **Parsing** (`parsing.dfy`): what the script reads out of text:
  - the lines of a `list vms` listing;
  - the VM name on a listing line;
  - the address in a `guestproperty get` reply;
  - how one console line answers the VM prompt;
  - the deletion confirmation;
  - the network-mode choice.
- **Select** (`select.dfy`): the `select_vm` retry loop over a sequence of
  console lines (a `while` method), proved against a specification function.
- **VBox** (`vbox.dfy`): every VBoxManage command line the script issues, and
  the fixed sequences that `create_vm` and `access_vm_vrde` issue.
- **Manager** (`manager.dfy`): the host.
  - The class `Host` holds the trace of issued commands, the set of
    existing paths and the number of copies attempted so far.
  - Its methods carry out each operation and the `main_menu` loop step by
    step.
  - Each method is proved equal to a function that says what the step does to
    the world `(trace, paths, copies)`.
  - Lemmas about those functions state how the menu gates each operation.
    Over a whole session, no more VMs are unregistered than there are
    console lines confirming a deletion.

What lies outside the script is a parameter:

- The settings the script hard-codes as empty placeholders: the VBoxManage
  path, the template and clone directories, the ISO, the bridged adapter.
- `os.path.join`.
- What the n-th command reports (return code, stdout, stderr).
- The outcome of `shutil.copytree`.
- The console input: a sequence of lines. The session ends with option 7, or
  when the lines run out, as an uncaught `EOFError` would end it.

## Model

| member | source | states |
|---|---|---|
| Strings.Trim | VM_Remote_access.py:22 | Python's `s.strip(chars)`; what it computes is stated by TrimSpec, TrimOfPadded and TrimKeepsOut |
| Strings.Strip | VM_Remote_access.py:18 | Python's `s.strip()`, `Trim` with the ASCII whitespace; stated by the same lemmas and StripEmptyIffBlank |
| Strings.TrimSpec | VM_Remote_access.py:18 | `strip` leaves no blank at either end, and what it keeps is a contiguous part of the input with only stripped characters around it |
| Strings.TrimOfPadded | VM_Remote_access.py:84 | stripping a text that has no blank at either end, padded with blanks on both sides, gives that text back |
| Strings.TrimOfTrimmed | VM_Remote_access.py:139 | stripping a text with no blank at either end changes nothing |
| Strings.TrimKeepsOut | VM_Remote_access.py:84 | `strip` brings in no character its input lacks |
| Strings.StripEmptyIffBlank | VM_Remote_access.py:18-20 | the stripped output is empty exactly when the whole output is blank |
| Strings.Split | VM_Remote_access.py:22 | `split` always gives at least one piece |
| Strings.SplitPieces | VM_Remote_access.py:84 | no piece of a split holds the separator |
| Strings.SplitFirstBefore | VM_Remote_access.py:22 | the first piece is everything before the first separator |
| Strings.SplitWithoutSeparator | VM_Remote_access.py:84 | a text without the separator is a single piece |
| Strings.SplitAtSeparator | VM_Remote_access.py:84 | a text holding the separator splits into at least two pieces |
| Strings.SplitLastAfterSeparator | VM_Remote_access.py:84 | the last piece (`[-1]`) is everything after the last separator |
| Strings.JoinSplit | VM_Remote_access.py:84 | splitting loses nothing: joining the pieces with the separator gives the input back |
| Strings.Lines | VM_Remote_access.py:18 | Python's `s.splitlines()` with `\n` breaks; stated by LinesSpec |
| Strings.LinesSpec | VM_Remote_access.py:18 | `splitlines` gives lines without breaks; no lines exactly for an empty text; the lines joined with breaks give back the text, less one final break |
| Strings.Lower | VM_Remote_access.py:151 | `lower` keeps the length |
| Strings.LowerSpec | VM_Remote_access.py:139 | `lower` lowers each ASCII letter in place and keeps every other character |
| Strings.ParseInt | VM_Remote_access.py:153 | Python's `int(s)`: C blanks (space, tab to carriage return) around, one optional sign, 1 to 4300 digits, else ValueError; stated by ParseIntShape, ParseIntOfDecimal, ParseIntOfNegativeDecimal, ParseIntOfZeroPadded and ParseIntRejectsSeparator |
| Strings.ParseIntShape | VM_Remote_access.py:153 | a line `int` accepts is, once stripped of C blanks, non-empty, ends in a digit and starts with a digit or a sign |
| Strings.Decimal | VM_Remote_access.py:153 | the decimal rendering of a number is non-empty, all digits, and starts with 0 only for 0 |
| Strings.DigitsValueOfDecimal | VM_Remote_access.py:153 | reading back the decimal rendering of n gives n |
| Strings.ParseIntOfDecimal | VM_Remote_access.py:153 | `int` of the decimal rendering of n, with C blanks around, is n, for n of at most 4300 digits |
| Strings.ParseIntOfNegativeDecimal | VM_Remote_access.py:153 | `int` of `-` and the rendering of n, with C blanks around, is -n, for n of at most 4300 digits |
| Strings.DigitsValueLeadingZeros | VM_Remote_access.py:153 | leading zeros do not change the value of a string of digits |
| Strings.ParseIntOfZeroPadded | VM_Remote_access.py:153 | `int` of n's digits behind m zeros is n when m plus the digits number at most 4300, and a ValueError otherwise: leading zeros count toward the limit |
| Strings.ParseIntRejectsSeparator | VM_Remote_access.py:153 | a number led by the file, group, record or unit separator, which `strip()` removes, is a ValueError for `int`, so the prompt asks again |
| Parsing.ListingLines | VM_Remote_access.py:17-18 | the listing as `list_vms` returns it, the raw lines of the stripped stdout; stated by ListingLinesShape |
| Parsing.ListingLinesShape | VM_Remote_access.py:17-26 | the listing is empty exactly when stdout is blank; its raw lines hold no break and join back into the stripped stdout |
| Parsing.VmName | VM_Remote_access.py:22 | the name on a listing line, `line.split(' ')[0].strip('"')` (the same at line 155); stated by VmNameShape, VmNameOfQuoted and VmNameStopsAtSpace |
| Parsing.VmNameShape | VM_Remote_access.py:22 | a displayed VM name holds no space and has no `"` at either end |
| Parsing.VmNameOfQuoted | VM_Remote_access.py:155 | a line `"<name>" <rest>`, for a name without spaces, gives back the name |
| Parsing.VmNameStopsAtSpace | VM_Remote_access.py:155 | a quoted name that holds a space is cut at its first space |
| Parsing.VmNameExample | VM_Remote_access.py:22 | `"db-01" {uuid}` gives `db-01` |
| Parsing.ParseIp | VM_Remote_access.py:84 | the address in a reply; stated by ParseIpShape, ParseIpOfReply and ParseIpExample |
| Parsing.ParseIpShape | VM_Remote_access.py:84 | the parsed address holds no `:` and has no blanks around it |
| Parsing.ParseIpOfReply | VM_Remote_access.py:84 | a reply `<key>:<address>`, with blanks anywhere around, gives back the address, whatever the key |
| Parsing.ParseIpExample | VM_Remote_access.py:84 | `Value: 192.168.1.42` gives `192.168.1.42` |
| Parsing.Classify | VM_Remote_access.py:151-157 | a line that selects an entry selects one numbered 1 to the length of the listing |
| Parsing.BackIsNotANumber | VM_Remote_access.py:151-153 | a line that reads `back` in any letter case is never a number, so the two tests do not overlap |
| Parsing.ClassifyIndexIff | VM_Remote_access.py:153-155 | a line selects entry k exactly when `int` reads it as k and 1 <= k <= the length of the listing |
| Parsing.ClassifyOutOfRange | VM_Remote_access.py:154-157 | a number outside 1 to the length of the listing (0, negative such as `-1`, too large) is refused: the prompt asks again |
| Parsing.LowerCharIs | VM_Remote_access.py:139 | a character lowers to a small letter exactly when it is that letter or its capital |
| Parsing.LowerIsYes | VM_Remote_access.py:139-140 | a text lowers to `yes` exactly when it is three letters y, e, s in any case |
| Parsing.ConfirmsDelete | VM_Remote_access.py:139-140 | the confirmation test; stated by ConfirmsDeleteIff and OnlyYesConfirms |
| Parsing.ConfirmsDeleteIff | VM_Remote_access.py:139-140 | a deletion is confirmed exactly by an answer that, stripped, is `yes` in any letter case |
| Parsing.OnlyYesConfirms | VM_Remote_access.py:139-144 | an empty answer and `no` do not confirm |
| Parsing.NetworkModeFor | VM_Remote_access.py:191-198 | choice `2` gives `bridged`, and every other choice, `1` included, gives `nat` |
| Select.FirstAnswer | VM_Remote_access.py:148-159 | the first answer lies between the starting line and the end of the input |
| Select.FirstAnswerSpec | VM_Remote_access.py:148-159 | every line before the first answer is invalid, and the first answer, if there is one, is `back` or a listed number |
| Select.Choose | VM_Remote_access.py:148-159 | a prompt that ends (back or a pick) ends on a line that was read |
| Select.SelectVm | VM_Remote_access.py:146-159 | the retry loop returns exactly the outcome the specification gives |
| Select.ChooseBack | VM_Remote_access.py:151-152 | `back` in any letter case cancels at once |
| Select.ChooseSkipsInvalid | VM_Remote_access.py:156-159 | an invalid line is passed over: the outcome is that of the following lines |
| Select.ChoosePicked | VM_Remote_access.py:153-155 | a VM is picked only by a line that `int` reads as a number k between 1 and the length of the listing; it is the name on line k, and every line before was invalid |
| Select.ChooseByNumber | VM_Remote_access.py:153-155 | typing the number a VM is listed under picks that VM's name at once |
| Select.ChooseExample | VM_Remote_access.py:146-155 | with two listed VMs, typing `2` picks `db-01` |
| VBox.ListArgv | VM_Remote_access.py:17 | `list vms`; issued by Host.ListVms |
| VBox.SetUuidArgv | VM_Remote_access.py:43 | `internalcommands sethduuid <path>`; its use is stated by CloneCommands |
| VBox.VrdeOnArgv | VM_Remote_access.py:58 | `modifyvm <vm> --vrde on`; issued by Host.EnableVrde |
| VBox.StartArgv | VM_Remote_access.py:128 | `startvm <vm> --type headless`; issued by Host.StartVm, used as stated by StartStopByNumber |
| VBox.StopArgv | VM_Remote_access.py:134 | `controlvm <vm> poweroff`; issued by Host.StopVm, used as stated by StartStopByNumber |
| VBox.UnregisterArgv | VM_Remote_access.py:141 | `unregistervm <vm> --delete`; its use is stated by DeleteCommandsIff and SessionDeletions |
| VBox.GuestIpArgv | VM_Remote_access.py:81 | `guestproperty get <vm> /VirtualBox/GuestInfo/Net/0/V4/IP`; issued by Host.GetVmIp |
| VBox.BridgedArgv | VM_Remote_access.py:114 | `modifyvm <vm> --nic1 bridged --bridgeadapter1 <adapter>`; stated by NetworkCommandIsLast |
| VBox.NatArgv | VM_Remote_access.py:119 | `modifyvm <vm> --nic1 nat`; stated by NetworkCommandIsLast |
| VBox.SetupCommands | VM_Remote_access.py:94-109 | the six setup steps of `create_vm`; stated by SetupCommandsTarget, SetupCommandsOrder and SetupCommandsDisks |
| VBox.NetworkCommands | VM_Remote_access.py:112-120 | the network step; stated by NetworkCommandsShape |
| VBox.CreateCommands | VM_Remote_access.py:94-120 | everything `create_vm` issues; stated by CreateCommandsShape and NetworkCommandIsLast |
| VBox.ConsoleCommands | VM_Remote_access.py:61-71 | what `access_vm_vrde` issues; stated by ConsoleCommandsShape |
| VBox.Subcommands | VM_Remote_access.py:94-109 | the subcommand list gives, for each command, the word after the executable |
| VBox.SubcommandsAppend | VM_Remote_access.py:94-120 | the subcommands of two sequences in a row are the two subcommand lists in a row |
| VBox.IssuedByAppend | VM_Remote_access.py:94-120 | two sequences that run VBoxManage, in a row, still run it only |
| VBox.AllAboutAppend | VM_Remote_access.py:94-120 | two sequences about the VM, in a row, are still about it only |
| VBox.SetupCommandsTarget | VM_Remote_access.py:94-109 | each of the six setup steps runs VBoxManage on the new VM |
| VBox.SetupCommandsOrder | VM_Remote_access.py:94-109 | the setup steps are createvm, modifyvm, storagectl, storageattach, storagectl, storageattach, in that order |
| VBox.SetupCommandsDisks | VM_Remote_access.py:103-109 | the disk image goes to SATA port 0 device 0, and the ISO to IDE port 1 device 0 |
| VBox.NetworkCommandsShape | VM_Remote_access.py:112-120 | the network step is one `modifyvm` on the VM for `bridged` or `nat`, and nothing for any other mode |
| VBox.CreateCommandsShape | VM_Remote_access.py:90-122 | `create_vm` issues 7 commands for `bridged` or `nat` and 6 otherwise, all running VBoxManage on the VM, in the fixed order |
| VBox.NetworkCommandIsLast | VM_Remote_access.py:111-120 | the last command sets `--nic1` to the mode, and names the bridged adapter exactly when the mode is `bridged` |
| VBox.ConsoleCommandsShape | VM_Remote_access.py:61-81 | `access_vm_vrde` issues exactly modifyvm (VRDE on), startvm, guestproperty, in that order, all about the VM |
| Manager.MenuTurn | VM_Remote_access.py:165-271 | a menu round that does not end the session reads at least one line and no more lines than there are |
| Manager.Session | VM_Remote_access.py:165-271 | the menu loop always stops, with option 7 or at the end of the input, and it stops by option 7 only when one of the lines left is `7`; what the session issues is stated by SessionDeletions |
| Manager.IpReportOf | VM_Remote_access.py:83-87 | what `get_vm_ip` reports for a command's answer; stated by IpReportShape |
| Manager.IpReportShape | VM_Remote_access.py:83-87 | an address is reported exactly when the return code is 0; it holds no `:` and no blanks around it; a failure carries the stripped stderr |
| Manager.DeleteCommands | VM_Remote_access.py:139-144 | what `delete_vm` issues for an answer; stated by DeleteCommandsIff |
| Manager.DeleteCommandsIff | VM_Remote_access.py:139-144 | `delete_vm` issues `unregistervm vm --delete` once when the stripped answer is `yes` in any case, and nothing otherwise |
| Manager.Clone | VM_Remote_access.py:29-52 | what `copy_directory` does to the world; stated by CloneCommands and CloneDeletesNothing |
| Manager.CloneCommands | VM_Remote_access.py:31-52 | a missing source changes nothing; otherwise one copy is attempted, and a failed one changes nothing else; a copy sets the paths to what it left; `sethduuid` on the joined disk path is issued at most once, only when the copy succeeded and the disk image is there |
| Manager.ExtendsIssueAll | VM_Remote_access.py:17 | issuing VBoxManage commands keeps the earlier trace as a prefix |
| Manager.ExtendsTrans | VM_Remote_access.py:165 | one run of commands after another still only adds VBoxManage commands |
| Manager.QuitEndsSession | VM_Remote_access.py:266-268 | option 7 ends the session with nothing more issued |
| Manager.UnknownChoiceIgnored | VM_Remote_access.py:270-271 | a choice other than 1 to 7 issues nothing and the next line is read as a choice |
| Manager.EmptyListingSkipsSelection | VM_Remote_access.py:226-258 | options 3 to 6 with an empty listing issue only the listing command and ask for no VM |
| Manager.CancelIssuesNoLifecycleCommand | VM_Remote_access.py:226-263 | options 3 to 6 ending in `back`, or in a pick whose name is empty, issue only the listing command |
| Manager.StartStopByNumber | VM_Remote_access.py:226-243 | option 3 or 4 and a listed number issue the listing and then exactly `startvm`, or `controlvm poweroff`, on that VM |
| Manager.DeleteByNumber | VM_Remote_access.py:246-253 | option 5 and a listed number read one more line and unregister that VM only if the line confirms |
| Manager.ConsoleByNumber | VM_Remote_access.py:256-263 | option 6 and a listed number issue the listing, then VRDE on, a headless start and the address query for that VM |
| Manager.CreateFlow | VM_Remote_access.py:200-223 | option 2 once its answers are read; stated by CreateFlowCommands and CreateFlowDeletesNothing |
| Manager.ActOn | VM_Remote_access.py:226-263 | options 3 to 6 once a VM is picked; stated by StartStopByNumber, DeleteByNumber, ConsoleByNumber and ActOnDeletions |
| Manager.Proceed | VM_Remote_access.py:228-263 | options 3 to 6 once the prompt is over; stated by CancelIssuesNoLifecycleCommand |
| Manager.PickAndAct | VM_Remote_access.py:226-263 | options 3 to 6; stated by EmptyListingSkipsSelection and PickAndActDeletions |
| Manager.CreateFlowCommands | VM_Remote_access.py:200-223 | option 2 clones the template and then creates and starts the VM only if the cloned disk image exists: eight VBoxManage commands in order, with the cloned image as the disk, networking bridged exactly for choice `2`, and the start last; otherwise nothing after the clone |
| Manager.CreateReadsFourAnswers | VM_Remote_access.py:183-223 | option 2 reads the next four lines as name, memory, CPU count and network choice and carries out the creation with them (see CreateFlowCommands); with fewer lines left, the session ends |
| Manager.NoDeletionByIssuing | VM_Remote_access.py:141 | issuing VBoxManage commands none of which is `unregistervm` deletes nothing |
| Manager.DeletesTrans | VM_Remote_access.py:165 | deletions of successive steps add up |
| Manager.CloneDeletesNothing | VM_Remote_access.py:29-52 | the clone step never unregisters a VM |
| Manager.CreateAndStartNoDeletion | VM_Remote_access.py:216-219 | creating and starting a VM issues VBoxManage commands only, none of them `unregistervm` |
| Manager.CreateFlowDeletesNothing | VM_Remote_access.py:183-223 | option 2 never unregisters a VM |
| Manager.DeleteAnswerDeletions | VM_Remote_access.py:137-144 | the deletion prompt unregisters at most once, and only when its answer confirms |
| Manager.ActOnDeletions | VM_Remote_access.py:226-263 | acting on a picked VM unregisters no more VMs than the lines it read confirm |
| Manager.PickAndActDeletions | VM_Remote_access.py:226-263 | options 3 to 6 unregister no more VMs than the lines they read confirm |
| Manager.MenuTurnDeletions | VM_Remote_access.py:176-271 | one menu round unregisters no more VMs than the lines it read confirm |
| Manager.SessionDeletions | VM_Remote_access.py:163-271 | a whole session keeps the earlier trace, issues only VBoxManage commands, and unregisters no more VMs than there are confirming lines |
| Manager.SessionExtends | VM_Remote_access.py:163-271 | a whole session keeps what was issued before it and adds only VBoxManage commands |
| Manager.Host.Run | VM_Remote_access.py:17 | one command is appended to the trace, and its answer is the one the environment gives that position in the trace |
| Manager.Host.RunAll | VM_Remote_access.py:94-109 | the commands are appended in order, whatever each reports |
| Manager.Host.ListVms | VM_Remote_access.py:14-26 | issues `list vms` and returns the raw lines of the stripped stdout |
| Manager.Host.CopyDirectory | VM_Remote_access.py:29-52 | the new state is the clone step's (see CloneCommands) |
| Manager.Host.EnableVrde | VM_Remote_access.py:55-59 | issues exactly `modifyvm vm --vrde on` |
| Manager.Host.StartVm | VM_Remote_access.py:125-129 | issues exactly `startvm vm --type headless` |
| Manager.Host.StopVm | VM_Remote_access.py:131-135 | issues exactly `controlvm vm poweroff` |
| Manager.Host.DeleteVm | VM_Remote_access.py:137-144 | issues the deletion commands for the answer (see DeleteCommandsIff) |
| Manager.Host.GetVmIp | VM_Remote_access.py:74-87 | issues exactly the guest property query and reports what its answer gives (see IpReportShape) |
| Manager.Host.AccessVmVrde | VM_Remote_access.py:61-71 | issues the three console commands and reports on the answer to the third |
| Manager.Host.CreateVm | VM_Remote_access.py:90-122 | issues every `create_vm` command in order, none depending on an earlier answer (see CreateCommandsShape) |
| Manager.Host.CreateOption | VM_Remote_access.py:183-223 | carries out option 2 as its specification says (see CreateFlowCommands) |
| Manager.Host.ActOnPicked | VM_Remote_access.py:226-263 | acts on a picked VM as its specification says |
| Manager.Host.ProceedWith | VM_Remote_access.py:228-263 | acts on the outcome of the prompt as its specification says |
| Manager.Host.PickOption | VM_Remote_access.py:226-263 | carries out options 3 to 6 as their specification says |
| Manager.Host.Dispatch | VM_Remote_access.py:176-271 | one menu round, as its specification says (see MenuTurnDeletions) |
| Manager.Host.MainMenu | VM_Remote_access.py:163-271 | the menu loop ends as, and leaves the host as, the session specification says (see SessionDeletions) |

## Left out

- Process execution: `subprocess.run` is modelled as appending the command to a trace. Its answer is a parameter, chosen by the command's position in the trace. A process that cannot be launched at all, which would raise, is not modelled.
- The two 30-second `time.sleep` boot waits carry no logic and are left out.
- Printed text and prompt wording are not modelled. The model keeps only the decisions and the commands issued.
- The filesystem: `shutil.copytree` is a parameter. For the n-th copy attempted and the paths that exist, it gives the paths existing afterwards, or that the destination exists, or another error. A retried copy may therefore end differently. `os.path.join` is an uninterpreted parameter of the configuration.
- A partial copy before an error leaves the paths unchanged in the model.
- What VBoxManage does to the filesystem (creating VM files; `unregistervm --delete` removing the disk) does not change the modelled paths.
- Strings.ParseInt: models Python's `int` on ASCII only, with its default limit of 4300 digits and C's blank set. It leaves out underscores between digits, and non-ASCII digits and blanks.
- Strings.Lower: models Python's `lower` on ASCII letters only.
- Strings.Lines: treats `\n` as the only line break. Python's `splitlines` also breaks at `\r`, `\r\n` and other separators.
- Strings.Strip: counts only ASCII whitespace as blanks.
- The hard-coded path constants and the Wi-Fi adapter name are placeholders in the script. They are fields of the configuration.
- The script's own `if __name__ == "__main__"` entry point is not modelled; `Manager.Host.MainMenu` is the entry.
- An `input()` that meets the end of the console raises `EOFError`. The script does not catch it. The model ends the session there with `EndOfInput`.
