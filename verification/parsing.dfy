/**
 * What the manager reads out of VBoxManage's output and out of the user's
 * answers: the lines of `list vms`, the VM name on one such line, the address
 * in a `guestproperty get` reply, and the decisions taken on console input
 * (picking a VM by its number, confirming a deletion, choosing a network mode).
 */
module Parsing {
  import opened Strings

  const Quote: set<char> := {'"'}

  // ---------------------------------------------------------------------------
  // `list vms`
  // ---------------------------------------------------------------------------

  /**
   * The listing as the manager keeps it: the lines of the stripped standard
   * output, raw (quotes and UUIDs included, blank interior lines kept).
   */
  function ListingLines(stdout: string): seq<string> {
    Lines(Strip(stdout))
  }

  /**
   * The listing is empty exactly when the output is blank; otherwise its lines,
   * none holding a line break, join back into the stripped output.
   */
  lemma ListingLinesShape(stdout: string)
    ensures var lines := ListingLines(stdout);
      && (forall i :: 0 <= i < |lines| ==> '\n' !in lines[i])
      && (lines == [] <==> AllIn(stdout, Whitespace))
      && JoinWith(lines, '\n') == Strip(stdout)
  {
    var t := Strip(stdout);
    StripEmptyIffBlank(stdout);
    LinesSpec(t);
    TrimSpec(stdout, Whitespace);
    assert t != [] ==> t[|t| - 1] != '\n' by {
      assert '\n' in Whitespace;
    }
  }

  /**
   * The VM name shown for one listing line: the text before the first space,
   * with every leading and trailing `"` removed.
   */
  function VmName(line: string): string {
    Trim(Split(line, ' ')[0], Quote)
  }

  /** A VM name has no space in it and no `"` at either end. */
  lemma VmNameShape(line: string)
    ensures ' ' !in VmName(line)
    ensures Trimmed(VmName(line), Quote)
  {
    var field := Split(line, ' ')[0];
    SplitPieces(line, ' ');
    TrimKeepsOut(field, Quote, ' ');
  }

  /** A line as VBoxManage prints it, `"<name>" {<uuid>}`, gives back the name. */
  lemma VmNameOfQuoted(name: string, rest: string)
    requires ' ' !in name && Trimmed(name, Quote)
    ensures VmName("\"" + name + "\" " + rest) == name
  {
    var line := "\"" + name + "\" " + rest;
    var field := "\"" + name + "\"";
    assert ' ' !in field;
    assert line == field + [' '] + rest;
    SplitFirstBefore(field, ' ', rest);
    TrimOfPadded("\"", name, "\"", Quote);
  }

  /**
   * A name that itself contains a space is cut at that space: the manager then
   * addresses the VM by the first word of its name only.
   */
  lemma VmNameStopsAtSpace(first: string, more: string, rest: string)
    requires ' ' !in first && Trimmed(first, Quote)
    ensures VmName("\"" + first + " " + more + "\" " + rest) == first
  {
    var line := "\"" + first + " " + more + "\" " + rest;
    var field := "\"" + first;
    assert ' ' !in field;
    assert line == field + [' '] + (more + "\" " + rest);
    SplitFirstBefore(field, ' ', more + "\" " + rest);
    TrimOfPadded("\"", first, "", Quote);
    assert "\"" + first + "" == field;
  }

  /** The first example of the listing format: `"db-01" {uuid}` names `db-01`. */
  lemma VmNameExample()
    ensures VmName("\"db-01\" {uuid}") == "db-01"
  {
    VmNameOfQuoted("db-01", "{uuid}");
    assert "\"" + "db-01" + "\" " + "{uuid}" == "\"db-01\" {uuid}";
  }

  // ---------------------------------------------------------------------------
  // `guestproperty get`
  // ---------------------------------------------------------------------------

  /** The address in a successful reply: the text after the last `:`, stripped. */
  function ParseIp(stdout: string): string {
    var pieces := Split(Strip(stdout), ':');
    Strip(pieces[|pieces| - 1])
  }

  /** An address holds no `:` and has no blanks around it. */
  lemma ParseIpShape(stdout: string)
    ensures ':' !in ParseIp(stdout)
    ensures Trimmed(ParseIp(stdout), Whitespace)
  {
    var stripped := Strip(stdout);
    var pieces := Split(stripped, ':');
    var last := pieces[|pieces| - 1];
    LastPieceKeepsOut(stripped, ':');
    TrimKeepsOut(last, Whitespace, ':');
  }

  /**
   * A reply of the form `<key>: <address>`, with any blanks around, gives back
   * the address, whatever the key holds.
   */
  lemma ParseIpOfReply(w1: string, key: string, w2: string, ip: string, w3: string)
    requires AllIn(w1, Whitespace) && AllIn(w2, Whitespace) && AllIn(w3, Whitespace)
    requires key == [] || key[0] !in Whitespace
    requires ip != [] && Trimmed(ip, Whitespace) && ':' !in ip
    ensures ParseIp(w1 + key + ":" + w2 + ip + w3) == ip
  {
    var body := key + ":" + w2 + ip;
    assert w1 + key + ":" + w2 + ip + w3 == w1 + body + w3;
    assert Trimmed(body, Whitespace);
    TrimOfPadded(w1, body, w3, Whitespace);
    assert ':' !in w2 + ip by {
      assert ':' !in Whitespace;
    }
    assert body == key + [':'] + (w2 + ip);
    SplitLastAfterSeparator(key, ':', w2 + ip);
    TrimOfPadded(w2, ip, [], Whitespace);
    assert w2 + ip + [] == w2 + ip;
  }

  /** The reply `Value: 192.168.1.42` gives `192.168.1.42`. */
  lemma ParseIpExample(line: string)
    requires line == "Value: 192.168.1.42"
    ensures ParseIp(line) == "192.168.1.42"
  {
    var ip := "192.168.1.42";
    assert ':' !in ip && Trimmed(ip, Whitespace) by {
      assert forall k :: 0 <= k < |ip| ==> ip[k] != ':';
    }
    assert AllIn(" ", Whitespace);
    assert line == "" + "Value" + ":" + " " + ip + "";
    ParseIpOfReply("", "Value", " ", ip, "");
  }

  // ---------------------------------------------------------------------------
  // Picking a VM by number
  // ---------------------------------------------------------------------------

  /** How one console line answers the "which VM?" prompt. */
  datatype Reply = Cancel | Index(k: int) | Invalid

  function Classify(vms: seq<string>, input: string): (r: Reply)
    ensures r.Index? ==> 1 <= r.k <= |vms|
  {
    if Lower(input) == "back" then Cancel
    else match ParseInt(input)
      case Some(n) => if 0 <= n - 1 < |vms| then Index(n) else Invalid
      case None => Invalid
  }

  /** `back` in any letter case is not a number, so the order of the two tests does not matter. */
  lemma BackIsNotANumber(input: string)
    requires Lower(input) == "back"
    ensures ParseInt(input) == None
  {
    var low := Lower(input);
    LowerSpec(input);
    assert |input| == 4;
    assert low[0] == 'b' && low[3] == 'k';
    assert LowerChar(input[0]) == 'b' && LowerChar(input[3]) == 'k';
    assert input[0] in {'b', 'B'} && input[3] in {'k', 'K'};
    assert Trimmed(input, IntBlanks);
    TrimOfTrimmed(input, IntBlanks);
  }

  /** An input selects entry `k` exactly when it reads as the number `k` within 1..|vms|. */
  lemma ClassifyIndexIff(vms: seq<string>, input: string, k: int)
    ensures Classify(vms, input) == Index(k) <==> ParseInt(input) == Some(k) && 1 <= k <= |vms|
  {
    if Lower(input) == "back" {
      BackIsNotANumber(input);
    }
  }

  /** A number outside 1..|vms| (0, negative or too large) is answered by asking again. */
  lemma ClassifyOutOfRange(vms: seq<string>, input: string)
    requires ParseInt(input).Some? && !(1 <= ParseInt(input).value <= |vms|)
    ensures Classify(vms, input) == Invalid
  {
    if Lower(input) == "back" {
      BackIsNotANumber(input);
    }
  }

  // ---------------------------------------------------------------------------
  // Other answers
  // ---------------------------------------------------------------------------

  /** The deletion prompt's test: the answer, stripped and lower-cased, is `yes`. */
  function ConfirmsDelete(answer: string): bool {
    Lower(Strip(answer)) == "yes"
  }

  /** A character lowers to the small letter `lo` exactly when it is `lo` or its capital `up`. */
  lemma LowerCharIs(c: char, lo: char, up: char)
    requires 'A' <= up <= 'Z' && lo as int == up as int + 32
    ensures LowerChar(c) == lo <==> c == lo || c == up
  {
  }

  /** A three-character text equals `[a, b, c]` exactly when it does so character by character. */
  lemma ThreeChars(s: string, a: char, b: char, c: char)
    requires |s| == 3
    ensures s == [a, b, c] <==> s[0] == a && s[1] == b && s[2] == c
  {
  }

  lemma LowerIsYes(t: string)
    ensures Lower(t) == "yes" <==> |t| == 3 && t[0] in {'y', 'Y'} && t[1] in {'e', 'E'} && t[2] in {'s', 'S'}
  {
    if |t| == 3 {
      var low := Lower(t);
      LowerSpec(t);
      ThreeChars(low, 'y', 'e', 's');
      LowerCharIs(t[0], 'y', 'Y');
      LowerCharIs(t[1], 'e', 'E');
      LowerCharIs(t[2], 's', 'S');
    }
  }

  /** Exactly the answers that read `yes` in any letter case, blanks around, confirm. */
  lemma ConfirmsDeleteIff(answer: string)
    ensures ConfirmsDelete(answer) <==>
      var t := Strip(answer);
      |t| == 3 && t[0] in {'y', 'Y'} && t[1] in {'e', 'E'} && t[2] in {'s', 'S'}
  {
    LowerIsYes(Strip(answer));
  }

  /** An empty answer, or `no`, never confirms. */
  lemma OnlyYesConfirms()
    ensures !ConfirmsDelete("") && !ConfirmsDelete("no")
  {
    LowerIsYes(Strip(""));
    TrimOfTrimmed("no", Whitespace);
    LowerIsYes("no");
  }

  /** The network-mode prompt: `2` is bridged, anything else (including `1`) is NAT. */
  function NetworkModeFor(choice: string): (mode: string)
    ensures mode == "bridged" <==> choice == "2"
    ensures mode == "nat" <==> choice != "2"
  {
    if choice == "1" then "nat"
    else if choice == "2" then "bridged"
    else "nat"
  }
}
