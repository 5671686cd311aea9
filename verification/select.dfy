/**
 * The `select_vm` prompt: a VM is picked from one listing snapshot by its
 * 1-based number, `back` cancels, and any other line is answered by asking again.
 */
module Select {
  import opened Strings
  import opened Parsing

  /** Where a run of prompts ends: a VM picked, `back`, or the console closed. */
  datatype Selection = Picked(name: string, at: nat) | Back(at: nat) | Exhausted

  /**
   * The position of the first line from `inputs[from]` on that is `back` or a
   * valid number, |inputs| when there is none.
   */
  function FirstAnswer(vms: seq<string>, inputs: seq<string>, from: nat): (i: nat)
    requires from <= |inputs|
    ensures from <= i <= |inputs|
    decreases |inputs| - from
  {
    if from == |inputs| || !Classify(vms, inputs[from]).Invalid? then from
    else FirstAnswer(vms, inputs, from + 1)
  }

  /** Every line before the first answer is invalid, and the first answer, if any, is not. */
  lemma {:induction false} FirstAnswerSpec(vms: seq<string>, inputs: seq<string>, from: nat)
    requires from <= |inputs|
    ensures var i := FirstAnswer(vms, inputs, from);
      && (forall j :: from <= j < i ==> Classify(vms, inputs[j]).Invalid?)
      && (i < |inputs| ==> !Classify(vms, inputs[i]).Invalid?)
    decreases |inputs| - from
  {
    if from < |inputs| && Classify(vms, inputs[from]).Invalid? {
      FirstAnswerSpec(vms, inputs, from + 1);
    }
  }

  /** The outcome of prompting from `inputs[from]` on, decided by the first answer. */
  function Choose(vms: seq<string>, inputs: seq<string>, from: nat): (r: Selection)
    requires from <= |inputs|
    ensures !r.Exhausted? ==> from <= r.at < |inputs|
  {
    var i := FirstAnswer(vms, inputs, from);
    if i == |inputs| then Exhausted
    else match Classify(vms, inputs[i])
      case Cancel => Back(i)
      case Index(k) => Picked(VmName(vms[k - 1]), i)
      case Invalid => Exhausted
  }

  /**
   * The `select_vm` prompt loop: reads lines from `inputs[from]` on until one
   * is `back` or a number between 1 and |vms|.
   */
  method SelectVm(vms: seq<string>, inputs: seq<string>, from: nat) returns (r: Selection)
    requires from <= |inputs|
    ensures r == Choose(vms, inputs, from)
  {
    var i := from;
    while i < |inputs|
      invariant from <= i <= |inputs|
      invariant FirstAnswer(vms, inputs, from) == FirstAnswer(vms, inputs, i)
    {
      var input := inputs[i];
      if Lower(input) == "back" {
        return Back(i);
      }
      var number := ParseInt(input);
      if number.Some? && 0 <= number.value - 1 < |vms| {
        return Picked(VmName(vms[number.value - 1]), i);
      }
      i := i + 1;
    }
    return Exhausted;
  }

  /** `back`, in any letter case, cancels at once. */
  lemma ChooseBack(vms: seq<string>, inputs: seq<string>, from: nat)
    requires from < |inputs| && Lower(inputs[from]) == "back"
    ensures Choose(vms, inputs, from) == Back(from)
  {
    assert FirstAnswer(vms, inputs, from) == from;
  }

  /** A line that is neither `back` nor a listed number is passed over: the prompt asks again. */
  lemma ChooseSkipsInvalid(vms: seq<string>, inputs: seq<string>, from: nat)
    requires from < |inputs| && Classify(vms, inputs[from]).Invalid?
    ensures Choose(vms, inputs, from) == Choose(vms, inputs, from + 1)
  {
    assert FirstAnswer(vms, inputs, from) == FirstAnswer(vms, inputs, from + 1);
  }

  /**
   * A VM is picked only by a line that reads as a number k between 1 and
   * |vms|, which picks the name on line k; every line before it was invalid.
   */
  lemma ChoosePicked(vms: seq<string>, inputs: seq<string>, from: nat)
    requires from <= |inputs| && Choose(vms, inputs, from).Picked?
    ensures var r := Choose(vms, inputs, from);
      var n := ParseInt(inputs[r.at]);
      && n.Some? && 1 <= n.value <= |vms| && r.name == VmName(vms[n.value - 1])
      && forall j :: from <= j < r.at ==> Classify(vms, inputs[j]).Invalid?
  {
    var r := Choose(vms, inputs, from);
    FirstAnswerSpec(vms, inputs, from);
    var c := Classify(vms, inputs[r.at]);
    ClassifyIndexIff(vms, inputs[r.at], c.k);
  }

  /** Typing the number a VM is listed under selects that VM's name, at once. */
  lemma ChooseByNumber(vms: seq<string>, k: nat, inputs: seq<string>, from: nat)
    requires 1 <= k <= |vms|
    requires from < |inputs| && inputs[from] == Decimal(k) && |Decimal(k)| <= MaxStrDigits
    ensures Choose(vms, inputs, from) == Picked(VmName(vms[k - 1]), from)
  {
    var input := inputs[from];
    assert input == "" + Decimal(k) + "";
    ParseIntOfDecimal("", k, "");
    ClassifyIndexIff(vms, input, k);
    assert FirstAnswer(vms, inputs, from) == from;
  }

  /** Two listed VMs; typing `2` selects `db-01`. */
  lemma ChooseExample()
    ensures Choose(["\"web-01\" {uuid}", "\"db-01\" {uuid}"], ["2"], 0) == Picked("db-01", 0)
  {
    var vms := ["\"web-01\" {uuid}", "\"db-01\" {uuid}"];
    assert Decimal(2) == "2";
    ChooseByNumber(vms, 2, ["2"], 0);
    VmNameExample();
  }
}
