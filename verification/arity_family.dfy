/**
  The family of invocation rules generated for `PartiallyApplied`
  (src/lib.rs:31-64). The generator is handed twelve argument slots
  `arg0: T0, …, arg11: T11`; it emits one rule taking every slot it was
  handed, then repeats on the slots after the first, and ends with the rule
  taking no argument. A call `pass(…)` with n trailing arguments binds to the
  rule whose parameter list has n slots; when no rule has n slots the call is
  rejected before the program runs.
 */
module ArityFamily {
  import opened Options

  /** One named argument slot `arg: Ty` of the generator's input. */
  datatype Slot = Slot(arg: string, ty: string)

  /** One invocation rule: a `pass` whose trailing parameters are `params`. */
  datatype Rule = Rule(params: seq<Slot>)

  function Arity(rule: Rule): nat {
    |rule.params|
  }

  /** The slots the crate hands to the generator (src/lib.rs:51-64). */
  const Slots: seq<Slot> := [
    Slot("arg0", "T0"), Slot("arg1", "T1"), Slot("arg2", "T2"), Slot("arg3", "T3"),
    Slot("arg4", "T4"), Slot("arg5", "T5"), Slot("arg6", "T6"), Slot("arg7", "T7"),
    Slot("arg8", "T8"), Slot("arg9", "T9"), Slot("arg10", "T10"), Slot("arg11", "T11")
  ]

  /** The rules generated from `slots`: a rule for the whole list, then the
      rules of its tail; the empty list yields the no-argument rule alone.
      Rule i takes the slots from position i on. */
  function Expand(slots: seq<Slot>): (rules: seq<Rule>)
    ensures |rules| == |slots| + 1
    ensures forall i :: 0 <= i < |rules| ==> rules[i].params == slots[i..]
    decreases |slots|
  {
    if |slots| == 0 then [Rule([])]
    else [Rule(slots)] + Expand(slots[1..])
  }

  /** The rule family of the crate. */
  const Family: seq<Rule> := Expand(Slots)

  /** Binding of a call with n trailing arguments: the position of the first
      rule of arity n, or None when the family has no such rule. */
  function Select(family: seq<Rule>, n: nat): (r: Option<nat>)
    ensures r.Some? ==> r.value < |family| && Arity(family[r.value]) == n
    ensures r.Some? ==> forall j :: 0 <= j < r.value ==> Arity(family[j]) != n
    ensures r.None? <==> forall j :: 0 <= j < |family| ==> Arity(family[j]) != n
    decreases |family|
  {
    if |family| == 0 then None
    else if Arity(family[0]) == n then Some(0)
    else match Select(family[1..], n)
      case None => None
      case Some(i) => Some(i + 1)
  }

  /** In an expansion of k slots, a call with n trailing arguments binds to
      rule k - n when n <= k, and to no rule otherwise. */
  lemma {:induction false} ExpandSelect(slots: seq<Slot>, n: nat)
    ensures Select(Expand(slots), n).Some? <==> n <= |slots|
    ensures n <= |slots| ==> Select(Expand(slots), n) == Some(|slots| - n)
  {
    var rules := Expand(slots);
    forall j | 0 <= j < |rules|
      ensures Arity(rules[j]) == |slots| - j
    {
      assert rules[j].params == slots[j..];
    }
    if n <= |slots| {
      assert Arity(rules[|slots| - n]) == n;
    }
  }

  /** The crate's family has exactly 13 rules, one per arity 0..12, the rule
      of arity n taking the last n slots; a call with 13 or more trailing
      arguments binds to no rule. */
  lemma ArityCoverage(n: nat)
    ensures |Family| == 13
    ensures Select(Family, n).Some? <==> n <= 12
    ensures n <= 12 ==> Select(Family, n) == Some(12 - n)
    ensures n <= 12 ==> Family[12 - n].params == Slots[12 - n..]
  {
    assert |Slots| == 12;
    ExpandSelect(Slots, n);
  }
}
