/** The 3214 priority interrupt controller: eight request lines, of which the mask enables the
    highest ones. */
module Interrupts3214 {
  import opened Bytes

  const INPUT_COUNT: nat := 8
  const NO_VECTOR: byte := 0xFF

  datatype Requests = Requests(inputs: seq<bool>, mask: nat)

  ghost predicate WellFormed(r: Requests) {
    |r.inputs| == INPUT_COUNT && r.mask <= INPUT_COUNT
  }

  /** The highest active input in `low..limit`, or `INPUT_COUNT`. */
  function Highest(inputs: seq<bool>, low: nat, limit: nat): (input: nat)
    requires |inputs| == INPUT_COUNT && low <= limit <= INPUT_COUNT
    ensures input == INPUT_COUNT <==> forall i :: low <= i < limit ==> !inputs[i]
    ensures input != INPUT_COUNT ==> low <= input < limit && inputs[input]
    ensures input != INPUT_COUNT ==> forall i :: input < i < limit ==> !inputs[i]
  {
    if limit == low then INPUT_COUNT
    else if inputs[limit - 1] then limit - 1
    else Highest(inputs, low, limit - 1)
  }

  function Active(r: Requests): nat
    requires WellFormed(r)
  {
    Highest(r.inputs, INPUT_COUNT - r.mask, INPUT_COUNT)
  }

  function Vector(r: Requests): byte
    requires WellFormed(r)
  {
    if Active(r) == INPUT_COUNT then NO_VECTOR else (INPUT_COUNT - 1 - Active(r)) * 2 % 256
  }

  /** The acknowledged vector belongs to an input that is enabled and active, with no enabled and
      active input above it; FFh stands for none. */
  lemma {:induction false} VectorIsHighest(r: Requests, input: nat)
    requires WellFormed(r) && input < INPUT_COUNT
    ensures Vector(r) == (7 - input) * 2 <==>
              && input >= INPUT_COUNT - r.mask && r.inputs[input]
              && forall i :: input < i < INPUT_COUNT ==> !r.inputs[i]
    ensures Vector(r) == NO_VECTOR <==>
              forall i :: INPUT_COUNT - r.mask <= i < INPUT_COUNT ==> !r.inputs[i]
  {
    var active := Active(r);
    if active != INPUT_COUNT {
      assert Vector(r) == (7 - active) * 2;
    }
  }

  class InterruptController {
    const inputs: array<bool>
    var mask: nat

    ghost predicate Valid()
      reads this
    {
      inputs.Length == INPUT_COUNT && mask <= INPUT_COUNT
    }

    ghost function State(): (r: Requests)
      requires Valid()
      reads this, inputs
      ensures WellFormed(r)
    {
      Requests(inputs[..], mask)
    }

    constructor ()
      ensures Valid() && fresh(inputs)
      ensures State() == Requests(seq(INPUT_COUNT, _ => false), 0)
    {
      inputs := new bool[INPUT_COUNT](_ => false);
      mask := 0;
    }

    method Reset()
      requires Valid()
      modifies this, inputs
      ensures Valid() && State() == Requests(seq(INPUT_COUNT, _ => false), 0)
    {
      forall i | 0 <= i < inputs.Length {
        inputs[i] := false;
      }
      mask := 0;
    }

    method SetMask(enabledInputs: byte)
      requires Valid()
      modifies this`mask
      ensures Valid()
      ensures State() == old(State()).(mask := if enabledInputs < INPUT_COUNT then enabledInputs else INPUT_COUNT)
    {
      mask := if enabledInputs < INPUT_COUNT then enabledInputs else INPUT_COUNT;
    }

    method SetInput(index: nat, active: bool)
      requires Valid()
      modifies inputs
      ensures Valid()
      ensures forall i :: 0 <= i < INPUT_COUNT ==> inputs[i] == if i == index then active else old(inputs[i])
    {
      if index < inputs.Length {
        inputs[index] := active;
      }
    }

    method ActiveInput() returns (input: nat)
      requires Valid()
      ensures input == Active(State())
    {
      var firstEnabled := INPUT_COUNT - mask;
      var index := INPUT_COUNT;
      while index > firstEnabled
        invariant firstEnabled <= index <= INPUT_COUNT
        invariant Active(State()) == Highest(inputs[..], firstEnabled, index)
      {
        index := index - 1;
        if inputs[index] {
          return index;
        }
      }
      return INPUT_COUNT;
    }

    method AcknowledgedVector() returns (vector: byte)
      requires Valid()
      ensures vector == Vector(State())
    {
      var input := ActiveInput();
      if input == INPUT_COUNT {
        return NO_VECTOR;
      }
      return (INPUT_COUNT - 1 - input) * 2;
    }

    method Pending() returns (pending: bool)
      requires Valid()
      ensures pending <==> exists i :: INPUT_COUNT - mask <= i < INPUT_COUNT && inputs[i]
    {
      var input := ActiveInput();
      assert forall i :: 0 <= i < INPUT_COUNT ==> inputs[..][i] == inputs[i];
      pending := input != INPUT_COUNT;
    }
  }
}
