/** `PluginParameters<COUNT>` and the `Effect` constructor of
    PluginProcessor.h: a fixed-size array of parameter values behind
    bounds-checked accessors.  Out-of-range reads give 0 and out-of-range
    writes are ignored. */
module Parameters {
  import opened Controls

  class ParameterStore {
    /** The template argument COUNT. */
    const count: nat
    /** The `parameters[COUNT]` array. */
    const values: array<real>

    ghost predicate Valid()
    {
      values.Length == count
    }

    /** `PluginParameters()`: every one of the COUNT values starts at 0. */
    constructor (count: nat)
      ensures Valid() && this.count == count && fresh(values)
      ensures forall p :: 0 <= p < count ==> values[p] == 0.0
    {
      this.count := count;
      var a := new real[count];
      var p := 0;
      while p < count
        invariant 0 <= p <= count
        invariant forall q :: 0 <= q < p ==> a[q] == 0.0
      {
        a[p] := 0.0;
        p := p + 1;
      }
      values := a;
    }

    /** The `Effect` constructor: a store of `kNumberOfParameters` values,
        each set in turn to its control's initial value. */
    constructor Effect()
      ensures Valid() && count == NumberOfParameters && fresh(values)
      ensures forall p :: 0 <= p < NumberOfParameters ==> values[p] == UiControls[p].initial
    {
      count := NumberOfParameters;
      values := new real[NumberOfParameters];
      new;
      var p := 0;
      while p < NumberOfParameters
        invariant 0 <= p <= NumberOfParameters
        invariant forall q :: 0 <= q < p ==> values[q] == UiControls[q].initial
      {
        SetParameter(p, UiControls[p].initial);
        p := p + 1;
      }
    }

    function GetNumParameters(): (n: int)
      reads this
      requires Valid()
      ensures n == values.Length
    {
      count
    }

    function GetParameter(index: int): (v: real)
      reads this, values
      requires Valid()
      ensures 0 <= index < values.Length ==> v == values[index]
      ensures (index < 0 || values.Length <= index) ==> v == 0.0
    {
      if 0 <= index < count then values[index] else 0.0
    }

    /** Sets one value; an index outside [0, COUNT) changes nothing. */
    method SetParameter(index: int, newValue: real)
      requires Valid()
      modifies values
      ensures 0 <= index < count ==> values[..] == old(values[..])[index := newValue]
      ensures (index < 0 || count <= index) ==> values[..] == old(values[..])
    {
      if 0 <= index < count {
        values[index] := newValue;
      }
    }

    /** The control's name for an index in range, the empty string otherwise.
        The C++ code reads `UI_CONTROLS[index]` for every index below COUNT,
        so COUNT may not exceed the number of controls. */
    function GetParameterName(index: int): (name: string)
      reads this
      requires Valid() && count <= NumberOfControls
      ensures 0 <= index < count ==> name == UiControls[index].name
      ensures (index < 0 || count <= index) ==> name == ""
    {
      if 0 <= index < count then UiControls[index].name else ""
    }
  }

  /** After a set with an index in range, reading that index gives the new
      value and every other index (in range or not) reads as before. */
  lemma SetThenGet(store: ParameterStore, before: seq<real>, index: int, v: real, j: int)
    requires store.Valid() && |before| == store.count
    requires 0 <= index < store.count && store.values[..] == before[index := v]
    ensures j == index ==> store.GetParameter(j) == v
    ensures j != index ==> store.GetParameter(j) == (if 0 <= j < |before| then before[j] else 0.0)
  {
  }
}
