/** kmod/framework_state.c and its sysctl handler: the counter of hints that ask not to dim. */
module DimBlock {
  import opened MachineIntegers

  datatype Op = Increment | Decrement

  /** The counter as coded: wraps upwards, stops at 0 downwards. */
  function Next(count: uint32, op: Op): uint32 {
    match op
    case Increment => Wrap32(count + 1)
    case Decrement => if count == 0 then 0 else count - 1
  }

  function Count(ops: seq<Op>): uint32 {
    if ops == [] then 0 else Next(Count(ops[..|ops| - 1]), ops[|ops| - 1])
  }

  class Hints {
    var count: uint32

    constructor ()
      ensures count == 0
    {
      count := 0;
    }

    method Increase()
      modifies this
      ensures count == Next(old(count), Increment)
    {
      count := Wrap32(count + 1);
    }

    method Decrease()
      modifies this
      ensures count == Next(old(count), Decrement)
    {
      if count != 0 {
        count := count - 1;
      }
    }

    /** `framework_sysctl_dimblock`: the written value is not stored, it selects what to do. */
    method Sysctl(value: uint32)
      modifies this
      ensures count == Written(old(count), value)
    {
      var counter := count;
      if value != counter {
        if value > 0 {
          Increase();
        } else {
          Decrease();
        }
      }
    }
  }

  // ----- The counter is a walk reflected at 0

  /** Increments minus decrements. */
  function Sum(ops: seq<Op>): int {
    if ops == [] then 0
    else Sum(ops[..|ops| - 1]) + (if ops[|ops| - 1] == Increment then 1 else -1)
  }

  /** The lowest value of `Sum` over all prefixes. */
  function Lowest(ops: seq<Op>): int {
    if ops == [] then 0
    else
      var before := Lowest(ops[..|ops| - 1]);
      if Sum(ops) < before then Sum(ops) else before
  }

  lemma {:induction false} LowestIsLowest(ops: seq<Op>)
    ensures forall i :: 0 <= i <= |ops| ==> Lowest(ops) <= Sum(ops[..i])
    ensures exists i :: 0 <= i <= |ops| && Lowest(ops) == Sum(ops[..i])
  {
    assert ops[..|ops|] == ops;
    if ops == [] {
      assert Lowest(ops) == Sum(ops[..0]);
    } else {
      var front := ops[..|ops| - 1];
      LowestIsLowest(front);
      assert forall i :: 0 <= i <= |front| ==> front[..i] == ops[..i];
      var j :| 0 <= j <= |front| && Lowest(front) == Sum(front[..j]);
      assert Lowest(ops) == Sum(ops[..|ops|]) || Lowest(ops) == Sum(ops[..j]);
    }
  }

  /** Below 2^32 operations, the counter is the walk lifted by as much as it went below 0. */
  lemma {:induction false} ReflectedWalk(ops: seq<Op>)
    requires |ops| < TWO_TO_THE_32
    ensures Count(ops) == Sum(ops) - Lowest(ops)
    ensures Count(ops) <= |ops|
  {
    if ops == [] {
    } else {
      ReflectedWalk(ops[..|ops| - 1]);
    }
  }

  /** So it counts increments minus decrements exactly on the runs that never decrement too much. */
  lemma {:induction false} CountsExactlyIffNested(ops: seq<Op>)
    requires |ops| < TWO_TO_THE_32
    ensures Count(ops) == Sum(ops) <==> forall i :: 0 <= i <= |ops| ==> Sum(ops[..i]) >= 0
  {
    ReflectedWalk(ops);
    LowestIsLowest(ops);
    assert Sum(ops[..0]) == 0;
  }

  /** Upwards the counter wraps: n increments leave n modulo 2^32. */
  lemma {:induction false} IncrementsWrap(ops: seq<Op>)
    requires forall op <- ops :: op == Increment
    ensures Count(ops) == |ops| % TWO_TO_THE_32
  {
    if ops == [] {
    } else {
      var n := |ops| - 1;
      assert ops[n] in ops && forall op <- ops[..n] :: op in ops;
      IncrementsWrap(ops[..n]);
      NextModulo(n);
    }
  }

  lemma NextModulo(n: nat)
    ensures Wrap32(n % TWO_TO_THE_32 + 1) == (n + 1) % TWO_TO_THE_32
  {
  }

  // ----- The sysctl against its manual page

  /** A write as coded. */
  function Written(count: uint32, value: uint32): uint32 {
    if value == count then count
    else if value > 0 then Next(count, Increment)
    else Next(count, Decrement)
  }

  /** A write as the manual page has it: any value above 0 increments, 0 decrements. */
  function Documented(count: nat, value: uint32): nat {
    if value > 0 then count + 1 else if count == 0 then 0 else count - 1
  }

  /** They agree except on a positive value that happens to be the count (or at the last count). */
  lemma WriteAsDocumentedIff(count: uint32, value: uint32)
    ensures Written(count, value) == Documented(count, value) <==>
            !(value > 0 && (value == count || count == TWO_TO_THE_32 - 1))
  {
  }

  function WrittenAll(values: seq<uint32>): uint32 {
    if values == [] then 0 else Written(WrittenAll(values[..|values| - 1]), values[|values| - 1])
  }

  function DocumentedAll(values: seq<uint32>): nat {
    if values == [] then 0 else Documented(DocumentedAll(values[..|values| - 1]), values[|values| - 1])
  }

  lemma {:induction false} WrittenAtMost(values: seq<uint32>)
    ensures WrittenAll(values) <= |values|
  {
    if values == [] {
    } else {
      WrittenAtMost(values[..|values| - 1]);
    }
  }

  /** No write of the run is a positive value equal to the count it meets. */
  predicate NeverTheCount(values: seq<uint32>) {
    forall i :: 0 <= i < |values| ==> !(values[i] > 0 && values[i] == WrittenAll(values[..i]))
  }

  predicate AgreesThroughout(values: seq<uint32>) {
    forall i :: 0 <= i <= |values| ==> WrittenAll(values[..i]) == DocumentedAll(values[..i])
  }

  lemma {:induction false} AgreesOneMore(values: seq<uint32>)
    requires values != []
    ensures AgreesThroughout(values) <==>
            AgreesThroughout(values[..|values| - 1]) && WrittenAll(values) == DocumentedAll(values)
  {
    var front := values[..|values| - 1];
    assert values[..|values|] == values;
    assert forall i :: 0 <= i <= |front| ==> front[..i] == values[..i];
  }

  lemma NeverTheCountOneMore(values: seq<uint32>)
    requires values != []
    ensures var n := |values| - 1;
            NeverTheCount(values) <==>
            NeverTheCount(values[..n]) && !(values[n] > 0 && values[n] == WrittenAll(values[..n]))
  {
    var front := values[..|values| - 1];
    assert forall i :: 0 <= i < |front| ==> front[..i] == values[..i] && front[i] == values[i];
  }

  /** A run of writes follows the manual page throughout exactly if that never occurs in it. */
  lemma {:induction false} RunAsDocumentedIff(values: seq<uint32>)
    requires |values| < TWO_TO_THE_32
    ensures AgreesThroughout(values) <==> NeverTheCount(values)
    decreases |values|
  {
    if values == [] {
    } else {
      var n := |values| - 1;
      var front := values[..n];
      RunAsDocumentedIff(front);
      AgreesOneMore(values);
      NeverTheCountOneMore(values);
      WrittenAtMost(front);
      if AgreesThroughout(front) {
        assert front[..n] == front;
        WriteAsDocumentedIff(WrittenAll(front), values[n]);
      }
    }
  }

  /** Two players that each write 1 on start count as one, and the first to stop clears the count. */
  lemma TwoPlayersCountAsOne()
    ensures WrittenAll([1, 1]) == 1 && DocumentedAll([1, 1]) == 2
    ensures WrittenAll([1, 1, 0]) == 0 && DocumentedAll([1, 1, 0]) == 1
  {
  }
}
