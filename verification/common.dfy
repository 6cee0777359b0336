/** Small helpers shared by the components: optional values and counting the
    `true` entries of a list of flags (the `Object.values(x).filter(Boolean).length`
    idiom that the settings page, the landing page and the data page all use). */
module Common {

  /** An optional value; stands for a TypeScript property that may be `undefined`. */
  datatype Option<+T> = None | Some(value: T)

  /** Number of `true` entries in `flags`. */
  function CountTrue(flags: seq<bool>): nat
  {
    if flags == [] then 0
    else (if flags[0] then 1 else 0) + CountTrue(flags[1..])
  }

  /** The count never exceeds the number of flags, is zero exactly when no flag
      is set and is full exactly when every flag is set. */
  lemma {:induction false} CountTrueBounds(flags: seq<bool>)
    ensures CountTrue(flags) <= |flags|
    ensures CountTrue(flags) == 0 <==> (forall i :: 0 <= i < |flags| ==> !flags[i])
    ensures CountTrue(flags) == |flags| <==> (forall i :: 0 <= i < |flags| ==> flags[i])
  {
    if flags != [] {
      CountTrueBounds(flags[1..]);
      assert forall i :: 1 <= i < |flags| ==> flags[i] == flags[1..][i - 1];
      if !flags[0] {
        // the count of the tail is at most |flags| - 1, so the whole count is not full
        assert CountTrue(flags) <= |flags| - 1;
      }
    }
  }

  /** Flipping one flag moves the count by exactly one: down when the flag was
      set, up when it was clear. */
  lemma {:induction false} CountTrueFlip(flags: seq<bool>, i: nat)
    requires i < |flags|
    ensures CountTrue(flags[i := !flags[i]]) == CountTrue(flags) + (if flags[i] then -1 else 1)
  {
    var flipped := flags[i := !flags[i]];
    if i > 0 {
      assert flipped[1..] == flags[1..][i - 1 := !flags[1..][i - 1]];
      CountTrueFlip(flags[1..], i - 1);
    } else {
      assert flipped[1..] == flags[1..];
    }
  }
}
