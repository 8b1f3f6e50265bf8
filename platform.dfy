/** The POSIX delay helper both loggers define. */
module Platform {

  function SumOf(xs: seq<nat>): nat
  {
    if xs == [] then 0 else SumOf(xs[..|xs| - 1]) + xs[|xs| - 1]
  }

  /**
    delay(ms) on POSIX: whole seconds first, then the remainder, as a
    sequence of usleep arguments in microseconds.
   */
  method Delay(ms: nat) returns (sleeps: seq<nat>)
    ensures SumOf(sleeps) == ms * 1000
    ensures forall i :: 0 <= i < |sleeps| ==> 0 < sleeps[i] <= 1000 * 1000
    ensures |sleeps| == (ms + 999) / 1000
  {
    sleeps := [];
    var left: nat := ms;
    while left >= 1000
      invariant left <= ms && SumOf(sleeps) + left * 1000 == ms * 1000
      invariant forall i :: 0 <= i < |sleeps| ==> 0 < sleeps[i] <= 1000 * 1000
      invariant |sleeps| * 1000 + left == ms
    {
      sleeps := sleeps + [1000 * 1000];
      left := left - 1000;
    }
    if left != 0 {
      sleeps := sleeps + [left * 1000];
    }
  }
}
