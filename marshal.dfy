/** Marshalling the argument vector into the `String[]` handed to `main`. */
module Marshal {
  import opened Wrappers

  const I32_LIMIT: int := 0x8000_0000

  /** Rust's `n as i32` on a length: the low 32 bits read as a two's-complement number. */
  function AsI32(n: nat): (r: int)
    ensures -I32_LIMIT <= r < I32_LIMIT
    ensures n < I32_LIMIT ==> r == n
    ensures (r - n) % 0x1_0000_0000 == 0
  {
    var low := n % 0x1_0000_0000;
    if low < I32_LIMIT then low else low - 0x1_0000_0000
  }

  /** Lengths from 2^31 up to 2^32 - 1 turn negative. */
  lemma AsI32Negative(n: nat)
    requires I32_LIMIT <= n < 0x1_0000_0000
    ensures AsI32(n) < 0
  {
  }

  /** The arguments whose conversion to a JVM string succeeded (`filter_map(Result::ok)`), in order.
      `failed` holds the indices whose conversion failed. */
  function Survivors(args: seq<string>, failed: set<nat>): (r: seq<string>)
    ensures |r| <= |args|
    ensures (forall i :: 0 <= i < |args| ==> i !in failed) ==> r == args
    decreases |args|
  {
    if |args| == 0 then []
    else
      var last := |args| - 1;
      Survivors(args[..last], failed) + (if last in failed then [] else [args[last]])
  }

  /** The indices below `n` whose conversion succeeded, in increasing order. */
  function SurvivingIndices(n: nat, failed: set<nat>): (r: seq<nat>)
    ensures forall j :: 0 <= j < |r| ==> r[j] < n && r[j] !in failed
    ensures forall j, k :: 0 <= j < k < |r| ==> r[j] < r[k]
    decreases n
  {
    if n == 0 then [] else SurvivingIndices(n - 1, failed) + (if n - 1 in failed then [] else [n - 1])
  }

  /** No index whose conversion succeeded is missing. */
  lemma {:induction false} SurvivingIndicesComplete(n: nat, failed: set<nat>, i: nat)
    requires i < n && i !in failed
    ensures i in SurvivingIndices(n, failed)
    decreases n
  {
    if i < n - 1 {
      SurvivingIndicesComplete(n - 1, failed, i);
    }
  }

  /** The survivors are exactly the arguments at the surviving indices: nothing reordered, nothing invented. */
  lemma {:induction false} SurvivorsAreSubsequence(args: seq<string>, failed: set<nat>)
    ensures |Survivors(args, failed)| == |SurvivingIndices(|args|, failed)|
    ensures forall j :: 0 <= j < |Survivors(args, failed)| ==>
      Survivors(args, failed)[j] == args[SurvivingIndices(|args|, failed)[j]]
    decreases |args|
  {
    if |args| > 0 {
      var last := |args| - 1;
      var prefix := args[..last];
      SurvivorsAreSubsequence(prefix, failed);
      var s0 := Survivors(prefix, failed);
      var idx0 := SurvivingIndices(last, failed);
      var s := Survivors(args, failed);
      var idx := SurvivingIndices(|args|, failed);
      if last in failed {
        assert s == s0 && idx == idx0;
      } else {
        assert s == s0 + [args[last]] && idx == idx0 + [last];
      }
      forall j | 0 <= j < |s0| ensures s[j] == args[idx[j]] {
        assert s[j] == s0[j] == prefix[idx0[j]];
      }
    }
  }

  /** `base` with `writes[i]` stored at each index i that exists in `base`. */
  function Overlay(base: seq<string>, writes: seq<string>): (r: seq<string>)
    ensures |r| == |base|
  {
    seq(|base|, k requires 0 <= k < |base| => if k < |writes| then writes[k] else base[k])
  }

  /** The array `main` receives, or None when its length cast to `i32` is negative and creating it fails. */
  function MethodArguments(args: seq<string>, failed: set<nat>): Option<seq<string>>
  {
    var length := AsI32(|args|);
    if length < 0 then None else Some(Overlay(seq(length, _ => ""), Survivors(args, failed)))
  }

  /** For any realistic count the array has one slot per argument, the converted strings fill a prefix in order
      and every later slot holds the empty string. */
  lemma MethodArgumentsShape(args: seq<string>, failed: set<nat>)
    requires |args| < I32_LIMIT
    ensures var m := MethodArguments(args, failed); var s := Survivors(args, failed);
      && m.Some?
      && |m.value| == |args|
      && m.value[..|s|] == s
      && forall k :: |s| <= k < |args| ==> m.value[k] == ""
  {
    var m := MethodArguments(args, failed).value;
    var s := Survivors(args, failed);
    assert forall k :: 0 <= k < |s| ==> m[k] == s[k];
  }

  /** When every conversion succeeds the array holds the arguments exactly. */
  lemma MethodArgumentsAllConverted(args: seq<string>, failed: set<nat>)
    requires |args| < I32_LIMIT
    requires forall i :: 0 <= i < |args| ==> i !in failed
    ensures MethodArguments(args, failed) == Some(args)
  {
    MethodArgumentsShape(args, failed);
    assert MethodArguments(args, failed).value[..|args|] == MethodArguments(args, failed).value;
  }

  /** One failed conversion shifts the later arguments left and leaves one trailing empty slot:
      `["a", "b", "c"]` with "a" failing gives `["b", "c", ""]`. */
  lemma MethodArgumentsShiftExample()
    ensures MethodArguments(["a", "b", "c"], {0}) == Some(["b", "c", ""])
  {
    var args := ["a", "b", "c"];
    assert args[..2][..1] == ["a"] && args[..2] == ["a", "b"];
    assert Survivors(args[..2][..1][..0], {0}) == [];
    assert Survivors(args, {0}) == ["b", "c"];
    assert Overlay(seq(3, _ => ""), ["b", "c"]) == ["b", "c", ""];
  }

  /** Writes the converted strings into the pre-filled array at indices 0, 1, … with a running counter;
      a write past the end of the array fails and is ignored, as the source discards that result. */
  method FillArgs(a: array<string>, jstrings: seq<string>)
    modifies a
    ensures a[..] == Overlay(old(a[..]), jstrings)
  {
    var i := 0;
    while i < |jstrings|
      invariant 0 <= i <= |jstrings|
      invariant forall k :: 0 <= k < a.Length ==> a[k] == if k < i then jstrings[k] else old(a[k])
    {
      if i < a.Length {
        a[i] := jstrings[i];
      }
      i := i + 1;
    }
  }
}
