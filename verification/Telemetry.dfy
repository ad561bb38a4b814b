/** Bounded step measurements, and the prefix two consecutive wires share as seen through chunk hashes. */
module Telemetry {
  import opened Wrappers
  import opened Words

  const CHUNK: nat := 256
  const RETAINED: nat := 64

  // ------------------------------------------------------------------ prefixes

  /** `chunks(256)`: all full but perhaps the last. */
  function Chunks(wire: Bytes): (r: seq<Bytes>)
    ensures forall k :: 0 <= k < |r| ==> 0 < |r[k]| <= CHUNK
  {
    if |wire| == 0 then []
    else if |wire| <= CHUNK then [wire]
    else [wire[..CHUNK]] + Chunks(wire[CHUNK..])
  }

  /** What is kept of a wire: each chunk's hash and length. */
  datatype Mark = Mark(hash: nat, length: nat)

  function Marks(wire: Bytes, hash: Bytes -> nat): seq<Mark> {
    var chunks := Chunks(wire);
    seq(|chunks|, k requires 0 <= k < |chunks| => Mark(hash(chunks[k]), |chunks[k]|))
  }

  /** The zip, take-while-equal and sum of the original. */
  function Floor(a: seq<Mark>, b: seq<Mark>): nat {
    if |a| == 0 || |b| == 0 || a[0] != b[0] then 0 else a[0].length + Floor(a[1..], b[1..])
  }

  /** The length of the longest common prefix. */
  function Shared(a: Bytes, b: Bytes): nat {
    if |a| == 0 || |b| == 0 || a[0] != b[0] then 0 else 1 + Shared(a[1..], b[1..])
  }

  /** No chunk of one wire shares its hash with a different chunk of the other. */
  ghost predicate CollisionFree(a: Bytes, b: Bytes, hash: Bytes -> nat) {
    forall x, y :: x in Chunks(a) && y in Chunks(b) && hash(x) == hash(y) ==> x == y
  }

  /** `Shared` is what it says: a common prefix of that length, and no longer one. */
  lemma {:induction false} SharedIsLongest(a: Bytes, b: Bytes)
    ensures Shared(a, b) <= |a| && Shared(a, b) <= |b|
    ensures a[..Shared(a, b)] == b[..Shared(a, b)]
    ensures Shared(a, b) < |a| && Shared(a, b) < |b| ==> a[Shared(a, b)] != b[Shared(a, b)]
  {
    if |a| > 0 && |b| > 0 && a[0] == b[0] {
      SharedIsLongest(a[1..], b[1..]);
      var n := Shared(a[1..], b[1..]);
      assert a[..n + 1] == [a[0]] + a[1..][..n];
      assert b[..n + 1] == [b[0]] + b[1..][..n];
    }
  }

  lemma {:induction false} SharedAfter(a: Bytes, b: Bytes, n: nat)
    requires n <= |a| && n <= |b| && a[..n] == b[..n]
    ensures Shared(a, b) == n + Shared(a[n..], b[n..])
  {
    if n == 0 {
      assert a[0..] == a && b[0..] == b;
    } else {
      assert a[0] == a[..n][0] && b[0] == b[..n][0];
      assert a[1..][..n - 1] == a[..n][1..] && b[1..][..n - 1] == b[..n][1..];
      assert a[1..][n - 1..] == a[n..] && b[1..][n - 1..] == b[n..];
      SharedAfter(a[1..], b[1..], n - 1);
    }
  }

  function Head(wire: Bytes): Bytes
    requires |wire| > 0
  {
    if |wire| <= CHUNK then wire else wire[..CHUNK]
  }

  function Rest(wire: Bytes): Bytes {
    if |wire| <= CHUNK then [] else wire[CHUNK..]
  }

  lemma {:induction false} MarksSplit(wire: Bytes, hash: Bytes -> nat)
    requires |wire| > 0
    ensures |Marks(wire, hash)| > 0 && Marks(wire, hash)[0] == Mark(hash(Head(wire)), |Head(wire)|)
    ensures Marks(wire, hash)[1..] == Marks(Rest(wire), hash)
    ensures Chunks(wire) == [Head(wire)] + Chunks(Rest(wire))
  {
  }

  /** Different first chunks leave less than one chunk in common. */
  lemma {:induction false} HeadsDiffer(a: Bytes, b: Bytes)
    requires |a| > 0 && |b| > 0 && Head(a) != Head(b)
    ensures Shared(a, b) < CHUNK
  {
    SharedIsLongest(a, b);
  }

  /**
    With collision-free chunk hashes the floor never exceeds the longest common prefix, is less than one chunk
    below it, and is the whole length when the wires are the same.
   */
  lemma {:induction false} FloorBounds(a: Bytes, b: Bytes, hash: Bytes -> nat)
    requires CollisionFree(a, b, hash)
    ensures Floor(Marks(a, hash), Marks(b, hash)) <= Shared(a, b) < Floor(Marks(a, hash), Marks(b, hash)) + CHUNK
    ensures a == b ==> Floor(Marks(a, hash), Marks(b, hash)) == |a|
    decreases |a|
  {
    hide Marks, Chunks;
    if |a| == 0 || |b| == 0 {
      NoMarks(hash);
    } else {
      MarksSplit(a, hash);
      MarksSplit(b, hash);
      assert Head(a) in Chunks(a) && Head(b) in Chunks(b);
      if Head(a) == Head(b) {
        HeadsAgree(a, b);
        FloorBounds(Rest(a), Rest(b), hash);
      } else {
        HeadsDiffer(a, b);
      }
    }
  }

  lemma {:induction false} NoMarks(hash: Bytes -> nat)
    ensures Marks([], hash) == []
  {
  }

  lemma {:induction false} HeadsAgree(a: Bytes, b: Bytes)
    requires |a| > 0 && |b| > 0 && Head(a) == Head(b)
    ensures Shared(a, b) == |Head(a)| + Shared(Rest(a), Rest(b))
  {
    var n := |Head(a)|;
    assert a[..n] == Head(a) && b[..n] == Head(b);
    SharedAfter(a, b, n);
    assert n < CHUNK ==> a[n..] == [] && b[n..] == [];
  }

  // --------------------------------------------------------------------- ring

  datatype Drained<T> = Drained(steps: seq<T>, dropped: nat, priorUnmeasured: bool)

  class Telemetry<T> {
    const hash: Bytes -> nat
    const priorProcess: bool
    var steps: seq<T>
    var dropped: nat
    var previous: Option<seq<Mark>>
    /** Every measurement pushed and every one handed out, and the last wire itself. */
    ghost var pushed: seq<T>
    ghost var drained: nat
    ghost var wire: Option<Bytes>

    /** The ring holds the newest measurements, and every other one was handed out or counted as dropped. */
    ghost predicate Valid()
      reads this
    {
      && |steps| <= RETAINED
      && |steps| <= |pushed| && steps == pushed[|pushed| - |steps|..]
      && |steps| + drained <= |pushed|
      && dropped == Saturated(|pushed| - |steps| - drained)
      && previous == (if wire.Some? then Some(Marks(wire.value, hash)) else None)
    }

    constructor (h: Bytes -> nat, resumed: bool)
      ensures Valid() && pushed == [] && drained == 0 && wire.None? && hash == h && priorProcess == resumed
    {
      hash, priorProcess, steps, dropped, previous := h, resumed, [], 0, None;
      pushed, drained, wire := [], 0, None;
      hide Marks;
    }

    /** `push`: at 64 the oldest goes and is counted. */
    method Push(measurement: T)
      requires Valid()
      modifies `steps, `dropped, `pushed
      ensures Valid() && pushed == old(pushed) + [measurement]
      ensures |steps| > 0 && steps[|steps| - 1] == measurement
    {
      if |steps| == RETAINED {
        steps := steps[1..];
        dropped := if dropped == U64_MAX then U64_MAX else dropped + 1;
      }
      steps := steps + [measurement];
      pushed := pushed + [measurement];
    }

    /** `drain`: hands out what is retained, and the count of what is not. */
    method Drain() returns (r: Drained<T>)
      requires Valid()
      modifies `steps, `drained
      ensures Valid() && steps == [] && drained == old(drained) + |r.steps|
      ensures r == Drained(old(steps), dropped, priorProcess)
      ensures dropped == 0 ==> drained == |pushed|
    {
      r := Drained(steps, dropped, priorProcess);
      drained := drained + |steps|;
      steps := [];
    }

    /** `wire`: the floor against the wire before, which it then replaces. */
    method Wire(next: Bytes) returns (floor: Option<nat>)
      requires Valid()
      modifies `previous, `wire
      ensures Valid() && wire == Some(next)
      ensures floor.Some? <==> old(wire).Some?
      ensures floor.Some? && CollisionFree(next, old(wire).value, hash) ==>
                floor.value <= Shared(next, old(wire).value) < floor.value + CHUNK
      ensures floor.Some? && CollisionFree(next, old(wire).value, hash) && next == old(wire).value ==>
                floor.value == |next|
    {
      hide Marks, Shared, CollisionFree;
      var marks := Marks(next, hash);
      if previous.None? {
        floor := None;
      } else {
        var n, sum := 0, 0;
        while n < |marks| && n < |previous.value| && marks[n] == previous.value[n]
          invariant n <= |marks| && n <= |previous.value|
          invariant Floor(marks, previous.value) == sum + Floor(marks[n..], previous.value[n..])
        {
          assert marks[n..][1..] == marks[n + 1..] && previous.value[n..][1..] == previous.value[n + 1..];
          sum := sum + marks[n].length;
          n := n + 1;
        }
        floor := Some(sum);
        if CollisionFree(next, wire.value, hash) {
          FloorBounds(next, wire.value, hash);
        }
      }
      previous, wire := Some(marks), Some(next);
    }
  }

  function Saturated(n: nat): nat {
    if n > U64_MAX then U64_MAX else n
  }
}
