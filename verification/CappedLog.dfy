/** The size-capped build log of `src/exec.rs`. */
module CappedLog {
  import opened Counting

  type Bytes = seq<bv8>

  function First(s: Bytes, n: nat): Bytes {
    if |s| <= n then s else s[..n]
  }

  function Concat(messages: seq<Bytes>): Bytes {
    if messages == [] then [] else Concat(messages[..|messages| - 1]) + messages[|messages| - 1]
  }

  class LogFile {
    const maxBytes: nat
    var content: Bytes

    constructor (maxBytes: nat)
      ensures this.maxBytes == maxBytes && content == []
    {
      this.maxBytes, content := maxBytes, [];
    }

    /** `append_log` whose write finishes before it returns. */
    method Append(message: Bytes)
      modifies `content
      ensures |old(content)| <= maxBytes ==> content == First(old(content) + message, maxBytes)
      ensures |old(content)| > maxBytes ==> content == old(content)
    {
      var currentLen := |content|;
      if currentLen >= maxBytes {
        assert currentLen == maxBytes ==> First(content + message, maxBytes) == content;
        return;
      }
      var remaining := maxBytes - currentLen;
      var limit := if remaining <= |message| then remaining else |message|;
      if limit == 0 {
        assert content + message == content;
        return;
      }
      assert (content + message)[..currentLen + limit] == content + message[..limit];
      content := content + message[..limit];
    }

    /** The loop of `pipe_reader` over the lines of one stream; a fresh log holds their first bytes. */
    method AppendAll(messages: seq<Bytes>)
      modifies `content
      ensures |old(content)| <= maxBytes ==> content == First(old(content) + Concat(messages), maxBytes)
      ensures |old(content)| > maxBytes ==> content == old(content)
    {
      var i := 0;
      assert old(content) + Concat(messages[..0]) == old(content);
      while i < |messages|
        invariant 0 <= i <= |messages|
        invariant |old(content)| <= maxBytes ==> content == First(old(content) + Concat(messages[..i]), maxBytes)
        invariant |old(content)| > maxBytes ==> content == old(content)
      {
        assert messages[..i + 1][..i] == messages[..i];
        CapTwice(old(content) + Concat(messages[..i]), messages[i], maxBytes);
        assert old(content) + Concat(messages[..i + 1]) == old(content) + Concat(messages[..i]) + messages[i];
        Append(messages[i]);
        i := i + 1;
      }
      assert messages[..i] == messages;
    }
  }

  /** Capping before an append changes nothing that survives the cap after it. */
  lemma CapTwice(a: Bytes, b: Bytes, n: nat)
    ensures First(First(a, n) + b, n) == First(a + b, n)
  {
    if |a| > n {
      assert (a[..n] + b)[..n] == (a + b)[..n];
    }
  }

  // Several readers of one file: each looks at the length, then writes what it decided on.

  /** The length of the file and, for each reader, the bytes it has decided to write. */
  datatype Race = Race(len: nat, pending: seq<nat>)

  datatype RaceStep = Look(i: nat, size: nat) | Write(i: nat)

  function Limit(maxBytes: nat, len: nat, size: nat): nat {
    if len >= maxBytes then 0 else if maxBytes - len <= size then maxBytes - len else size
  }

  predicate CanRace(s: Race, step: RaceStep) {
    match step
    case Look(i, _) => i < |s.pending| && s.pending[i] == 0
    case Write(i) => i < |s.pending|
  }

  function RaceNext(maxBytes: nat, s: Race, step: RaceStep): Race
    requires CanRace(s, step)
  {
    match step
    case Look(i, size) => s.(pending := s.pending[i := Limit(maxBytes, s.len, size)])
    case Write(i) => Race(s.len + s.pending[i], s.pending[i := 0])
  }

  function Id(n: nat): nat { n }

  /** File length plus decided writes. */
  function Total(s: Race): nat {
    s.len + Sum(s.pending, Id)
  }

  ghost predicate RaceInv(maxBytes: nat, s: Race) {
    && (forall i :: 0 <= i < |s.pending| ==> s.pending[i] <= maxBytes)
    && (s.pending != [] ==> Total(s) <= |s.pending| * maxBytes)
    && (s.pending == [] ==> s.len == 0)
  }

  lemma {:induction false} SumBound(xs: seq<nat>, bound: nat)
    requires forall i :: 0 <= i < |xs| ==> xs[i] <= bound
    ensures Sum(xs, Id) <= |xs| * bound
  {
    if xs != [] {
      SumBound(xs[1..], bound);
      assert |xs| * bound == |xs[1..]| * bound + bound;
    }
  }

  /** What the other readers have decided on. */
  lemma OthersBound(maxBytes: nat, pending: seq<nat>, i: nat)
    requires i < |pending| && forall j :: 0 <= j < |pending| ==> pending[j] <= maxBytes
    ensures Sum(pending, Id) - pending[i] + maxBytes <= |pending| * maxBytes
  {
    var others := pending[..i] + pending[i + 1..];
    SumWithout(pending, i);
    SumBound(others, maxBytes);
    OneMore(|others|, maxBytes);
  }

  lemma OneMore(n: nat, bound: nat)
    ensures (n + 1) * bound == n * bound + bound
  {
  }

  lemma LookKeepsBound(maxBytes: nat, s: Race, i: nat, size: nat)
    requires RaceInv(maxBytes, s) && CanRace(s, Look(i, size))
    ensures RaceInv(maxBytes, RaceNext(maxBytes, s, Look(i, size)))
  {
    SumUpdate(s.pending, i, Limit(maxBytes, s.len, size), Id);
    OthersBound(maxBytes, s.pending, i);
  }

  lemma {:induction false} SumWithout(xs: seq<nat>, i: nat)
    requires i < |xs|
    ensures Sum(xs, Id) == Sum(xs[..i] + xs[i + 1..], Id) + xs[i]
  {
    if i == 0 {
      assert xs[..0] + xs[1..] == xs[1..];
    } else {
      SumWithout(xs[1..], i - 1);
      var without := xs[..i] + xs[i + 1..];
      assert without[0] == xs[0] && without[1..] == xs[1..][..i - 1] + xs[1..][i..];
    }
  }

  lemma RaceStepKeepsInv(maxBytes: nat, s: Race, step: RaceStep)
    requires RaceInv(maxBytes, s) && CanRace(s, step)
    ensures RaceInv(maxBytes, RaceNext(maxBytes, s, step))
  {
    match step
    case Look(i, size) => LookKeepsBound(maxBytes, s, i, size);
    case Write(i) => SumUpdate(s.pending, i, 0, Id);
  }

  function Idle(readers: nat): Race {
    Race(0, seq(readers, _ => 0))
  }

  ghost predicate IsRace(maxBytes: nat, readers: nat, run: seq<Race>, steps: seq<RaceStep>) {
    && |run| == |steps| + 1 && run[0] == Idle(readers)
    && forall i :: 0 <= i < |steps| ==> CanRace(run[i], steps[i]) && run[i + 1] == RaceNext(maxBytes, run[i], steps[i])
  }

  lemma {:induction false} RaceRunInv(maxBytes: nat, readers: nat, run: seq<Race>, steps: seq<RaceStep>, i: nat)
    requires IsRace(maxBytes, readers, run, steps) && i < |run|
    ensures RaceInv(maxBytes, run[i]) && |run[i].pending| == readers
  {
    if i == 0 {
      SumBound(Idle(readers).pending, 0);
    } else {
      RaceRunInv(maxBytes, readers, run, steps, i - 1);
      RaceStepKeepsInv(maxBytes, run[i - 1], steps[i - 1]);
      assert run[i - 1 + 1] == RaceNext(maxBytes, run[i - 1], steps[i - 1]);
    }
  }

  /** The stdout and stderr readers of a command never bring the file beyond twice its limit. */
  lemma TwoReadersAtMostDouble(maxBytes: nat, run: seq<Race>, steps: seq<RaceStep>, i: nat)
    requires IsRace(maxBytes, 2, run, steps) && i < |run|
    ensures Total(run[i]) <= 2 * maxBytes
  {
    RaceRunInv(maxBytes, 2, run, steps, i);
  }

  /** In general each further reader can add the limit once more. */
  lemma ReadersAtMostMultiply(maxBytes: nat, readers: nat, run: seq<Race>, steps: seq<RaceStep>, i: nat)
    requires IsRace(maxBytes, readers, run, steps) && i < |run|
    ensures Total(run[i]) <= readers * maxBytes
  {
    RaceRunInv(maxBytes, readers, run, steps, i);
    assert readers == 0 ==> run[i].pending == [];
  }

  /** The bound is reached: when both readers look before either writes, the file grows to twice its limit. */
  lemma DoubleIsReached(maxBytes: nat) returns (run: seq<Race>, steps: seq<RaceStep>)
    ensures IsRace(maxBytes, 2, run, steps) && run[|run| - 1].len == 2 * maxBytes
  {
    steps := [Look(0, maxBytes), Look(1, maxBytes), Write(0), Write(1)];
    assert Idle(2).pending == [0, 0];
    run := [Race(0, [0, 0]), Race(0, [maxBytes, 0]), Race(0, [maxBytes, maxBytes]),
            Race(maxBytes, [0, maxBytes]), Race(2 * maxBytes, [0, 0])];
    assert [0, 0][0 := maxBytes] == [maxBytes, 0] && [maxBytes, 0][1 := maxBytes] == [maxBytes, maxBytes];
    assert [maxBytes, maxBytes][0 := 0] == [0, maxBytes] && [0, maxBytes][1 := 0] == [0, 0];
  }
}
