/**
 * ShufflePassword of src/password_gen.c: a descending Fisher-Yates shuffle
 * whose swap targets are drawn by rejection sampling over 32-bit words.
 *
 * The CryptoAPI random source is a sequence of draws; each is either a word or
 * a failure. Running out of draws counts as a failed draw. On a failed draw
 * the C function returns at once and leaves the buffer as far as it got.
 */
module Shuffle {

  import opened Common
  import opened RejectionSampling

  /** One CryptGenRandom call for a DWORD: a value, or a failure. */
  datatype Draw = Failed | Drawn(value: Dword)

  /**
   * The do-while rejection loop: draw until a value below threshold; a failed
   * draw ends the loop with None. On success, the accepted value and the draws
   * that remain.
   */
  function AcceptDraw(draws: seq<Draw>, threshold: int): (r: Option<(Dword, seq<Draw>)>)
    ensures r.Some? ==> r.value.0 < threshold
    ensures r.Some? ==> |r.value.1| < |draws|
  {
    if draws == [] || draws[0].Failed? then None
    else if draws[0].value < threshold then Some((draws[0].value, draws[1..]))
    else AcceptDraw(draws[1..], threshold)
  }

  /** The swap target for position i: an accepted value reduced modulo the range i + 1. */
  function SwapTarget(value: Dword, i: nat): (j: nat)
    ensures j <= i
  {
    value % (i + 1)
  }

  /** Exchange positions i and j; nothing else moves. */
  function Swap(s: seq<char>, i: nat, j: nat): (r: seq<char>)
    requires i < |s| && j < |s|
    ensures |r| == |s| && r[i] == s[j] && r[j] == s[i]
    ensures forall k :: 0 <= k < |s| && k != i && k != j ==> r[k] == s[k]
    ensures multiset(r) == multiset(s)
  {
    var r := s[i := s[j]][j := s[i]];
    assert multiset(s[i := s[j]]) == multiset(s) - multiset{s[i]} + multiset{s[j]};
    r
  }

  /**
   * The shuffle from step i downwards: at each i > 0, draw a target j in
   * [0, i], swap positions i and j, and go on with i - 1. Stops unchanged
   * when a draw fails. The result is always a permutation of s, and the
   * positions above i are never written.
   */
  function ShuffleFrom(s: seq<char>, i: int, draws: seq<Draw>): (r: seq<char>)
    requires -1 <= i < |s| <= IntMax
    ensures |r| == |s| && multiset(r) == multiset(s)
    ensures forall k :: i < k < |s| ==> r[k] == s[k]
    ensures i <= 0 ==> r == s
    decreases i + 1
  {
    if i <= 0 then s
    else match AcceptDraw(draws, Threshold(i + 1))
      case None => s
      case Some((value, rest)) => ShuffleFrom(Swap(s, i, SwapTarget(value, i)), i - 1, rest)
  }

  /** The whole shuffle of a buffer: from its last position down to 1. */
  function Shuffled(s: seq<char>, draws: seq<Draw>): (r: seq<char>)
    requires |s| <= IntMax
    ensures |r| == |s| && multiset(r) == multiset(s)
    ensures |s| <= 1 ==> r == s
  {
    ShuffleFrom(s, |s| - 1, draws)
  }

  /**
   * Once step i has drawn target j, position i holds the character that was
   * at j, and no later step writes position i again.
   */
  lemma StepFixesPosition(s: seq<char>, i: int, draws: seq<Draw>)
    requires 0 < i < |s| <= IntMax && AcceptDraw(draws, Threshold(i + 1)).Some?
    ensures ShuffleFrom(s, i, draws)[i] == s[SwapTarget(AcceptDraw(draws, Threshold(i + 1)).value.0, i)]
  {
  }

  /**
   * A failed draw at step i, whether the first one or one after rejected
   * draws, ends the shuffle: the buffer is left as it is.
   */
  lemma FailedDrawStops(s: seq<char>, i: int, draws: seq<Draw>)
    requires 0 < i < |s| <= IntMax && AcceptDraw(draws, Threshold(i + 1)).None?
    ensures ShuffleFrom(s, i, draws) == s
  {
  }

  /** One step of the shuffle, unfolded: the accepted draw fixes the swap, then step i - 1 follows. */
  lemma StepUnfolds(s: seq<char>, i: int, draws: seq<Draw>, value: Dword, rest: seq<Draw>)
    requires 0 < i < |s| <= IntMax
    requires AcceptDraw(draws, Threshold(i + 1)) == Some((value, rest))
    ensures ShuffleFrom(s, i, draws) == ShuffleFrom(Swap(s, i, SwapTarget(value, i)), i - 1, rest)
  {
  }

  /**
   * The do-while loop of ShufflePassword: redraw while the value is at or
   * above the threshold; None as soon as a draw fails.
   */
  method DrawBelow(draws: seq<Draw>, threshold: int) returns (result: Option<(Dword, seq<Draw>)>)
    ensures result == AcceptDraw(draws, threshold)
  {
    var rest := draws;
    while true
      invariant AcceptDraw(rest, threshold) == AcceptDraw(draws, threshold)
      decreases |rest|
    {
      if rest == [] || rest[0].Failed? {
        return None;
      }
      var value := rest[0].value;
      rest := rest[1..];
      if value < threshold {
        return Some((value, rest));
      }
    }
  }

  /** The three-statement swap through temp: password[i] and password[j] change places. */
  method SwapCells(password: array<char>, i: nat, j: nat)
    requires i < password.Length && j < password.Length
    modifies password
    ensures password[..] == Swap(old(password[..]), i, j)
  {
    var temp := password[i];
    password[i] := password[j];
    password[j] := temp;
  }

  /**
   * ShufflePassword: for i from length-1 down to 1, draw a value below the
   * threshold and swap password[i] with password[value % (i+1)]. A failed
   * draw returns at once, leaving the buffer partly shuffled.
   */
  method ShufflePassword(password: array<char>, draws: seq<Draw>)
    requires password.Length <= IntMax
    modifies password
    ensures password[..] == Shuffled(old(password[..]), draws)
    ensures multiset(password[..]) == multiset(old(password[..]))
  {
    var rest := draws;
    var i := password.Length - 1;
    ghost var target := Shuffled(password[..], draws);
    while i > 0
      invariant -1 <= i < password.Length
      invariant ShuffleFrom(password[..], i, rest) == target
      decreases i
    {
      var range := i + 1;
      var threshold := Threshold(range);
      ghost var before := rest;
      var drawn := DrawBelow(rest, threshold);
      if drawn.None? {
        return;
      }
      var value := drawn.value.0;
      rest := drawn.value.1;
      var j := SwapTarget(value, i);  // value % range
      StepUnfolds(password[..], i, before, value, rest);
      SwapCells(password, i, j);
      i := i - 1;
    }
  }

  /**
   * The swap targets a complete shuffle from step i down to 1 draws, in the
   * order it draws them; None when a draw fails on the way.
   */
  function Choices(i: int, draws: seq<Draw>): (r: Option<seq<nat>>)
    requires -1 <= i < IntMax
    ensures r.Some? ==> |r.value| == if i <= 0 then 0 else i
    ensures r.Some? ==> forall k :: 0 <= k < |r.value| ==> r.value[k] <= i - k
    decreases i + 1
  {
    if i <= 0 then Some([])
    else match AcceptDraw(draws, Threshold(i + 1))
      case None => None
      case Some((value, rest)) =>
        match Choices(i - 1, rest)
        case None => None
        case Some(js) => Some([SwapTarget(value, i)] + js)
  }

  /** Swapping two positions of a string without repeated characters keeps it so. */
  lemma SwapKeepsDistinct(s: seq<char>, i: nat, j: nat)
    requires i < |s| && j < |s| && NoDuplicates(s)
    ensures NoDuplicates(Swap(s, i, j))
  {
    var r := Swap(s, i, j);
    forall a, b | 0 <= a < b < |r| ensures r[a] != r[b] {
      var a' := if a == i then j else if a == j then i else a;
      var b' := if b == i then j else if b == j then i else b;
      assert r[a] == s[a'] && r[b] == s[b'] && a' != b';
    }
  }

  /**
   * Two complete shuffles of a string without repeated characters that draw
   * different swap targets produce different strings: each sequence of
   * accepted targets gives its own permutation.
   */
  lemma {:induction false} ShuffleInjective(s: seq<char>, i: int, d1: seq<Draw>, d2: seq<Draw>)
    requires -1 <= i < |s| <= IntMax && NoDuplicates(s)
    requires Choices(i, d1).Some? && Choices(i, d2).Some? && Choices(i, d1) != Choices(i, d2)
    ensures ShuffleFrom(s, i, d1) != ShuffleFrom(s, i, d2)
    decreases i + 1
  {
    var t := Threshold(i + 1);
    var (v1, rest1) := AcceptDraw(d1, t).value;
    var (v2, rest2) := AcceptDraw(d2, t).value;
    var j1, j2 := SwapTarget(v1, i), SwapTarget(v2, i);
    StepFixesPosition(s, i, d1);
    StepFixesPosition(s, i, d2);
    if j1 == j2 {
      var tail1, tail2 := Choices(i - 1, rest1), Choices(i - 1, rest2);
      assert Choices(i, d1) == Some([j1] + tail1.value);
      assert Choices(i, d2) == Some([j2] + tail2.value);
      assert tail1 != tail2;
      var swapped := Swap(s, i, j1);
      SwapKeepsDistinct(s, i, j1);
      ShuffleInjective(swapped, i - 1, rest1, rest2);
      StepUnfolds(s, i, d1, v1, rest1);
      StepUnfolds(s, i, d2, v2, rest2);
    } else {
      assert s[j1] != s[j2];
    }
  }
}
