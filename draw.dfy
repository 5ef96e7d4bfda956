/**
 * The draw engine of src/helper.ts: a Fisher-Yates shuffle inside a bounded
 * rejection loop that keeps the first shuffle with no fixed point.
 * src/services/startDraw.ts carries a private copy of both functions,
 * identical line for line; this module is the one definition of both.
 *
 * `Math.random()` is replaced by an index oracle: `oracle(attempt)(i)` is the
 * index `j` with `0 <= j <= i` that the shuffle of attempt `attempt` swaps
 * with position `i`.
 */
module Draw {
  import opened Types

  const MAX_ATTEMPTS: nat := 2000

  /**
   * The number of the first attempt: `let attempt = 0` of helper.ts. It is
   * named so that proofs do not unfold the whole attempt loop.
   */
  const FIRST_ATTEMPT: nat := 0

  /** The oracle keeps every index in range, as `floor(random * (i + 1))` does. */
  ghost predicate IndexOracle(pick: nat -> nat) {
    forall i: nat :: pick(i) <= i
  }

  ghost predicate AttemptOracle(oracle: nat -> nat -> nat) {
    forall attempt: nat, i: nat :: oracle(attempt)(i) <= i
  }

  /** `[a[i], a[j]] = [a[j], a[i]]` on a value. */
  function Swap<T>(s: seq<T>, i: nat, j: nat): (r: seq<T>)
    requires i < |s| && j < |s|
    ensures |r| == |s|
  {
    s[i := s[j]][j := s[i]]
  }

  /** The swap exchanges positions `i` and `j`, keeps every other one, and so keeps the multiset. */
  lemma SwapExchanges<T>(s: seq<T>, i: nat, j: nat)
    requires i < |s| && j < |s|
    ensures Swap(s, i, j)[i] == s[j] && Swap(s, i, j)[j] == s[i]
    ensures forall k :: 0 <= k < |s| && k != i && k != j ==> Swap(s, i, j)[k] == s[k]
    ensures multiset(Swap(s, i, j)) == multiset(s)
  {
  }

  /**
   * The shuffle as a value: the swaps of positions `i`, `i - 1`, ..., `1`
   * applied to `s` in that order.
   */
  function Shuffled<T>(s: seq<T>, pick: nat -> nat, i: int): (r: seq<T>)
    requires i < |s|
    requires IndexOracle(pick)
    ensures |r| == |s|
    decreases i
  {
    if i <= 0 then s else Shuffled(Swap(s, i, pick(i)), pick, i - 1)
  }

  /** Every shuffle is a permutation of its input. */
  lemma {:induction false} ShuffledIsPermutation<T>(s: seq<T>, pick: nat -> nat, i: int)
    requires i < |s| && IndexOracle(pick)
    ensures multiset(Shuffled(s, pick, i)) == multiset(s)
    decreases i
  {
    if i > 0 {
      var swapped := Swap(s, i, pick(i));
      SwapExchanges(s, i, pick(i));
      ShuffledIsPermutation(swapped, pick, i - 1);
      assert Shuffled(s, pick, i) == Shuffled(swapped, pick, i - 1);
    }
  }

  /** `[a[i], a[j]] = [a[j], a[i]]` on the array itself. */
  method SwapInPlace<T>(a: array<T>, i: nat, j: nat)
    requires i < a.Length && j < a.Length
    modifies a
    ensures a[..] == Swap(old(a[..]), i, j)
  {
    a[i], a[j] := a[j], a[i];
  }

  /** `shuffle(arr)`: copy, then swap each position from the last down to 1. */
  method Shuffle<T>(arr: seq<T>, pick: nat -> nat) returns (r: seq<T>)
    requires IndexOracle(pick)
    ensures r == Shuffled(arr, pick, |arr| - 1)
    ensures |r| == |arr| && multiset(r) == multiset(arr)
  {
    var a := new T[|arr|](k requires 0 <= k < |arr| => arr[k]);
    ghost var cur := arr;
    assert a[..] == cur;
    var i := a.Length - 1;
    while i > 0
      invariant -1 <= i < a.Length == |cur|
      invariant a[..] == cur
      invariant Shuffled(cur, pick, i) == Shuffled(arr, pick, |arr| - 1)
    {
      SwapInPlace(a, i, pick(i));
      cur := Swap(cur, i, pick(i));
      i := i - 1;
    }
    r := a[..];
    ShuffledIsPermutation(arr, pick, |arr| - 1);
  }

  /** A shuffle of length one or zero is the input itself. */
  lemma ShortShuffleIsIdentity<T>(s: seq<T>, pick: nat -> nat)
    requires |s| <= 1 && IndexOracle(pick)
    ensures Shuffled(s, pick, |s| - 1) == s
  {
  }

  /** The candidate of attempt number `attempt`. */
  function Candidate(participants: seq<Participant>, oracle: nat -> nat -> nat, attempt: nat): (r: seq<Participant>)
    requires AttemptOracle(oracle)
    ensures |r| == |participants|
  {
    Shuffled(participants, oracle(attempt), |participants| - 1)
  }

  /** No position keeps a participant with its own id. */
  predicate NoFixedPoint(participants: seq<Participant>, shuffled: seq<Participant>)
    requires |shuffled| == |participants|
  {
    forall i {:trigger shuffled[i]} :: 0 <= i < |participants| ==> participants[i].id != shuffled[i].id
  }

  /** The `{from, to}` lines that pair position by position. */
  function Pairs(participants: seq<Participant>, shuffled: seq<Participant>): (m: seq<Pair>)
    requires |shuffled| == |participants|
    ensures |m| == |participants|
    ensures forall i :: 0 <= i < |m| ==> m[i] == Pair(participants[i], shuffled[i])
  {
    seq(|participants|, i requires 0 <= i < |participants| => Pair(participants[i], shuffled[i]))
  }

  /** The `to` column of a mapping. */
  function Receivers(m: seq<Pair>): (r: seq<Participant>)
    ensures |r| == |m| && forall i :: 0 <= i < |m| ==> r[i] == m[i].to
  {
    seq(|m|, i requires 0 <= i < |m| => m[i].to)
  }

  /**
   * What an accepted mapping is: one line per participant in participant
   * order, no line with equal ids, and the `to` column a permutation of the
   * participants.
   */
  ghost predicate ValidMapping(participants: seq<Participant>, m: seq<Pair>) {
    && |m| == |participants|
    && (forall i :: 0 <= i < |m| ==> m[i].from == participants[i])
    && (forall i :: 0 <= i < |m| ==> m[i].to.id != m[i].from.id)
    && multiset(Receivers(m)) == multiset(participants)
  }

  /** An accepted candidate yields a valid mapping. */
  lemma AcceptedPairsAreValid(participants: seq<Participant>, shuffled: seq<Participant>)
    requires |shuffled| == |participants| && multiset(shuffled) == multiset(participants)
    requires NoFixedPoint(participants, shuffled)
    ensures ValidMapping(participants, Pairs(participants, shuffled))
  {
    var m := Pairs(participants, shuffled);
    assert Receivers(m) == shuffled;
  }

  /**
   * The result of the attempt loop from `attempt` on: the mapping of the
   * first candidate with no fixed point, or None once MAX_ATTEMPTS is reached.
   */
  function Generated(participants: seq<Participant>, oracle: nat -> nat -> nat, attempt: nat): (r: Option<seq<Pair>>)
    requires AttemptOracle(oracle)
    ensures r.Some? ==> |r.value| == |participants|
    decreases MAX_ATTEMPTS - attempt
  {
    if attempt >= MAX_ATTEMPTS then None
    else
      var shuffled := Candidate(participants, oracle, attempt);
      if NoFixedPoint(participants, shuffled) then Some(Pairs(participants, shuffled))
      else Generated(participants, oracle, attempt + 1)
  }

  /**
   * A non-null result has one line per participant in participant order, no
   * line pairing equal ids, and a `to` column that permutes the participants.
   */
  lemma {:induction false} GeneratedIsValid(participants: seq<Participant>, oracle: nat -> nat -> nat, attempt: nat)
    requires AttemptOracle(oracle)
    ensures Generated(participants, oracle, attempt).Some? ==>
            ValidMapping(participants, Generated(participants, oracle, attempt).value)
    decreases MAX_ATTEMPTS - attempt
  {
    if attempt < MAX_ATTEMPTS {
      if NoFixedPoint(participants, Candidate(participants, oracle, attempt)) {
        AcceptedCandidateIsValid(participants, oracle, attempt);
      } else {
        GeneratedIsValid(participants, oracle, attempt + 1);
      }
    }
  }

  /** An attempt whose candidate has no fixed point gives a valid mapping. */
  lemma AcceptedCandidateIsValid(participants: seq<Participant>, oracle: nat -> nat -> nat, attempt: nat)
    requires AttemptOracle(oracle)
    requires NoFixedPoint(participants, Candidate(participants, oracle, attempt))
    ensures ValidMapping(participants, Pairs(participants, Candidate(participants, oracle, attempt)))
  {
    ShuffledIsPermutation(participants, oracle(attempt), |participants| - 1);
    AcceptedPairsAreValid(participants, Candidate(participants, oracle, attempt));
  }

  /** With a single participant every attempt is rejected: the result is null. */
  lemma {:induction false} SingleParticipantNeverDrawn(participants: seq<Participant>, oracle: nat -> nat -> nat, attempt: nat)
    requires AttemptOracle(oracle) && |participants| == 1
    ensures Generated(participants, oracle, attempt).None?
    decreases MAX_ATTEMPTS - attempt
  {
    if attempt < MAX_ATTEMPTS {
      ShortShuffleIsIdentity(participants, oracle(attempt));
      assert Candidate(participants, oracle, attempt)[0] == participants[0];
      SingleParticipantNeverDrawn(participants, oracle, attempt + 1);
    }
  }

  /** The `valid` flag loop of generateValidMapping, with its early break. */
  method CheckNoFixedPoint(participants: seq<Participant>, shuffled: seq<Participant>) returns (valid: bool)
    requires |shuffled| == |participants|
    ensures valid <==> NoFixedPoint(participants, shuffled)
  {
    valid := true;
    var i := 0;
    while i < |participants|
      invariant 0 <= i <= |participants|
      invariant valid
      invariant forall k :: 0 <= k < i ==> participants[k].id != shuffled[k].id
    {
      if participants[i].id == shuffled[i].id {
        valid := false;
        break;
      }
      i := i + 1;
    }
  }

  /** The loop of generateValidMapping that pushes the `{from, to}` lines. */
  method PushPairs(participants: seq<Participant>, shuffled: seq<Participant>) returns (mapping: seq<Pair>)
    requires |shuffled| == |participants|
    ensures mapping == Pairs(participants, shuffled)
  {
    mapping := [];
    for i := 0 to |participants|
      invariant |mapping| == i
      invariant forall k :: 0 <= k < i ==> mapping[k] == Pair(participants[k], shuffled[k])
    {
      mapping := mapping + [Pair(participants[i], shuffled[i])];
    }
  }

  /** One pass of the attempt loop: shuffle, check, and push the lines when the check passes. */
  method TryAttempt(participants: seq<Participant>, oracle: nat -> nat -> nat, attempt: nat)
    returns (r: Option<seq<Pair>>)
    requires AttemptOracle(oracle)
    ensures Accepted(participants, oracle, attempt) ==>
              r == Some(Pairs(participants, Candidate(participants, oracle, attempt)))
    ensures !Accepted(participants, oracle, attempt) ==> r.None?
  {
    var shuffled := Shuffle(participants, oracle(attempt));
    var valid := CheckNoFixedPoint(participants, shuffled);
    if valid {
      var mapping := PushPairs(participants, shuffled);
      return Some(mapping);
    }
    return None;
  }

  /** The attempt loop in one step: an accepted attempt ends it, a rejected one moves on. */
  lemma GeneratedStep(participants: seq<Participant>, oracle: nat -> nat -> nat, attempt: nat)
    requires AttemptOracle(oracle) && attempt < MAX_ATTEMPTS
    ensures Accepted(participants, oracle, attempt) ==>
              Generated(participants, oracle, attempt) == Some(Pairs(participants, Candidate(participants, oracle, attempt)))
    ensures !Accepted(participants, oracle, attempt) ==>
              Generated(participants, oracle, attempt) == Generated(participants, oracle, attempt + 1)
  {
  }

  /** `generateValidMapping(participants)`. */
  method GenerateValidMapping(participants: seq<Participant>, oracle: nat -> nat -> nat)
    returns (r: Option<seq<Pair>>)
    requires AttemptOracle(oracle)
    ensures r == Generated(participants, oracle, FIRST_ATTEMPT)
    ensures r.Some? ==> ValidMapping(participants, r.value)
  {
    var attempt := FIRST_ATTEMPT;
    while attempt < MAX_ATTEMPTS
      invariant 0 <= attempt <= MAX_ATTEMPTS
      invariant Generated(participants, oracle, attempt) == Generated(participants, oracle, FIRST_ATTEMPT)
    {
      var found := TryAttempt(participants, oracle, attempt);
      GeneratedStep(participants, oracle, attempt);
      if found.Some? {
        GeneratedIsValid(participants, oracle, FIRST_ATTEMPT);
        return found;
      }
      attempt := attempt + 1;
    }
    return None;
  }

  /** With no participants the first attempt is accepted: the empty mapping. */
  lemma EmptyDrawIsEmptyMapping(oracle: nat -> nat -> nat)
    requires AttemptOracle(oracle)
    ensures Generated([], oracle, FIRST_ATTEMPT) == Some([])
  {
  }

  /** Attempt number `attempt` draws a candidate with no fixed point. */
  predicate Accepted(participants: seq<Participant>, oracle: nat -> nat -> nat, attempt: nat)
    requires AttemptOracle(oracle)
  {
    NoFixedPoint(participants, Candidate(participants, oracle, attempt))
  }

  /** The loop result is null exactly when every remaining attempt is rejected. */
  lemma {:induction false} GeneratedNoneIffAllRejected(participants: seq<Participant>, oracle: nat -> nat -> nat, attempt: nat)
    requires AttemptOracle(oracle)
    ensures Generated(participants, oracle, attempt).None? <==>
            forall a :: attempt <= a < MAX_ATTEMPTS ==> !Accepted(participants, oracle, a)
    decreases MAX_ATTEMPTS - attempt
  {
    if attempt < MAX_ATTEMPTS {
      GeneratedNoneIffAllRejected(participants, oracle, attempt + 1);
      if Accepted(participants, oracle, attempt) {
        assert Generated(participants, oracle, attempt).Some?;
      } else {
        assert Generated(participants, oracle, attempt) == Generated(participants, oracle, attempt + 1);
        assert (forall a :: attempt <= a < MAX_ATTEMPTS ==> !Accepted(participants, oracle, a)) <==>
               (forall a :: attempt + 1 <= a < MAX_ATTEMPTS ==> !Accepted(participants, oracle, a));
      }
    }
  }

  /**
   * When attempt `a` is the first accepted one from `attempt` on, the loop
   * result is the mapping of attempt `a`.
   */
  lemma {:induction false} GeneratedIsFirstAccepted(participants: seq<Participant>, oracle: nat -> nat -> nat, attempt: nat, a: nat)
    requires AttemptOracle(oracle)
    requires attempt <= a < MAX_ATTEMPTS && Accepted(participants, oracle, a)
    requires forall b :: attempt <= b < a ==> !Accepted(participants, oracle, b)
    ensures Generated(participants, oracle, attempt) == Some(Pairs(participants, Candidate(participants, oracle, a)))
    decreases a - attempt
  {
    if attempt < a {
      assert !Accepted(participants, oracle, attempt);
      assert Generated(participants, oracle, attempt) == Generated(participants, oracle, attempt + 1);
      GeneratedIsFirstAccepted(participants, oracle, attempt + 1, a);
    }
  }

  /** Distinct elements occur once each. */
  lemma {:induction false} DistinctOccursOnce<T>(s: seq<T>, k: nat)
    requires k < |s|
    requires forall i, j :: 0 <= i < j < |s| ==> s[i] != s[j]
    ensures multiset(s)[s[k]] == 1
  {
    if k == 0 {
      assert s == [s[0]] + s[1..];
      assert s[0] !in s[1..];
    } else {
      assert s == [s[0]] + s[1..];
      DistinctOccursOnce(s[1..], k - 1);
    }
  }

  /**
   * When participant ids are unique, every participant is the `to` of exactly
   * one line of an accepted mapping.
   */
  lemma ReceivedExactlyOnce(participants: seq<Participant>, m: seq<Pair>, k: nat)
    requires UniqueIds(participants) && ValidMapping(participants, m) && k < |participants|
    ensures multiset(Receivers(m))[participants[k]] == 1
  {
    DistinctOccursOnce(participants, k);
  }
}
