/** Small shared vocabulary: optional values and facts about sequences. */
module Prelude {

  datatype Option<+T> = None | Some(value: T)

  /** s without its i-th element. */
  function Without<T>(s: seq<T>, i: nat): (r: seq<T>)
    requires i < |s|
    ensures |r| == |s| - 1
  {
    s[..i] + s[i + 1..]
  }

  lemma WithoutMembers<T>(s: seq<T>, i: nat)
    requires i < |s|
    ensures forall x :: x in Without(s, i) ==> x in s
    ensures forall x :: x in s && x != s[i] ==> x in Without(s, i)
  {
    forall x | x in s && x != s[i]
      ensures x in Without(s, i)
    {
      var j :| 0 <= j < |s| && s[j] == x;
      if j < i {
        assert Without(s, i)[j] == x;
      } else {
        assert Without(s, i)[j - 1] == x;
      }
    }
  }

  ghost predicate Distinct<T>(s: seq<T>) {
    forall i, j :: 0 <= i < j < |s| ==> s[i] != s[j]
  }

  /** What holds at i and is kept by every step holds ever after. */
  lemma {:induction false} Persists(holds: seq<bool>, i: nat, j: nat)
    requires i <= j < |holds| && holds[i] && forall k :: i <= k < |holds| - 1 && holds[k] ==> holds[k + 1]
    ensures holds[j]
    decreases j
  {
    if i < j {
      Persists(holds, i, j - 1);
    }
  }

  /** What only certain steps bring about, and none undoes, holds exactly after one of those. */
  lemma {:induction false} BroughtAbout(holds: seq<bool>, brings: seq<bool>, i: nat)
    requires i < |holds| == |brings| + 1 && !holds[0]
    requires forall k :: 0 <= k < |brings| ==> (holds[k + 1] <==> holds[k] || brings[k])
    ensures holds[i] <==> exists m: nat :: m < i && brings[m]
  {
    if i > 0 {
      BroughtAbout(holds, brings, i - 1);
    }
  }

  /** What holds at first and is undone only by certain steps holds, or one of those has been taken. */
  lemma {:induction false} KeptOrUndone(holds: seq<bool>, undoes: seq<bool>, i: nat)
    requires i < |holds| == |undoes| + 1 && holds[0]
    requires forall k :: 0 <= k < |undoes| ==> (holds[k] ==> holds[k + 1] || undoes[k])
    ensures holds[i] || exists m: nat :: m < i && undoes[m]
  {
    if i > 0 {
      KeptOrUndone(holds, undoes, i - 1);
    }
  }

  /** Where what holds at i, and did not hold at first, last began to hold. */
  lemma {:induction false} LastBeginning(holds: seq<bool>, i: nat) returns (k: nat)
    requires i < |holds| && holds[i] && !holds[0]
    ensures k < i && !holds[k] && forall j :: k < j <= i ==> holds[j]
  {
    k := i - 1;
    if holds[i - 1] {
      k := LastBeginning(holds, i - 1);
    }
  }
}
