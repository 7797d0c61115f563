/** Picking elements out of a sequence without changing their order. */
module Sequences {

  /** `ks` are positions in a sequence of `n` elements, in order. */
  predicate Increasing(ks: seq<nat>, n: nat) {
    && (forall i :: 0 <= i < |ks| ==> ks[i] < n)
    && (forall i, j :: 0 <= i < j < |ks| ==> ks[i] < ks[j])
  }

  function Shifted(ks: seq<nat>): seq<nat> {
    seq(|ks|, i requires 0 <= i < |ks| => ks[i] + 1)
  }

  /** One element is put in front, and picked or not. */
  lemma PickInFront(ks: seq<nat>, n: nat, picked: bool)
    requires Increasing(ks, n)
    ensures var ks' := (if picked then [0] else []) + Shifted(ks);
      && Increasing(ks', n + 1)
      && (0 in ks' <==> picked)
      && (forall k: nat :: k + 1 in ks' <==> k in ks)
  {
    var shifted := Shifted(ks);
    forall k: nat ensures k + 1 in shifted <==> k in ks {
      if k in ks {
        var i :| 0 <= i < |ks| && ks[i] == k;
        assert shifted[i] == k + 1;
      }
    }
  }

  lemma LeftOutIsEarlier(ks: seq<nat>, cut: nat, i: nat)
    requires cut <= |ks| && i < |ks| && ks[i] !in ks[cut..]
    ensures i < cut
  {
  }

  /** The later part of the picks, and what it leaves out. */
  lemma LastPicks(ks: seq<nat>, n: nat, cut: nat)
    requires Increasing(ks, n) && cut <= |ks|
    ensures Increasing(ks[cut..], n)
    ensures forall k: nat :: k in ks && k !in ks[cut..] ==> cut > 0 && (cut < |ks| ==> k < ks[cut])
  {
    forall k: nat | k in ks && k !in ks[cut..] ensures cut > 0 && (cut < |ks| ==> k < ks[cut]) {
      var i :| 0 <= i < |ks| && ks[i] == k;
      assert i < cut by { LeftOutIsEarlier(ks, cut, i); }
    }
  }

  /** `picked` is `whole` without the elements that are not flagged; `ks` are the positions of the others. */
  ghost predicate Picks<T>(picked: seq<T>, whole: seq<T>, flags: seq<bool>, ks: seq<nat>) {
    && |flags| == |whole| && Increasing(ks, |whole|) && |picked| == |ks|
    && (forall i :: 0 <= i < |ks| ==> ks[i] < |whole| && picked[i] == whole[ks[i]])
    && (forall k: nat :: k in ks <==> k < |whole| && flags[k])
  }

  lemma PicksNothing<T>()
    ensures Picks<T>([], [], [], [])
  {
  }

  lemma PicksFirst<T>(picked: seq<T>, first: T, rest: seq<T>, flag: bool, flags: seq<bool>, ks: seq<nat>)
    requires Picks(picked, rest, flags, ks)
    ensures Picks((if flag then [first] else []) + picked, [first] + rest, [flag] + flags,
                  (if flag then [0] else []) + Shifted(ks))
  {
    PickInFront(ks, |rest|, flag);
    hide Increasing;
    var ks' := (if flag then [0] else []) + Shifted(ks);
    forall k: nat ensures k in ks' <==> k < |rest| + 1 && ([flag] + flags)[k] {
      if k > 0 { assert k - 1 in ks <==> k in ks'; }
    }
  }

  lemma PicksLast<T>(picked: seq<T>, before: seq<T>, last: T, flags: seq<bool>, flag: bool, ks: seq<nat>)
    requires Picks(picked, before, flags, ks)
    ensures Picks(picked + (if flag then [last] else []), before + [last], flags + [flag],
                  ks + (if flag then [|before|] else []))
  {
    var ks' := ks + (if flag then [|before|] else []);
    forall k: nat ensures k in ks' <==> k < |before| + 1 && (flags + [flag])[k] {
      assert k in ks' <==> k in ks || (flag && k == |before|);
    }
  }
}
