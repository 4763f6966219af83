/** Static content data: the per-content record loaded from the content files,
    and the split of the content enumeration order into Guardian Raids, Abyss
    Dungeons and Abyss Raids by the two marker variants `DemonBeastCanyon` and
    `Argos1`. The enumeration itself is not part of this model, so the order is
    a parameter: a sequence of variant names. */
module Info {

  /** The fields of `ContentInfo` the lobby logic reads. */
  datatype ContentInfo = ContentInfo(
    name: string,
    contentType: string,
    tier: nat,
    ilvlReq: int,
    contentSize: nat)

  type Content = string

  const DemonBeastCanyon: Content := "DemonBeastCanyon"
  const Argos1: Content := "Argos1"

  /** `iter.take_while(|x| *x != stop)`: the longest prefix without `stop`. */
  function TakeWhileNot<T(==)>(s: seq<T>, stop: T): (r: seq<T>)
    ensures |r| <= |s| && r == s[..|r|]
    ensures stop !in r
    ensures |r| < |s| ==> s[|r|] == stop
  {
    if s == [] || s[0] == stop then [] else [s[0]] + TakeWhileNot(s[1..], stop)
  }

  /** `iter.skip_while(|x| *x != stop)`: everything from the first `stop` on,
      or nothing when `stop` does not occur. */
  function SkipWhileNot<T(==)>(s: seq<T>, stop: T): (r: seq<T>)
    ensures |r| <= |s| && r == s[|s| - |r|..]
    ensures stop !in s[..|s| - |r|]
    ensures r != [] ==> r[0] == stop
  {
    if s == [] || s[0] == stop then s else SkipWhileNot(s[1..], stop)
  }

  /** What take_while leaves behind is exactly what skip_while keeps. */
  lemma {:induction false} TakeSkipSplit<T>(s: seq<T>, stop: T)
    ensures TakeWhileNot(s, stop) + SkipWhileNot(s, stop) == s
  {
    if s != [] && s[0] != stop {
      TakeSkipSplit(s[1..], stop);
      assert s == [s[0]] + s[1..];
    }
  }

  function GuardianRaids(order: seq<Content>): seq<Content>
  {
    TakeWhileNot(order, DemonBeastCanyon)
  }

  function AbyssDungeons(order: seq<Content>): seq<Content>
  {
    TakeWhileNot(SkipWhileNot(order, DemonBeastCanyon), Argos1)
  }

  function AbyssRaids(order: seq<Content>): seq<Content>
  {
    SkipWhileNot(order, Argos1)
  }

  /** Guardian Raids: the longest prefix of the order without DemonBeastCanyon. */
  lemma GuardianRaidsIsLongestPrefix(order: seq<Content>)
    ensures var g := GuardianRaids(order);
      g == order[..|g|] && DemonBeastCanyon !in g
      && (|g| == |order| || order[|g|] == DemonBeastCanyon)
  {
  }

  /** Abyss Dungeons start at DemonBeastCanyon (inclusive) and stop before Argos1. */
  lemma AbyssDungeonsBounds(order: seq<Content>)
    ensures var d := AbyssDungeons(order);
      Argos1 !in d && (d != [] ==> d[0] == DemonBeastCanyon)
      && (DemonBeastCanyon !in order ==> d == [])
  {
  }

  /** Abyss Raids are the suffix of the order from Argos1 on. */
  lemma AbyssRaidsIsSuffix(order: seq<Content>)
    ensures var a := AbyssRaids(order);
      a == order[|order| - |a|..] && Argos1 !in order[..|order| - |a|]
      && (Argos1 in order <==> a != [] && a[0] == Argos1)
  {
  }

  /** Splitting at the first `first` and then at the first `second` covers
      the list, provided `second` does not occur before `first`. */
  lemma {:induction false} ThreeWaySplit<T>(s: seq<T>, first: T, second: T)
    requires second !in TakeWhileNot(s, first)
    ensures TakeWhileNot(s, first) + TakeWhileNot(SkipWhileNot(s, first), second)
            + SkipWhileNot(s, second) == s
  {
    var g, rest := TakeWhileNot(s, first), SkipWhileNot(s, first);
    TakeSkipSplit(s, first);
    var d, a := TakeWhileNot(rest, second), SkipWhileNot(rest, second);
    TakeSkipSplit(rest, second);
    assert rest == s[|g|..];
    SkipOfSuffix(s, |g|, second);
    ConcatAssoc(g, d, a);
  }

  lemma ConcatAssoc<T>(x: seq<T>, y: seq<T>, z: seq<T>)
    ensures x + y + z == x + (y + z)
  {
  }

  /** When Argos1 does not come before the first DemonBeastCanyon, the three
      lists put back together give the whole order. */
  lemma PartitionCoversOrder(order: seq<Content>)
    requires Argos1 !in GuardianRaids(order)
    ensures GuardianRaids(order) + AbyssDungeons(order) + AbyssRaids(order) == order
  {
    ThreeWaySplit(order, DemonBeastCanyon, Argos1);
  }

  /** skip_while over a list whose first `n` elements avoid `stop` skips
      those elements. */
  lemma {:induction false} SkipOfSuffix<T>(s: seq<T>, n: nat, stop: T)
    requires n <= |s|
    requires forall i :: 0 <= i < n ==> s[i] != stop
    ensures SkipWhileNot(s, stop) == SkipWhileNot(s[n..], stop)
  {
    if n > 0 {
      var tail := s[1..];
      assert SkipWhileNot(s, stop) == SkipWhileNot(tail, stop) by {
        assert s[0] != stop;
      }
      assert tail[n - 1..] == s[n..];
      forall i | 0 <= i < n - 1 ensures tail[i] != stop {
        assert tail[i] == s[i + 1];
      }
      SkipOfSuffix(tail, n - 1, stop);
    }
  }

  /** Parts of a list without repeated elements share no element. */
  lemma DistinctPartsDisjoint<T>(s: seq<T>, p: seq<T>, q: seq<T>)
    requires s == p + q
    requires forall i, j :: 0 <= i < j < |s| ==> s[i] != s[j]
    ensures forall x :: x in p ==> x !in q
  {
    forall x | x in p ensures x !in q {
      var i :| 0 <= i < |p| && p[i] == x;
      assert s[i] == x;
      forall j | 0 <= j < |q| ensures q[j] != x {
        assert s[|p| + j] == q[j];
      }
    }
  }

  /** With each variant listed once, as an enumeration is, no content falls in
      two categories. */
  lemma PartitionDisjoint(order: seq<Content>)
    requires Argos1 !in GuardianRaids(order)
    requires forall i, j :: 0 <= i < j < |order| ==> order[i] != order[j]
    ensures var g, d, a := GuardianRaids(order), AbyssDungeons(order), AbyssRaids(order);
      (forall x :: x in g ==> x !in d && x !in a) && (forall x :: x in d ==> x !in a)
  {
    var g, d, a := GuardianRaids(order), AbyssDungeons(order), AbyssRaids(order);
    PartitionCoversOrder(order);
    ConcatAssoc(g, d, a);
    DistinctPartsDisjoint(order, g, d + a);
    DistinctPartsDisjoint(order, g + d, a);
    forall x | x in d ensures x in d + a && x in g + d {
    }
  }
}
