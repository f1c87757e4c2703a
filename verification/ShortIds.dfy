/**
  The least prefix width at which listed ids differ, searched width by width from
  4 with a set of the prefixes seen. The devices view and the status view run this search.
 */
module ShortIds {

  const SHORTEST: nat := 4

  /** The first `width` characters of `id`, or all of it. */
  function Prefix(id: string, width: nat): string {
    if |id| <= width then id else id[..width]
  }

  predicate Distinct(ids: seq<string>) {
    forall i, j :: 0 <= i < j < |ids| ==> ids[i] != ids[j]
  }

  /** Prefixes of this width are all different. */
  predicate Separates(ids: seq<string>, width: nat) {
    forall i, j :: 0 <= i < j < |ids| ==> Prefix(ids[i], width) != Prefix(ids[j], width)
  }

  function Longest(ids: seq<string>): nat {
    if ids == [] then 0
    else if |ids[0]| >= Longest(ids[1..]) then |ids[0]| else Longest(ids[1..])
  }

  lemma {:induction false} LongestBounds(ids: seq<string>)
    ensures forall i :: 0 <= i < |ids| ==> |ids[i]| <= Longest(ids)
    ensures ids != [] ==> exists i :: 0 <= i < |ids| && |ids[i]| == Longest(ids)
  {
    if ids != [] {
      LongestBounds(ids[1..]);
      assert forall i :: 0 < i < |ids| ==> ids[i] == ids[1..][i - 1];
      if ids[1..] != [] && |ids[0]| < Longest(ids[1..]) {
        var i :| 0 <= i < |ids[1..]| && |ids[1..][i]| == Longest(ids[1..]);
        assert |ids[i + 1]| == Longest(ids);
      } else {
        assert |ids[0]| == Longest(ids);
      }
    }
  }

  /** A width that separates the ids keeps separating them when it grows. */
  lemma SeparationGrows(ids: seq<string>, narrow: nat, wide: nat)
    requires narrow <= wide && Separates(ids, narrow)
    ensures Separates(ids, wide)
  {
    forall i, j | 0 <= i < j < |ids|
      ensures Prefix(ids[i], wide) != Prefix(ids[j], wide)
    {
      PrefixOfPrefix(ids[i], narrow, wide);
      PrefixOfPrefix(ids[j], narrow, wide);
    }
  }

  lemma PrefixOfPrefix(id: string, narrow: nat, wide: nat)
    requires narrow <= wide
    ensures Prefix(Prefix(id, wide), narrow) == Prefix(id, narrow)
  {
  }

  /** Some width separates the ids exactly when no id is listed twice. */
  lemma SeparableIffDistinct(ids: seq<string>, width: nat)
    ensures Separates(ids, width) ==> Distinct(ids)
    ensures Distinct(ids) && width >= Longest(ids) ==> Separates(ids, width)
  {
    LongestBounds(ids);
  }

  /** Whether every id's prefix is new to the set of those before it. */
  method AllNew(ids: seq<string>, width: nat) returns (separated: bool)
    ensures separated == Separates(ids, width)
  {
    var seen: set<string> := {};
    for k := 0 to |ids|
      invariant Separates(ids[..k], width)
      invariant seen == set i | 0 <= i < k :: Prefix(ids[i], width)
    {
      var prefix := Prefix(ids[k], width);
      if prefix in seen {
        ghost var i :| 0 <= i < k && Prefix(ids[i], width) == prefix;
        return false;
      }
      seen := seen + {prefix};
      assert ids[..k + 1][..k] == ids[..k];
    }
    assert ids[..|ids|] == ids;
    return true;
  }

  /**
    The search. Distinct ids always get the least width of at least 4 that separates them;
    a list that names an id twice falls back to the longest id's length.
   */
  method ShortIdWidth(ids: seq<string>) returns (width: nat)
    ensures Distinct(ids) ==> width >= SHORTEST && Separates(ids, width)
    ensures Distinct(ids) ==> forall w :: SHORTEST <= w < width ==> !Separates(ids, w)
    ensures Distinct(ids) ==> forall w :: w >= width ==> Separates(ids, w)
    ensures !Distinct(ids) ==> width == Longest(ids)
    ensures width < SHORTEST <==> !Distinct(ids) && Longest(ids) < SHORTEST
  {
    var longest := 0;
    for k := 0 to |ids|
      invariant longest == Longest(ids[..k])
    {
      LongestSnoc(ids[..k], ids[k]);
      assert ids[..k + 1] == ids[..k] + [ids[k]];
      longest := if |ids[k]| >= longest then |ids[k]| else longest;
    }
    assert ids[..|ids|] == ids;
    var last := if longest >= SHORTEST then longest else SHORTEST;
    width := SHORTEST;
    while width <= last
      invariant SHORTEST <= width <= last + 1
      invariant forall w :: SHORTEST <= w < width ==> !Separates(ids, w)
    {
      var separated := AllNew(ids, width);
      if separated {
        SeparableIffDistinct(ids, width);
        forall w | w >= width
          ensures Separates(ids, w)
        {
          SeparationGrows(ids, width, w);
        }
        return;
      }
      width := width + 1;
    }
    SeparableIffDistinct(ids, last);
    width := longest;
  }

  lemma {:induction false} LongestSnoc(ids: seq<string>, id: string)
    ensures Longest(ids + [id]) == if |id| >= Longest(ids) then |id| else Longest(ids)
  {
    if ids != [] {
      assert (ids + [id])[1..] == ids[1..] + [id];
      LongestSnoc(ids[1..], id);
    }
  }

  /** A list that gets a width below the promised 4: one two-character id, listed twice. */
  lemma ShortDuplicate()
    ensures !Distinct(["ab", "ab"]) && Longest(["ab", "ab"]) < SHORTEST
  {
    assert ["ab", "ab"][1..] == ["ab"];
    assert Longest(["ab"]) == 2;
    assert ["ab", "ab"][0] == ["ab", "ab"][1];
  }
}
