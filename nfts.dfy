/** `NFTs`: a list of tokens kept in order of their ids. */
module NftList {
  import opened Wrappers
  import opened Text
  import opened Nft

  /** `NFTs.Less`: `strings.Compare` of the ids is -1. It is a strict
      order: irreflexive on ids and asymmetric. */
  predicate IdLess(a: BaseNFT, b: BaseNFT): (r: bool)
    ensures r ==> a.id != b.id && Compare(b.id, a.id) == 1
  {
    CompareZeroIffEqual(a.id, b.id);
    CompareAntisymmetric(a.id, b.id);
    Compare(a.id, b.id) == -1
  }

  ghost predicate SortedById(s: seq<BaseNFT>) {
    forall i, j :: 0 <= i < j < |s| ==> Compare(s[i].id, s[j].id) <= 0
  }

  ghost predicate AdjacentSorted(s: seq<BaseNFT>, n: int) {
    forall k :: 0 < k < n && k < |s| ==> Compare(s[k - 1].id, s[k].id) <= 0
  }

  ghost predicate HasId(s: seq<BaseNFT>, id: string) {
    exists k :: 0 <= k < |s| && s[k].id == id
  }

  lemma {:induction false} AdjacentSortedIsSorted(s: seq<BaseNFT>)
    requires AdjacentSorted(s, |s|)
    ensures SortedById(s)
  {
    if |s| > 1 {
      var p := s[..|s| - 1];
      assert AdjacentSorted(p, |p|);
      AdjacentSortedIsSorted(p);
      forall i, j | 0 <= i < j < |s| ensures Compare(s[i].id, s[j].id) <= 0 {
        if j == |s| - 1 && i < j - 1 {
          assert Compare(p[i].id, p[j - 1].id) <= 0;
          CompareTransitive(s[i].id, s[j - 1].id, s[j].id);
        } else if j < |s| - 1 {
          assert Compare(p[i].id, p[j].id) <= 0;
        }
      }
    }
  }

  /** The binary search behind `find`, over positions `lo..hi` (inclusive,
      as in the source's low/high bounds): -1, or a position holding `id`. */
  function Search(s: seq<BaseNFT>, id: string, lo: int, hi: int): (r: int)
    requires 0 <= lo <= |s| && -1 <= hi < |s| && lo <= hi + 1
    decreases hi - lo + 1
    ensures r == -1 || (lo <= r <= hi && s[r].id == id)
  {
    if lo > hi then -1
    else
      var mid := (lo + hi) / 2;
      var c := Compare(s[mid].id, id);
      if c == 0 then CompareZeroIffEqual(s[mid].id, id); mid
      else if c == -1 then Search(s, id, mid + 1, hi)
      else Search(s, id, lo, mid - 1)
  }

  /** `find`: -1 when the list is empty, else the search over the whole list. */
  function FindIndex(s: seq<BaseNFT>, id: string): (r: int)
    ensures r == -1 || (0 <= r < |s| && s[r].id == id)
  {
    if |s| == 0 then -1 else Search(s, id, 0, |s| - 1)
  }

  /** In a sorted list, nothing at or before a position whose id is below
      `id` holds `id`. */
  lemma MissingBelow(s: seq<BaseNFT>, id: string, lo: int, mid: int)
    requires 0 <= lo <= mid < |s| && SortedById(s) && Compare(s[mid].id, id) == -1
    ensures forall k :: lo <= k <= mid ==> s[k].id != id
  {
    CompareAntisymmetric(s[mid].id, id);
    CompareZeroIffEqual(s[mid].id, s[mid].id);
    forall k | lo <= k <= mid ensures s[k].id != id {
      assert Compare(s[k].id, s[mid].id) <= 0;
    }
  }

  /** In a sorted list, nothing at or after a position whose id is above
      `id` holds `id`. */
  lemma MissingAbove(s: seq<BaseNFT>, id: string, mid: int, hi: int)
    requires 0 <= mid <= hi < |s| && SortedById(s) && Compare(s[mid].id, id) == 1
    ensures forall k :: mid <= k <= hi ==> s[k].id != id
  {
    CompareAntisymmetric(s[mid].id, id);
    CompareZeroIffEqual(s[mid].id, s[mid].id);
    forall k | mid <= k <= hi ensures s[k].id != id {
      assert Compare(s[mid].id, s[k].id) <= 0;
    }
  }

  /** On a sorted list the search misses only what is not there. */
  lemma {:induction false} SearchComplete(s: seq<BaseNFT>, id: string, lo: int, hi: int)
    requires 0 <= lo <= |s| && -1 <= hi < |s| && lo <= hi + 1
    requires SortedById(s) && Search(s, id, lo, hi) == -1
    ensures forall k :: lo <= k <= hi ==> s[k].id != id
    decreases hi - lo + 1
  {
    if lo <= hi {
      var mid := (lo + hi) / 2;
      var c := Compare(s[mid].id, id);
      if c == -1 {
        assert Search(s, id, mid + 1, hi) == -1;
        SearchComplete(s, id, mid + 1, hi);
        MissingBelow(s, id, lo, mid);
      } else if c == 1 {
        assert Search(s, id, lo, mid - 1) == -1;
        SearchComplete(s, id, lo, mid - 1);
        MissingAbove(s, id, mid, hi);
      }
    }
  }

  /** `NFTs.Find`: the token with that id, if the search finds one. */
  function Find(s: seq<BaseNFT>, id: string): (r: Option<BaseNFT>)
    ensures r.Some? ==> r.value.id == id && r.value in s
    ensures r.None? <==> FindIndex(s, id) == -1
  {
    var i := FindIndex(s, id);
    if i == -1 then None else Some(s[i])
  }

  /** On a list sorted by id, Find succeeds exactly when the id is present. */
  lemma FindSortedComplete(s: seq<BaseNFT>, id: string)
    requires SortedById(s)
    ensures Find(s, id).Some? <==> HasId(s, id)
  {
    if |s| > 0 && FindIndex(s, id) == -1 {
      SearchComplete(s, id, 0, |s| - 1);
    }
  }

  /** `NFTs.Update`: replace the token found under `id` by `nft`. */
  function Update(s: seq<BaseNFT>, id: string, nft: BaseNFT): (r: (seq<BaseNFT>, bool))
    ensures FindIndex(s, id) == -1 ==> r == (s, false)
    ensures FindIndex(s, id) != -1 ==>
      var i := FindIndex(s, id);
      r.1 && |r.0| == |s| && s[i].id == id && r.0[i] == nft
      && forall k :: 0 <= k < |s| && k != i ==> r.0[k] == s[k]
  {
    var i := FindIndex(s, id);
    if i == -1 then (s, false) else (s[..i] + [nft] + s[i + 1..], true)
  }

  /** `NFTs.Remove`: drop the token found under `id`, keeping the order of
      the others. */
  function Remove(s: seq<BaseNFT>, id: string): (r: (seq<BaseNFT>, bool))
    ensures FindIndex(s, id) == -1 ==> r == (s, false)
    ensures FindIndex(s, id) != -1 ==>
      var i := FindIndex(s, id);
      r.1 && |r.0| == |s| - 1 && s[i].id == id
      && multiset(r.0) == multiset(s) - multiset{s[i]}
      && (forall k :: 0 <= k < i ==> r.0[k] == s[k])
      && (forall k :: i <= k < |r.0| ==> r.0[k] == s[k + 1])
  {
    var i := FindIndex(s, id);
    if i == -1 then (s, false)
    else
      RemovedAt(s, i);
      (s[..i] + s[i + 1..], true)
  }

  /** Cutting position `i` out of a list. */
  lemma RemovedAt(s: seq<BaseNFT>, i: int)
    requires 0 <= i < |s|
    ensures var r := s[..i] + s[i + 1..];
      |r| == |s| - 1
      && multiset(r) == multiset(s) - multiset{s[i]}
      && (forall k :: 0 <= k < i ==> r[k] == s[k])
      && (forall k :: i <= k < |r| ==> r[k] == s[k + 1])
  {
    assert s == s[..i] + [s[i]] + s[i + 1..];
  }

  /** Replacing a token by one with the same id keeps the list sorted. */
  lemma UpdateKeepsSorted(s: seq<BaseNFT>, id: string, nft: BaseNFT)
    requires SortedById(s) && nft.id == id
    ensures SortedById(Update(s, id, nft).0)
  {
  }

  /** Removing a token keeps the list sorted. */
  lemma RemoveKeepsSorted(s: seq<BaseNFT>, id: string)
    requires SortedById(s)
    ensures SortedById(Remove(s, id).0)
  {
    var i := FindIndex(s, id);
    if i != -1 {
      var r := Remove(s, id).0;
      forall a, b | 0 <= a < b < |r| ensures Compare(r[a].id, r[b].id) <= 0 {
        var a' := if a < i then a else a + 1;
        var b' := if b < i then b else b + 1;
        assert r[a] == s[a'] && r[b] == s[b'];
      }
    }
  }

  /** `NFTs.Empty`: an empty list is one in which no id can be found. */
  predicate Empty(s: seq<BaseNFT>): (r: bool)
    ensures r <==> forall t :: t !in s
    ensures r ==> forall id :: FindIndex(s, id) == -1
  {
    // a non-empty list holds its first token
    |s| == 0 || (assert s[0] in s; false)
  }

  /** `NFTs.Swap`. */
  method Swap(a: array<BaseNFT>, i: int, j: int)
    requires 0 <= i < a.Length && 0 <= j < a.Length
    modifies a
    ensures a[i] == old(a[j]) && a[j] == old(a[i])
    ensures forall k :: 0 <= k < a.Length && k != i && k != j ==> a[k] == old(a[k])
    ensures multiset(a[..]) == multiset(old(a[..]))
  {
    a[i], a[j] := a[j], a[i];
  }

  /** `NFTs.Sort`: orders the list in place by `Less`, using only `Less` and
      `Swap` as `sort.Sort` does. */
  method Sort(a: array<BaseNFT>)
    modifies a
    ensures SortedById(a[..])
    ensures multiset(a[..]) == multiset(old(a[..]))
  {
    var i := 1;
    while i < a.Length
      invariant 1 <= i <= a.Length || a.Length == 0
      invariant AdjacentSorted(a[..], i)
      invariant multiset(a[..]) == multiset(old(a[..]))
    {
      Insert(a, i);
      i := i + 1;
    }
    AdjacentSortedIsSorted(a[..]);
  }

  /** During an insertion step: the first `i + 1` positions are in order
      except possibly around the moving token at `j`, and its neighbours
      are in order with each other. */
  ghost predicate SortedAround(s: seq<BaseNFT>, i: int, j: int)
    requires i < |s|
  {
    (forall k :: 0 < k <= i && k != j ==> Compare(s[k - 1].id, s[k].id) <= 0)
    && (0 < j < i ==> Compare(s[j - 1].id, s[j + 1].id) <= 0)
  }

  /** Swapping the moving token with a larger left neighbour moves the gap
      one position down. */
  lemma SwapDown(s: seq<BaseNFT>, i: int, j: int)
    requires 0 < j <= i < |s| && SortedAround(s, i, j) && IdLess(s[j], s[j - 1])
    ensures SortedAround(s[j - 1 := s[j]][j := s[j - 1]], i, j - 1)
  {
    var t := s[j - 1 := s[j]][j := s[j - 1]];
    forall k | 0 < k <= i && k != j - 1 ensures Compare(t[k - 1].id, t[k].id) <= 0 {
      if k == j + 1 {
        assert t[k - 1] == s[j - 1] && t[k] == s[j + 1];
      } else if k != j {
        assert t[k - 1] == s[k - 1] && t[k] == s[k];
      }
    }
    if 0 < j - 1 {
      assert t[j - 2] == s[j - 2] && t[j] == s[j - 1];
    }
  }

  /** One step of the sort: moves `a[i]` down past every larger neighbour,
      extending the sorted prefix by one. */
  method Insert(a: array<BaseNFT>, i: int)
    requires 0 < i < a.Length && AdjacentSorted(a[..], i)
    modifies a
    ensures AdjacentSorted(a[..], i + 1)
    ensures multiset(a[..]) == multiset(old(a[..]))
  {
    var j := i;
    while j > 0 && IdLess(a[j], a[j - 1])
      invariant 0 <= j <= i
      invariant SortedAround(a[..], i, j)
      invariant multiset(a[..]) == multiset(old(a[..]))
    {
      ghost var before := a[..];
      SwapDown(before, i, j);
      Swap(a, j - 1, j);
      assert a[..] == before[j - 1 := before[j]][j := before[j - 1]];
      j := j - 1;
    }
    Settled(a[..], i, j);
  }

  /** Once the moving token is not below its left neighbour, the first
      `i + 1` positions are in order. */
  lemma Settled(s: seq<BaseNFT>, i: int, j: int)
    requires 0 <= j <= i < |s| && SortedAround(s, i, j)
    requires j == 0 || !IdLess(s[j], s[j - 1])
    ensures AdjacentSorted(s, i + 1)
  {
    if j > 0 {
      CompareAntisymmetric(s[j].id, s[j - 1].id);
    }
  }

  /** `NewNFTs`: the given tokens, sorted; no tokens give the empty list. */
  method NewNFTs(nfts: seq<BaseNFT>) returns (r: seq<BaseNFT>)
    ensures Empty(r) <==> Empty(nfts)
    ensures SortedById(r)
    ensures multiset(r) == multiset(nfts)
  {
    if |nfts| == 0 {
      return [];
    }
    var a := new BaseNFT[|nfts|](k requires 0 <= k < |nfts| => nfts[k]);
    assert a[..] == nfts;
    Sort(a);
    r := a[..];
  }

  /** `NFTs.Append`: both lists together, sorted. */
  method Append(nfts: seq<BaseNFT>, nftsB: seq<BaseNFT>) returns (r: seq<BaseNFT>)
    ensures |r| == |nfts| + |nftsB|
    ensures SortedById(r)
    ensures multiset(r) == multiset(nfts) + multiset(nftsB)
  {
    var all := nfts + nftsB;
    var a := new BaseNFT[|all|](k requires 0 <= k < |all| => all[k]);
    assert a[..] == all;
    Sort(a);
    r := a[..];
  }
}
