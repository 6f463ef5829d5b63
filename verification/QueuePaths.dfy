/** File names and moves in the queue directories (src/voxera/core/queue_paths.py). */
module QueuePaths {
  import opened Collections
  import opened Text

  // ----- free names

  /** The position of the dot that starts a name's suffix, or its length. */
  function SuffixStart(name: string, i: nat): (r: nat)
    requires i <= |name|
    ensures r <= |name|
  {
    if i == 0 then |name|
    else if name[i - 1] == '.' then (if 0 < i - 1 && i < |name| then i - 1 else |name|)
    else SuffixStart(name, i - 1)
  }

  function Stem(name: string): string
  {
    name[..SuffixStart(name, |name|)]
  }

  function Suffix(name: string): string
  {
    name[SuffixStart(name, |name|)..]
  }

  /** The suffix starts at the last dot, if there is one and it is neither the first nor the last character. */
  lemma SuffixStartsAtLastDot(name: string, dot: int)
    requires -1 <= dot < |name| && (dot >= 0 ==> name[dot] == '.') && forall k :: dot < k < |name| ==> name[k] != '.'
    ensures Suffix(name) == (if 0 < dot < |name| - 1 then name[dot..] else []) && Stem(name) + Suffix(name) == name
  {
    StartIsDot(name, dot, |name|);
  }

  lemma {:induction false} StartIsDot(name: string, dot: int, i: nat)
    requires -1 <= dot < i <= |name| && (dot >= 0 ==> name[dot] == '.') && forall k :: dot < k < |name| ==> name[k] != '.'
    ensures SuffixStart(name, i) == if 0 < dot < |name| - 1 then dot else |name|
  {
    if i > dot + 1 { StartIsDot(name, dot, i - 1); }
  }

  function Indexed(name: string, tag: string, index: nat): string
  {
    Stem(name) + "-" + tag + "-" + Decimal(index) + Suffix(name)
  }

  lemma IndexedInjective(name: string, tag: string, i: nat, j: nat)
    requires Indexed(name, tag, i) == Indexed(name, tag, j)
    ensures i == j
  {
    var front, back := Stem(name) + "-" + tag + "-", Suffix(name);
    var s := Indexed(name, tag, i);
    assert s == front + Decimal(i) + back == front + Decimal(j) + back;
    assert |Decimal(i)| == |Decimal(j)|;
    assert Decimal(i) == s[|front|..|s| - |back|] == Decimal(j);
    DecimalInjective(i, j);
  }

  lemma IndexedIsNew(name: string, tag: string, i: nat)
    ensures Indexed(name, tag, i) != name
  {
  }

  ghost function FirstIndexed(name: string, tag: string, n: nat): set<string>
  {
    if n == 0 then {name} else FirstIndexed(name, tag, n - 1) + {Indexed(name, tag, n)}
  }

  /** The name and its first `n` variants are all different. */
  lemma {:induction false} FirstIndexedCount(name: string, tag: string, n: nat)
    ensures |FirstIndexed(name, tag, n)| == n + 1
    ensures forall i :: i > n ==> Indexed(name, tag, i) !in FirstIndexed(name, tag, n)
  {
    if n == 0 {
      forall i: nat ensures Indexed(name, tag, i) != name {
        IndexedIsNew(name, tag, i);
      }
    } else {
      FirstIndexedCount(name, tag, n - 1);
      forall i: nat | i > n ensures Indexed(name, tag, i) != Indexed(name, tag, n) {
        if Indexed(name, tag, i) == Indexed(name, tag, n) {
          IndexedInjective(name, tag, i, n);
        }
      }
    }
  }

  lemma {:induction false} FirstIndexedHas(name: string, tag: string, n: nat)
    ensures forall j :: 1 <= j <= n ==> Indexed(name, tag, j) in FirstIndexed(name, tag, n)
  {
    if n > 0 {
      FirstIndexedHas(name, tag, n - 1);
    }
  }

  /**
   The name itself if it is free, else the variant with the smallest free index. The search ends:
   the index never exceeds the number of existing entries.
   */
  method DeterministicTargetPath(existing: set<string>, name: string, tag: string) returns (free: string, index: nat)
    ensures free !in existing
    ensures index == 0 <==> name !in existing
    ensures index == 0 ==> free == name
    ensures index > 0 ==>
      free == Indexed(name, tag, index) && index <= |existing| &&
      forall j :: 1 <= j < index ==> Indexed(name, tag, j) in existing
  {
    if name !in existing {
      return name, 0;
    }
    index := 1;
    while true
      invariant 1 <= index <= |existing|
      invariant FirstIndexed(name, tag, index - 1) <= existing
      decreases |existing| - index
    {
      var candidate := Indexed(name, tag, index);
      if candidate !in existing {
        FirstIndexedHas(name, tag, index - 1);
        return candidate, index;
      }
      FirstIndexedCount(name, tag, index);
      SubsetCount(FirstIndexed(name, tag, index), existing);
      index := index + 1;
    }
  }
}
