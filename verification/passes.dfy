/**
 * Pass kinds, extension slots and the generic facts about pass sequences:
 * the skeleton rank of every pass, the per-slot projection of extension
 * passes, and the flattening of a staged sequence.
 */
module Passes {

  /** The six points at which camera components may splice in their own passes. */
  datatype Slot = AfterDepthPrepass | AfterOpaque | AfterOpaquePostprocess | AfterSkybox | AfterTransparent | AfterRender

  /** Identifies one registered provider (a camera component implementing a slot interface). */
  type ProviderId = nat

  /** The providers registered on the camera, per slot, in registration order. */
  datatype Providers = Providers(
    afterDepthPrepass: seq<ProviderId>,
    afterOpaque: seq<ProviderId>,
    afterOpaquePostprocess: seq<ProviderId>,
    afterSkybox: seq<ProviderId>,
    afterTransparent: seq<ProviderId>,
    afterRender: seq<ProviderId>)
  {
    function Registered(slot: Slot): seq<ProviderId>
    {
      match slot
      case AfterDepthPrepass => afterDepthPrepass
      case AfterOpaque => afterOpaque
      case AfterOpaquePostprocess => afterOpaquePostprocess
      case AfterSkybox => afterSkybox
      case AfterTransparent => afterTransparent
      case AfterRender => afterRender
    }
  }

  datatype PassKind =
    | DirectionalShadow
    | LocalShadow
    | SetupForwardRendering
    | DepthOnly
    | ScreenSpaceShadowResolve
    | CreateRenderTextures
    | BeginXR
    | SetupConstants
    | OpaqueForward
    | OpaquePostProcess
    | DrawSkybox
    | CopyDepth
    | CopyColor
    | TransparentForward
    | TransparentPostProcess
    | FinalBlit
    | EndXR
    | SceneViewDepthCopy
    | Extension(slot: Slot, provider: ProviderId)

  /** The number of stages of the skeleton. */
  const StageCount := 23

  /** The stage at which the passes of a slot are spliced in. */
  function SlotRank(slot: Slot): (r: nat)
    ensures r < StageCount
  {
    match slot
    case AfterDepthPrepass => 4
    case AfterOpaque => 10
    case AfterOpaquePostprocess => 12
    case AfterSkybox => 14
    case AfterTransparent => 18
    case AfterRender => 20
  }

  /**
   * The stage of the skeleton a pass belongs to. The transparent post-process
   * and the final blit share a stage: they are the two branches of one choice.
   */
  function Rank(k: PassKind): (r: nat)
    ensures r < StageCount
  {
    match k
    case DirectionalShadow => 0
    case LocalShadow => 1
    case SetupForwardRendering => 2
    case DepthOnly => 3
    case ScreenSpaceShadowResolve => 5
    case CreateRenderTextures => 6
    case BeginXR => 7
    case SetupConstants => 8
    case OpaqueForward => 9
    case OpaquePostProcess => 11
    case DrawSkybox => 13
    case CopyDepth => 15
    case CopyColor => 16
    case TransparentForward => 17
    case TransparentPostProcess => 19
    case FinalBlit => 19
    case EndXR => 21
    case SceneViewDepthCopy => 22
    case Extension(slot, _) => SlotRank(slot)
  }

  /** One pass per provider, in registration order. */
  function ExtPasses(slot: Slot, ps: seq<ProviderId>): (r: seq<PassKind>)
    ensures |r| == |ps|
    ensures forall i :: 0 <= i < |r| ==> r[i] == Extension(slot, ps[i])
  {
    seq(|ps|, i requires 0 <= i < |ps| => Extension(slot, ps[i]))
  }

  /** The providers whose passes for `slot` occur in `s`, in sequence order. */
  function SlotPasses(s: seq<PassKind>, slot: Slot): seq<ProviderId>
  {
    if |s| == 0 then []
    else (if s[0].Extension? && s[0].slot == slot then [s[0].provider] else [])
         + SlotPasses(s[1..], slot)
  }

  lemma {:induction false} SlotPassesAppend(a: seq<PassKind>, b: seq<PassKind>, slot: Slot)
    ensures SlotPasses(a + b, slot) == SlotPasses(a, slot) + SlotPasses(b, slot)
  {
    if |a| == 0 {
      assert a + b == b;
    } else {
      assert (a + b)[1..] == a[1..] + b;
      SlotPassesAppend(a[1..], b, slot);
    }
  }

  /** The passes of one slot's providers project back to exactly those providers, and to nothing for another slot. */
  lemma {:induction false} SlotPassesOfExt(slot: Slot, ps: seq<ProviderId>, other: Slot)
    ensures SlotPasses(ExtPasses(slot, ps), other) == if other == slot then ps else []
  {
    if |ps| > 0 {
      assert ExtPasses(slot, ps)[1..] == ExtPasses(slot, ps[1..]);
      SlotPassesOfExt(slot, ps[1..], other);
      if other == slot {
        assert [ps[0]] + ps[1..] == ps;
      }
    }
  }

  /** The concatenation of the stages. */
  function Flatten(st: seq<seq<PassKind>>): seq<PassKind>
  {
    if |st| == 0 then [] else st[0] + Flatten(st[1..])
  }

  /** Every pass of stage `i` has rank `base + i`. */
  predicate Ranked(st: seq<seq<PassKind>>, base: nat)
  {
    forall i, k :: 0 <= i < |st| && k in st[i] ==> Rank(k) == base + i
  }

  /** Ranks never decrease along the sequence. */
  predicate Sorted(s: seq<PassKind>)
  {
    forall i, j :: 0 <= i < j < |s| ==> Rank(s[i]) <= Rank(s[j])
  }

  /** Every occurrence of `a` comes before every occurrence of `b`. */
  predicate Precedes(s: seq<PassKind>, a: PassKind, b: PassKind)
  {
    forall i, j :: 0 <= i < |s| && 0 <= j < |s| && s[i] == a && s[j] == b ==> i < j
  }

  lemma {:induction false} FlattenSorted(st: seq<seq<PassKind>>, base: nat)
    requires Ranked(st, base)
    ensures Sorted(Flatten(st))
    ensures forall i :: 0 <= i < |Flatten(st)| ==> base <= Rank(Flatten(st)[i])
  {
    if |st| > 0 {
      var tail := Flatten(st[1..]);
      assert Ranked(st[1..], base + 1) by {
        forall i, k | 0 <= i < |st[1..]| && k in st[1..][i]
          ensures Rank(k) == base + 1 + i
        {
          assert st[1..][i] == st[i + 1];
        }
      }
      FlattenSorted(st[1..], base + 1);
      var s := st[0] + tail;
      assert Flatten(st) == s;
      forall i | 0 <= i < |st[0]|
        ensures Rank(s[i]) == base
      {
        assert st[0][i] in st[0];
      }
    }
  }

  /** How often a pass occurs in the flattened sequence: exactly as often as in its own stage. */
  lemma {:induction false} FlattenCount(st: seq<seq<PassKind>>, base: nat, k: PassKind)
    requires Ranked(st, base)
    ensures multiset(Flatten(st))[k]
         == if base <= Rank(k) < base + |st| then multiset(st[Rank(k) - base])[k] else 0
  {
    if |st| > 0 {
      assert Ranked(st[1..], base + 1) by {
        forall i, x | 0 <= i < |st[1..]| && x in st[1..][i]
          ensures Rank(x) == base + 1 + i
        {
          assert st[1..][i] == st[i + 1];
        }
      }
      FlattenCount(st[1..], base + 1, k);
      if Rank(k) != base {
        assert k !in st[0];
      } else if |st| > 1 {
        assert k !in Flatten(st[1..]) by {
          FlattenSorted(st[1..], base + 1);
        }
      }
    }
  }

  /** Dropping the first stage of a ranked stage list leaves a ranked list one rank higher. */
  lemma RankedTail(st: seq<seq<PassKind>>, base: nat)
    requires Ranked(st, base) && |st| > 0
    ensures Ranked(st[1..], base + 1)
  {
    forall i, x | 0 <= i < |st[1..]| && x in st[1..][i]
      ensures Rank(x) == base + 1 + i
    {
      assert st[1..][i] == st[i + 1];
    }
  }

  /** The passes of a slot in the flattened sequence are those of the slot's own stage. */
  lemma {:induction false} FlattenSlotPasses(st: seq<seq<PassKind>>, base: nat, slot: Slot)
    requires Ranked(st, base)
    ensures SlotPasses(Flatten(st), slot)
         == if base <= SlotRank(slot) < base + |st| then SlotPasses(st[SlotRank(slot) - base], slot) else []
  {
    if |st| > 0 {
      RankedTail(st, base);
      FlattenSlotPasses(st[1..], base + 1, slot);
      assert Flatten(st) == st[0] + Flatten(st[1..]);
      SlotPassesAppend(st[0], Flatten(st[1..]), slot);
      if SlotRank(slot) != base {
        HeadOutsideSlot(st, base, slot);
      } else {
        TailOutsideSlot(st, base, slot);
      }
    }
  }

  /** The first stage holds no pass of a slot of another rank. */
  lemma HeadOutsideSlot(st: seq<seq<PassKind>>, base: nat, slot: Slot)
    requires Ranked(st, base) && |st| > 0
    requires SlotRank(slot) != base
    ensures SlotPasses(st[0], slot) == []
  {
    forall i | 0 <= i < |st[0]|
      ensures Rank(st[0][i]) == base
    {
      assert st[0][i] in st[0];
    }
    SlotPassesNone(st[0], slot);
  }

  /** The later stages hold no pass of a slot of the first stage's rank. */
  lemma TailOutsideSlot(st: seq<seq<PassKind>>, base: nat, slot: Slot)
    requires Ranked(st, base) && |st| > 0
    requires SlotRank(slot) == base
    ensures SlotPasses(Flatten(st[1..]), slot) == []
  {
    RankedTail(st, base);
    FlattenSorted(st[1..], base + 1);
    SlotPassesNone(Flatten(st[1..]), slot);
  }

  /** A sequence none of whose passes belongs to `slot` projects to nothing there. */
  lemma {:induction false} SlotPassesNone(s: seq<PassKind>, slot: Slot)
    requires forall i :: 0 <= i < |s| ==> !(s[i].Extension? && s[i].slot == slot)
    ensures SlotPasses(s, slot) == []
  {
    if |s| > 0 {
      SlotPassesNone(s[1..], slot);
    }
  }

  /** In a sorted sequence a pass of lower rank precedes a pass of higher rank. */
  lemma SortedPrecedes(s: seq<PassKind>, a: PassKind, b: PassKind)
    requires Sorted(s)
    requires Rank(a) < Rank(b)
    ensures Precedes(s, a, b)
  {
  }

  /** In a sorted sequence a pass of lower rank that occurs at all occurs before index `i`. */
  lemma EarlierOccurrence(s: seq<PassKind>, i: int, a: PassKind)
    requires Sorted(s)
    requires 0 <= i < |s|
    requires a in s
    requires Rank(a) < Rank(s[i])
    ensures exists j :: 0 <= j < i && s[j] == a
  {
    var j :| 0 <= j < |s| && s[j] == a;
    assert j < i;
  }

  /** The flattened sequence splits around any one stage. */
  lemma {:induction false} FlattenAt(st: seq<seq<PassKind>>, i: nat)
    requires i < |st|
    ensures Flatten(st) == Flatten(st[..i]) + st[i] + Flatten(st[i + 1..])
  {
    if i == 0 {
      assert st[..0] == [];
    } else {
      FlattenAt(st[1..], i - 1);
      assert st[1..][..i - 1] == st[1..i];
      assert st[1..][i - 1] == st[i];
      assert st[1..][i..] == st[i + 1..];
      assert st[..i][0] == st[0];
      assert st[..i][1..] == st[1..i];
    }
  }

  /** The flattened sequence splits around two neighbouring stages. */
  lemma FlattenPair(st: seq<seq<PassKind>>, i: nat)
    requires i + 1 < |st|
    ensures Flatten(st) == Flatten(st[..i]) + (st[i] + st[i + 1]) + Flatten(st[i + 2..])
  {
    var rest := st[i + 1..];
    FlattenAt(st, i);
    assert Flatten(rest) == rest[0] + Flatten(rest[1..]);
    assert rest[0] == st[i + 1];
    assert rest[1..] == st[i + 2..];
    SeqAssoc(Flatten(st[..i]), st[i], st[i + 1], Flatten(st[i + 2..]));
  }

  lemma SeqAssoc(a: seq<PassKind>, b: seq<PassKind>, c: seq<PassKind>, d: seq<PassKind>)
    ensures a + b + (c + d) == a + (b + c) + d
  {
  }

  /** Two neighbouring stages appear as one contiguous block of the flattened sequence. */
  lemma BlockPosition(st: seq<seq<PassKind>>, i: nat) returns (n: nat)
    requires i + 1 < |st|
    ensures n + |st[i] + st[i + 1]| <= |Flatten(st)|
    ensures Flatten(st)[n..n + |st[i] + st[i + 1]|] == st[i] + st[i + 1]
  {
    var block := st[i] + st[i + 1];
    FlattenPair(st, i);
    SpliceIndex(Flatten(st[..i]), block, Flatten(st[i + 2..]));
    n := |Flatten(st[..i])|;
    assert Flatten(st)[n..n + |block|] == block;
  }

  /** A block spliced between two sequences keeps its positions, shifted by the prefix. */
  lemma SpliceIndex(a: seq<PassKind>, mid: seq<PassKind>, b: seq<PassKind>)
    ensures forall k :: 0 <= k < |mid| ==> (a + mid + b)[|a| + k] == mid[k]
  {
  }

  /** In a sorted sequence a pass of the last rank, once present, is the final pass. */
  lemma LastRankIsLast(s: seq<PassKind>)
    requires Sorted(s) && SceneViewDepthCopy in s
    ensures s[|s| - 1] == SceneViewDepthCopy
  {
    var j :| 0 <= j < |s| && s[j] == SceneViewDepthCopy;
    assert Rank(s[j]) <= Rank(s[|s| - 1]);
  }

  /** Ranks strictly increase along the sequence. */
  predicate StrictlySorted(s: seq<PassKind>)
  {
    forall i, j :: 0 <= i < j < |s| ==> Rank(s[i]) < Rank(s[j])
  }

  /** Ranks that rise from each pass to the next rise along the whole sequence. */
  lemma {:induction false} StrictlySortedByNeighbours(s: seq<PassKind>)
    requires forall i :: 0 <= i < |s| - 1 ==> Rank(s[i]) < Rank(s[i + 1])
    ensures StrictlySorted(s)
  {
    if |s| > 1 {
      var tail := s[1..];
      forall i | 0 <= i < |tail| - 1
        ensures Rank(tail[i]) < Rank(tail[i + 1])
      {
        assert tail[i] == s[i + 1] && tail[i + 1] == s[i + 2];
      }
      StrictlySortedByNeighbours(tail);
      forall i, j | 0 <= i < j < |s|
        ensures Rank(s[i]) < Rank(s[j])
      {
        if i == 0 && j > 1 {
          assert tail[0] == s[1] && tail[j - 1] == s[j];
        } else if i > 0 {
          assert tail[i - 1] == s[i] && tail[j - 1] == s[j];
        }
      }
    }
  }

  lemma SortedTail(s: seq<PassKind>)
    requires Sorted(s) && |s| > 0
    ensures Sorted(s[1..])
  {
    forall i, j | 0 <= i < j < |s[1..]|
      ensures Rank(s[1..][i]) <= Rank(s[1..][j])
    {
      assert s[1..][i] == s[i + 1] && s[1..][j] == s[j + 1];
    }
  }

  lemma StrictlySortedTail(s: seq<PassKind>)
    requires StrictlySorted(s) && |s| > 0
    ensures StrictlySorted(s[1..])
  {
    forall i, j | 0 <= i < j < |s[1..]|
      ensures Rank(s[1..][i]) < Rank(s[1..][j])
    {
      assert s[1..][i] == s[i + 1] && s[1..][j] == s[j + 1];
    }
  }

  /** Two sequences with the same passes, sorted, the second strictly, start with the same pass. */
  lemma SameHead(s: seq<PassKind>, e: seq<PassKind>)
    requires Sorted(s) && StrictlySorted(e)
    requires multiset(s) == multiset(e)
    requires |s| > 0
    ensures |e| > 0 && s[0] == e[0]
  {
    assert s[0] in multiset(s);
    assert s[0] in e;
    var m :| 0 <= m < |e| && e[m] == s[0];
    assert e[0] in multiset(e);
    assert e[0] in s;
    var n :| 0 <= n < |s| && s[n] == e[0];
    assert Rank(s[0]) <= Rank(e[0]);
  }

  /**
   * A sorted sequence is determined by its passes when the expected sequence
   * has one pass per rank: the multiset fixes the contents and the ranks fix
   * the order.
   */
  lemma {:induction false} SortedDeterminedByContents(s: seq<PassKind>, e: seq<PassKind>)
    requires Sorted(s)
    requires StrictlySorted(e)
    requires multiset(s) == multiset(e)
    ensures s == e
  {
    if |s| == 0 {
      assert |multiset(e)| == 0;
    } else {
      SameHead(s, e);
      assert s == [s[0]] + s[1..];
      assert e == [e[0]] + e[1..];
      assert multiset(s[1..]) == multiset(e[1..]) by {
        assert multiset(s) == multiset{s[0]} + multiset(s[1..]);
        assert multiset(e) == multiset{e[0]} + multiset(e[1..]);
        assert multiset(s[1..]) == multiset(s) - multiset{s[0]};
        assert multiset(e[1..]) == multiset(e) - multiset{e[0]};
      }
      SortedTail(s);
      StrictlySortedTail(e);
      SortedDeterminedByContents(s[1..], e[1..]);
    }
  }
}
