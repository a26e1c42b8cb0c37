/**
 * Renderer selection (VisualizerViewModel.kt): a fixed list of four
 * renderers and the index of the selected one, changed by direct
 * selection, by cycling forwards or backwards, or by visualization type.
 */
module RendererSelection {
  import Decimal

  /** A renderer as far as selection sees it: its identifier and display name. */
  datatype Renderer = Renderer(id: string, displayName: string)

  datatype VisualizationType = Spectrum | Waveform | Circular | Particles

  function TypeId(t: VisualizationType): string {
    match t
    case Spectrum => "spectrum"
    case Waveform => "waveform"
    case Circular => "circular"
    case Particles => "particles"
  }

  function TypeDisplayName(t: VisualizationType): string {
    match t
    case Spectrum => "Spectrum"
    case Waveform => "Waveform"
    case Circular => "Circular"
    case Particles => "Particles"
  }

  /** The renderers in the order the view model lists them. */
  const Renderers: seq<Renderer> := [
    Renderer("spectrum", "Spectrum"),
    Renderer("waveform", "Waveform"),
    Renderer("circular", "Circular"),
    Renderer("particles", "Particles")
  ]

  /** `indexOfFirst { it.id == id }`: the first position with that id, or -1. */
  function IndexOfFirst(renderers: seq<Renderer>, id: string): (r: int)
    ensures -1 <= r < |renderers|
    ensures 0 <= r ==> renderers[r].id == id && forall k :: 0 <= k < r ==> renderers[k].id != id
    ensures r == -1 <==> forall k :: 0 <= k < |renderers| ==> renderers[k].id != id
  {
    if renderers == [] then -1
    else if renderers[0].id == id then 0
    else
      var k := IndexOfFirst(renderers[1..], id);
      if k < 0 then -1 else k + 1
  }

  /** Forward cycling: one past the last wraps to the first. */
  function NextIndex(i: nat, n: nat): nat
    requires i < n
  {
    (i + 1) % n
  }

  /** Backward cycling: one before the first wraps to the last. */
  function PreviousIndex(i: nat, n: nat): nat
    requires i < n
  {
    if i > 0 then i - 1 else n - 1
  }

  /** Cycling backwards undoes cycling forwards and the other way round; both stay in range. */
  lemma CyclingInverse(i: nat, n: nat)
    requires i < n
    ensures NextIndex(i, n) < n && PreviousIndex(i, n) < n
    ensures PreviousIndex(NextIndex(i, n), n) == i
    ensures NextIndex(PreviousIndex(i, n), n) == i
  {
  }

  function NextTimes(i: nat, n: nat, k: nat): (r: nat)
    requires i < n
    ensures r < n
  {
    if k == 0 then i else NextIndex(NextTimes(i, n, k - 1), n)
  }

  /** `k` forward steps land on `(i + k) mod n`; in particular `n` steps come back to `i`. */
  lemma {:induction false} NextTimesIsRotation(i: nat, n: nat, k: nat)
    requires i < n
    ensures NextTimes(i, n, k) == (i + k) % n
  {
    if k > 0 {
      NextTimesIsRotation(i, n, k - 1);
      ModSuccessor(i + k - 1, n);
    }
  }

  lemma ModSuccessor(x: nat, n: nat)
    requires 0 < n
    ensures (x % n + 1) % n == (x + 1) % n
  {
    var q, r := x / n, x % n;
    assert x + 1 == n * q + (r + 1);
    if r + 1 < n {
      Decimal.DivModUnique(r + 1, n, 0, r + 1);
      Decimal.DivModUnique(x + 1, n, q, r + 1);
    } else {
      assert x + 1 == n * (q + 1) + 0;
      Decimal.DivModUnique(x + 1, n, q + 1, 0);
    }
  }

  /** Each visualization type has exactly the renderer of its id and name in the list. */
  lemma EveryTypeHasRenderer(t: VisualizationType)
    ensures 0 <= IndexOfFirst(Renderers, TypeId(t))
    ensures Renderers[IndexOfFirst(Renderers, TypeId(t))] == Renderer(TypeId(t), TypeDisplayName(t))
  {
  }

  class VisualizerViewModel {
    const renderers: seq<Renderer>
    var selectedRendererIndex: int

    ghost predicate Valid()
      reads this
    {
      renderers == Renderers && 0 <= selectedRendererIndex < |renderers|
    }

    constructor ()
      ensures Valid() && selectedRendererIndex == 0
    {
      renderers := Renderers;
      selectedRendererIndex := 0;
    }

    function CurrentRenderer(): (r: Renderer)
      reads this
      requires Valid()
      ensures r in Renderers
    {
      renderers[selectedRendererIndex]
    }

    /** An index outside the list is ignored. */
    method SelectRenderer(index: int)
      requires Valid()
      modifies this
      ensures Valid()
      ensures 0 <= index < |renderers| ==> selectedRendererIndex == index
      ensures !(0 <= index < |renderers|) ==> selectedRendererIndex == old(selectedRendererIndex)
    {
      if 0 <= index < |renderers| {
        selectedRendererIndex := index;
      }
    }

    method NextRenderer()
      requires Valid()
      modifies this
      ensures Valid()
      ensures selectedRendererIndex == NextIndex(old(selectedRendererIndex), |renderers|)
    {
      selectedRendererIndex := (selectedRendererIndex + 1) % |renderers|;
    }

    method PreviousRenderer()
      requires Valid()
      modifies this
      ensures Valid()
      ensures selectedRendererIndex == PreviousIndex(old(selectedRendererIndex), |renderers|)
    {
      selectedRendererIndex := if selectedRendererIndex > 0 then selectedRendererIndex - 1 else |renderers| - 1;
    }

    /** Selecting by type always succeeds and shows the renderer with that type's id. */
    method SelectRendererByType(t: VisualizationType)
      requires Valid()
      modifies this
      ensures Valid()
      ensures selectedRendererIndex == IndexOfFirst(renderers, TypeId(t))
      ensures CurrentRenderer().id == TypeId(t)
    {
      var index := IndexOfFirst(renderers, TypeId(t));
      EveryTypeHasRenderer(t);
      if index >= 0 {
        selectedRendererIndex := index;
      }
    }
  }
}
