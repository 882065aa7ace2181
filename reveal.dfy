/**
 * The state `ConstellationScene` keeps between renders: how many companies
 * are revealed, whether the reveal timer runs, and which company the pointer
 * is over (src/pages/Techmap.jsx, lines 273-274 and 369-422). Timer ticks
 * and pointer events are the methods of one object; React's scheduling of
 * them is not modelled.
 */
module Reveal {
  import opened Util
  import opened Layout

  /** Companies revealed per tick. */
  const BatchSize := 15

  /** How far above a company its tooltip is anchored. */
  const TooltipLift := 2.0

  /** The updater each tick hands to `setVisibleCount`: one more batch, but
      never past the number of companies. */
  function NextCount(prev: nat, total: nat): (next: nat)
    ensures next <= total
    ensures next == total || next == prev + BatchSize
    ensures prev <= total ==> prev <= next
    ensures prev + BatchSize <= total ==> next == prev + BatchSize
  {
    Min(prev + BatchSize, total)
  }

  /** The count after `ticks` ticks of a reveal that started from zero. */
  function CountAfter(total: nat, ticks: nat): nat
  {
    if ticks == 0 then 0 else NextCount(CountAfter(total, ticks - 1), total)
  }

  /** Ticks a reveal of `total` companies takes: the ceiling of total / 15. */
  function TicksToReveal(total: nat): nat
  {
    (total + BatchSize - 1) / BatchSize
  }

  /** After k ticks from zero, min(15k, total) companies are shown. */
  lemma {:induction false} CountAfterIsBatchesShown(total: nat, ticks: nat)
    ensures CountAfter(total, ticks) == Min(BatchSize * ticks, total)
  {
    if ticks > 0 {
      CountAfterIsBatchesShown(total, ticks - 1);
    }
  }

  /** The visible count never goes down while a reveal runs. */
  lemma CountAfterMonotone(total: nat, k1: nat, k2: nat)
    requires k1 <= k2
    ensures CountAfter(total, k1) <= CountAfter(total, k2)
  {
    CountAfterIsBatchesShown(total, k1);
    CountAfterIsBatchesShown(total, k2);
  }

  /** Every company is shown after exactly ceil(total / 15) ticks, and not before. */
  lemma RevealTakesCeilTicks(total: nat)
    ensures CountAfter(total, TicksToReveal(total)) == total
    ensures forall k :: 0 <= k < TicksToReveal(total) ==> CountAfter(total, k) < total
  {
    CountAfterIsBatchesShown(total, TicksToReveal(total));
    forall k | 0 <= k < TicksToReveal(total)
      ensures CountAfter(total, k) < total
    {
      CountAfterIsBatchesShown(total, k);
    }
  }

  /** Index of the first company with the given id, as `Array.prototype.find`. */
  function FindById(placed: seq<Placed>, id: string): (r: Option<nat>)
    ensures r.Some? ==> r.value < |placed| && placed[r.value].company.id == id
    ensures r.Some? ==> forall j :: 0 <= j < r.value ==> placed[j].company.id != id
    ensures r.None? <==> forall j :: 0 <= j < |placed| ==> placed[j].company.id != id
  {
    if placed == [] then
      None
    else if placed[0].company.id == id then
      Some(0)
    else
      match FindById(placed[1..], id)
      case None => None
      case Some(k) => Some(k + 1)
  }

  /** Where the tooltip is drawn: the origin, or a lift above a company's
      position (x, y + 2, z in world coordinates). */
  datatype Anchor = Origin | Above(base: Position, lift: real)

  class ConstellationScene {
    /** `processedCompanies`: the scene's companies, inner orbits first. */
    var placed: seq<Placed>
    var visibleCount: nat
    var timerActive: bool
    /** The id of `hoveredCompany`. */
    var hovered: Option<string>

    /** A timer runs only while there are companies, and once it is off
        every company is revealed. */
    ghost predicate Valid()
      reads this
    {
      && (timerActive ==> |placed| > 0)
      && (!timerActive ==> visibleCount >= |placed|)
    }

    /** First render: nothing shown, nothing hovered, and a timer only when
        there is something to reveal. */
    constructor (placed: seq<Placed>)
      ensures Valid()
      ensures this.placed == placed && visibleCount == 0 && hovered == None
      ensures timerActive == (|placed| > 0)
    {
      this.placed := placed;
      visibleCount := 0;
      timerActive := |placed| > 0;
      hovered := None;
    }

    /** One firing of the 50 ms interval: reveal one more batch and clear the
        timer once every company is shown. */
    method Tick()
      requires Valid() && timerActive
      modifies this`visibleCount, this`timerActive
      ensures Valid()
      ensures visibleCount == NextCount(old(visibleCount), |placed|)
      ensures timerActive == (visibleCount < |placed|)
    {
      var next := NextCount(visibleCount, |placed|);
      if next >= |placed| {
        timerActive := false;
      }
      visibleCount := next;
    }

    /** New `processedCompanies`: the effect, keyed on the length, restarts
        the timer only when the length changes, and never resets the count. */
    method Reload(newPlaced: seq<Placed>)
      requires Valid()
      modifies this`placed, this`timerActive
      ensures Valid() && placed == newPlaced
      ensures |newPlaced| != |old(placed)| ==> timerActive == (|newPlaced| > 0)
      ensures |newPlaced| == |old(placed)| ==> timerActive == old(timerActive)
    {
      if |newPlaced| != |placed| {
        timerActive := |newPlaced| > 0;
      }
      placed := newPlaced;
    }

    /** Lets the interval fire until it clears itself. */
    method RunTimer() returns (ticks: nat)
      requires Valid()
      modifies this`visibleCount, this`timerActive
      ensures Valid() && !timerActive
      ensures old(timerActive) ==> visibleCount == |placed|
      ensures old(timerActive) && old(visibleCount) == 0 ==> ticks == TicksToReveal(|placed|)
      ensures !old(timerActive) ==> ticks == 0 && visibleCount == old(visibleCount)
    {
      ticks := 0;
      while timerActive
        invariant Valid()
        invariant old(timerActive) && !timerActive ==> visibleCount == |placed|
        invariant old(timerActive) && old(visibleCount) == 0 ==>
          && visibleCount == CountAfter(|placed|, ticks)
          && ticks <= TicksToReveal(|placed|)
          && (timerActive <==> ticks < TicksToReveal(|placed|))
        invariant !old(timerActive) ==> ticks == 0 && visibleCount == old(visibleCount)
        decreases timerActive, |placed| - Min(visibleCount, |placed|)
      {
        Tick();
        ticks := ticks + 1;
        if old(timerActive) && old(visibleCount) == 0 {
          RevealTakesCeilTicks(|placed|);
          CountAfterIsBatchesShown(|placed|, ticks);
        }
      }
    }

    /** `onPointerEnter`: the company under the pointer becomes the hovered one. */
    method PointerEnter(id: string)
      requires Valid()
      modifies this`hovered
      ensures Valid()
      ensures hovered == Some(id)
    {
      hovered := Some(id);
    }

    /** `onPointerLeave` calls `onHover(null)`: it clears the hover whichever
        company the pointer leaves. */
    method PointerLeave()
      requires Valid()
      modifies this`hovered
      ensures Valid()
      ensures hovered == None
    {
      hovered := None;
    }

    /** `visibleCompanies`: the first `visibleCount` companies of the scene. */
    function Visible(): (shown: seq<Placed>)
      reads this
      ensures |shown| == Min(visibleCount, |placed|)
      ensures shown <= placed
    {
      placed[..Min(visibleCount, |placed|)]
    }

    /** `tooltipPosition`: above the first scene company with the hovered id,
        or the origin when nothing is hovered or no company has that id. */
    function TooltipAnchor(): (anchor: Anchor)
      reads this
      ensures hovered.None? ==> anchor == Origin
      ensures hovered.Some? && (forall j :: 0 <= j < |placed| ==> placed[j].company.id != hovered.value) ==> anchor == Origin
      ensures hovered.Some? && (exists j :: 0 <= j < |placed| && placed[j].company.id == hovered.value) ==> anchor.Above?
      ensures anchor.Above? ==> (
        && hovered.Some? && anchor.lift == TooltipLift
        && exists k :: 0 <= k < |placed| && placed[k].company.id == hovered.value && anchor.base == placed[k].position
             && forall j :: 0 <= j < k ==> placed[j].company.id != hovered.value)
    {
      match hovered
      case None => Origin
      case Some(id) =>
        match FindById(placed, id)
        case None => Origin
        case Some(k) => Above(placed[k].position, TooltipLift)
    }
  }

  /** While the scene is sorted by orbit, every revealed company orbits no
      farther out than any company still hidden. */
  lemma VisibleAreInnermost(scene: ConstellationScene, shown: Placed, hidden: Placed)
    requires forall i, j :: 0 <= i < j < |scene.placed| ==> scene.placed[i].orbitRadius <= scene.placed[j].orbitRadius
    requires shown in scene.Visible()
    requires hidden in scene.placed[Min(scene.visibleCount, |scene.placed|)..]
    ensures shown.orbitRadius <= hidden.orbitRadius
  {
    var n := Min(scene.visibleCount, |scene.placed|);
    var i :| 0 <= i < n && scene.Visible()[i] == shown;
    var j :| 0 <= j < |scene.placed| - n && scene.placed[n..][j] == hidden;
    assert scene.placed[i] == shown && scene.placed[n + j] == hidden;
  }
}
