/**
 * `components/features/threads/priority-indicator.tsx`: a thread's priority weight drawn as a
 * flame for high priorities and a badge whose variant reflects the band.
 */
module PriorityIndicator {
  import opened Wrappers
  import opened Badge

  const HighFrom := 7
  const MediumFrom := 4

  predicate IsHigh(priority: int) {
    priority >= HighFrom
  }

  predicate IsMedium(priority: int) {
    priority >= MediumFrom && priority < HighFrom
  }

  /** What is drawn: the flame, and the badge with its variant unless the label is hidden. */
  datatype Indicator = Indicator(flame: bool, badge: Option<Variant>)

  /** `showLabel` is `None` when the caller leaves it out, which means `true`. */
  function Render(priority: int, showLabel: Option<bool>): (r: Indicator)
    ensures r.flame <==> priority >= 7
    ensures r.badge.Some? <==> showLabel != Some(false)
    ensures r.badge == Some(Destructive) <==> showLabel != Some(false) && priority >= 7
    ensures r.badge == Some(Default) <==> showLabel != Some(false) && 4 <= priority < 7
    ensures r.badge == Some(Secondary) <==> showLabel != Some(false) && priority < 4
  {
    var variant := if IsHigh(priority) then Destructive else if IsMedium(priority) then Default else Secondary;
    Indicator(IsHigh(priority), if showLabel.GetOr(true) then Some(variant) else None)
  }

  /** Every weight falls in exactly one band: high, medium, or neither. */
  lemma BandsPartition(priority: int)
    ensures !(IsHigh(priority) && IsMedium(priority))
    ensures !IsHigh(priority) && !IsMedium(priority) <==> priority < 4
  {}

  /** Raising the weight never lowers the band. */
  lemma BandsAreMonotone(p: int, q: int)
    requires p <= q
    ensures IsHigh(p) ==> IsHigh(q)
    ensures IsMedium(p) ==> IsMedium(q) || IsHigh(q)
    ensures Render(q, None).badge != Some(Secondary) || Render(p, None).badge == Some(Secondary)
  {}
}
