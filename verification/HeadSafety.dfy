/** Head events and the optimistic slot: heads may arrive late, repeatedly and out of order, and
    their refreshes may run in any order. */
module HeadSafety {
  import opened RelayTypes
  import opened Submissions
  import opened RelayMachine

  // The optimistic slot is at most the slot after the head, and no refresh will exceed it.
  ghost predicate SlotsInStep(s: State) {
    s.view.optimisticSlot <= s.view.headSlot + 1 && forall h :: h in s.pendingHeads ==> h <= s.view.headSlot
  }

  lemma StepKeepsSlotsInStep(s: State, e: Event)
    requires Enabled(s, e) && SlotsInStep(s)
    ensures SlotsInStep(Apply(s, e)) && s.view.headSlot <= Apply(s, e).view.headSlot
  {
  }

  // The head only advances, by whatever events.
  lemma {:induction false} HeadOnlyAdvances(q: Run, r: Run)
    requires IsRun(r) && Prefix(q, r) && SlotsInStep(First(r))
    ensures IsRun(q) && SlotsInStep(Last(r)) && Last(q).view.headSlot <= Last(r).view.headSlot
    decreases r
  {
    if r.Extend? {
      HeadOnlyAdvances(if q == r then r.prev else q, r.prev);
      StepKeepsSlotsInStep(Last(r.prev), r.event);
    }
  }

  // From a service that starts with both slots in step, a block is accepted optimistically
  // only for the slot right after the newest head: a late refresh for an older head closes the
  // slot rather than opening a past one.
  lemma OptimisticMeansNextSlot(r: Run, sub: Submission, slotRead: bool)
    requires IsRun(r) && SlotsInStep(First(r))
    requires Judge(Last(r).view, DeliveredSlotSeen(Last(r), slotRead), sub) == Optimistic
    ensures sub.message.slot == Last(r).view.optimisticSlot == Last(r).view.headSlot + 1
  {
    HeadOnlyAdvances(r, r);
    OptimisticIff(Last(r).view, DeliveredSlotSeen(Last(r), slotRead), sub);
  }
}
