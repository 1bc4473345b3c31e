/** The switch-offer screen (components/SwitchOfferPage.tsx): a list of
    lenders, a confirmation modal, a success modal and the savings shown. The
    one-second confirmation delay is an explicit timer event. */
module SwitchOfferPage {
  import opened Types
  import DashboardView

  /** The lender catalog of the screen, in display order. */
  const Lenders: seq<LenderOffer> := [
    LenderOffer("l1", "HDFC Bank", 1040, 1000000, 60, ["Zero Foreclosure", "Instant Transfer"], "bg-[#004c8f]", 48, 0),
    LenderOffer("l2", "Kotak Mahindra Bank", 1052, 1500000, 60, ["Minimal Docs", "Flexible Tenure"], "bg-[#ed1b24]", 47, 499),
    LenderOffer("l3", "ICICI Bank", 1060, 1200000, 60, ["Paperless", "Pre-approved"], "bg-[#f37e20]", 46, 999)
  ]

  /** Savings shown when the loan has no offer or its savings are 0. */
  const FallbackSavings := 5600
  /** Multiplier of the "Total Savings" figure. */
  const TotalSavingsFactor := 215

  /** The screen's state; `pendingConfirms` counts confirmation timers that
      are scheduled and have not fired yet. */
  datatype Page = Page(showConfirm: bool, showSuccess: bool, selectedLender: Option<LenderOffer>, pendingConfirms: nat)

  datatype Event =
    | Initiate(lender: nat)   // a lender's "Switch in 5 Minutes" button, by catalog index
    | CancelConfirm           // the modal's Cancel button or its close cross
    | ConfirmSwitch           // "Confirm Switch"
    | ConfirmTimer            // a confirmation timer fires
    | BackToDashboard         // the success modal's button
    | HeaderBack              // the header's back arrow

  /** What a step does: stay on the screen, or leave it through `onBack`. */
  datatype Outcome = Stay(page: Page) | Leave(success: bool)

  /** Both modals closed, no lender selected. */
  function Init(): (p: Page)
    ensures !p.showConfirm && !p.showSuccess && p.selectedLender.None? && p.pendingConfirms == 0
  {
    Page(false, false, None, 0)
  }

  /** The confirmation modal renders only when open AND a lender is selected. */
  predicate ConfirmVisible(p: Page)
  {
    p.showConfirm && p.selectedLender.Some?
  }

  /** A modal overlay covers the page, so only its own buttons are clickable. */
  predicate ModalOpen(p: Page)
  {
    ConfirmVisible(p) || p.showSuccess
  }

  function Step(p: Page, e: Event): (o: Outcome)
    ensures e.Initiate? && !ModalOpen(p) && e.lender < |Lenders| ==>
              o == Stay(p.(selectedLender := Some(Lenders[e.lender]), showConfirm := true))
    ensures e.CancelConfirm? ==> o.Stay? && o.page.selectedLender == p.selectedLender
    ensures e.CancelConfirm? && ConfirmVisible(p) ==> !o.page.showConfirm
    ensures e.ConfirmTimer? && p.pendingConfirms > 0 ==>
              o.Stay? && !o.page.showConfirm && o.page.showSuccess
    ensures o.Leave? <==> (e.BackToDashboard? && p.showSuccess) || (e.HeaderBack? && !ModalOpen(p))
    ensures o.Leave? ==> (o.success <==> e.BackToDashboard?)
  {
    match e
    case Initiate(i) =>
      if !ModalOpen(p) && i < |Lenders| then Stay(p.(selectedLender := Some(Lenders[i]), showConfirm := true))
      else Stay(p)
    case CancelConfirm =>
      if ConfirmVisible(p) then Stay(p.(showConfirm := false)) else Stay(p)
    case ConfirmSwitch =>
      if ConfirmVisible(p) then Stay(p.(pendingConfirms := p.pendingConfirms + 1)) else Stay(p)
    case ConfirmTimer =>
      if p.pendingConfirms > 0 then
        Stay(p.(showConfirm := false, showSuccess := true, pendingConfirms := p.pendingConfirms - 1))
      else Stay(p)
    case BackToDashboard =>
      if p.showSuccess then Leave(true) else Stay(p)
    case HeaderBack =>
      if !ModalOpen(p) then Leave(false) else Stay(p)
  }

  /** Whether an event is a timer rather than a click. */
  predicate IsTimer(e: Event)
  {
    e.ConfirmTimer?
  }

  /** The states the screen can be in: an open confirmation modal always has
      a lender from the catalog, and the two modals are never open together. */
  predicate Inv(p: Page)
  {
    && (p.showConfirm ==> p.selectedLender.Some?)
    && !(p.showConfirm && p.showSuccess)
    && (p.selectedLender.Some? ==> p.selectedLender.value in Lenders)
  }

  lemma InitSatisfiesInv()
    ensures Inv(Init())
  {
  }

  lemma StepPreservesInv(p: Page, e: Event)
    requires Inv(p)
    ensures Step(p, e).Stay? ==> Inv(Step(p, e).page)
  {
  }

  /** Runs a sequence of events, stopping at the first one that leaves. */
  function Run(p: Page, es: seq<Event>): Outcome
    decreases |es|
  {
    if |es| == 0 then Stay(p)
    else match Step(p, es[0])
      case Stay(q) => Run(q, es[1..])
      case Leave(b) => Leave(b)
  }

  /** The success path: pick a lender, confirm, let the timer fire, go back;
      the screen reports success. */
  lemma SuccessPathReportsSuccess(i: nat)
    requires i < |Lenders|
    ensures Run(Init(), [Initiate(i), ConfirmSwitch, ConfirmTimer, BackToDashboard]) == Leave(true)
  {
    var p1 := Init().(selectedLender := Some(Lenders[i]), showConfirm := true);
    assert Step(Init(), Initiate(i)) == Stay(p1);
    var p2 := p1.(pendingConfirms := 1);
    assert Step(p1, ConfirmSwitch) == Stay(p2);
    var p3 := p2.(showConfirm := false, showSuccess := true, pendingConfirms := 0);
    assert Step(p2, ConfirmTimer) == Stay(p3);
    assert Step(p3, BackToDashboard) == Leave(true);
    assert [Initiate(i), ConfirmSwitch, ConfirmTimer, BackToDashboard][1..] == [ConfirmSwitch, ConfirmTimer, BackToDashboard];
    assert [ConfirmSwitch, ConfirmTimer, BackToDashboard][1..] == [ConfirmTimer, BackToDashboard];
    assert [ConfirmTimer, BackToDashboard][1..] == [BackToDashboard];
  }

  /** Cancelling after confirming does not cancel the scheduled timer: when
      it fires the success modal opens anyway. */
  lemma CancelKeepsPendingConfirm(p: Page)
    requires ConfirmVisible(p) && !p.showSuccess
    ensures var q := Run(p, [ConfirmSwitch, CancelConfirm, ConfirmTimer]);
            q.Stay? && q.page.showSuccess && !q.page.showConfirm
  {
    var p1 := p.(pendingConfirms := p.pendingConfirms + 1);
    assert Step(p, ConfirmSwitch) == Stay(p1);
    var p2 := p1.(showConfirm := false);
    assert Step(p1, CancelConfirm) == Stay(p2);
    assert [ConfirmSwitch, CancelConfirm, ConfirmTimer][1..] == [CancelConfirm, ConfirmTimer];
    assert [CancelConfirm, ConfirmTimer][1..] == [ConfirmTimer];
  }

  /** The monthly savings shown: the offer's savings, falling back to 5600
      when the loan has no offer or the offer's savings are 0. */
  function MonthlySavings(l: Loan): (r: int)
    ensures r != 0
    ensures l.switchOffer.Some? && l.switchOffer.value.monthlySavings != 0 ==> r == l.switchOffer.value.monthlySavings
    ensures l.switchOffer.None? || l.switchOffer.value.monthlySavings == 0 ==> r == FallbackSavings
  {
    match l.switchOffer
    case Some(o) => if o.monthlySavings != 0 then o.monthlySavings else FallbackSavings
    case None => FallbackSavings
  }

  /** The "Total Savings" figure. */
  function TotalSavings(l: Loan): (r: int)
    ensures r != 0 && r % TotalSavingsFactor == 0
    ensures r / TotalSavingsFactor == MonthlySavings(l)
    ensures MonthlySavings(l) > 0 ==> r > 0
  {
    MonthlySavings(l) * TotalSavingsFactor
  }

  /** The screen's figure agrees with the dashboard's per-loan contribution
      whenever that contribution is non-zero, and is the fallback otherwise. */
  lemma MonthlySavingsAgreesWithDashboard(l: Loan)
    ensures DashboardView.OfferSavings(l) != 0 ==> MonthlySavings(l) == DashboardView.OfferSavings(l)
    ensures DashboardView.OfferSavings(l) == 0 ==> MonthlySavings(l) == FallbackSavings
  {
  }
}
