/** One card of the portfolio (components/LoanCard.tsx): which badges and
    which actions it exposes, and what each action hands to its callback. */
module LoanCard {
  import opened Types

  /** A card offers a switch when the loan is flagged switchable AND carries
      a refinance offer; the two fields are independent in the data. */
  predicate IsSwitchable(l: Loan)
  {
    l.canSwitch && l.switchOffer.Some?
  }

  /** What a rendered card shows. Each action holds the argument its click
      passes to the callback, or `None` when the button is not drawn. */
  datatype CardView = CardView(
    switchAction: Option<Loan>,      // "Switch & Save Now" -> onSwitch(loan)
    uploadAction: Option<string>,    // "Upload Docs" -> onUpload(loan.id)
    reminderAction: string,          // bell button -> onToggleReminder(loan.id)
    reminderLit: bool,               // bell drawn as ringing
    newRoiBanner: Option<int>,       // "Better Rate Available", new ROI
    rateBadge: Option<int>,          // plain current-ROI badge
    savingsBox: Option<int>)         // monthly savings highlight

  function Render(l: Loan): (c: CardView)
    ensures c.switchAction.Some? <==> IsSwitchable(l)
    ensures c.switchAction.Some? ==> c.switchAction.value == l
    ensures c.uploadAction.Some? <==> !IsSwitchable(l)
    ensures c.uploadAction.Some? ==> c.uploadAction.value == l.id
    ensures c.reminderAction == l.id && c.reminderLit == l.reminderSet
    ensures c.newRoiBanner.Some? <==> IsSwitchable(l)
    ensures c.rateBadge.Some? <==> !IsSwitchable(l)
    ensures c.rateBadge.Some? ==> c.rateBadge.value == l.roiBp
    ensures c.savingsBox.Some? <==> IsSwitchable(l)
    ensures IsSwitchable(l) ==>
              && c.newRoiBanner == Some(l.switchOffer.value.newRoiBp)
              && c.savingsBox == Some(l.switchOffer.value.monthlySavings)
  {
    if l.canSwitch && l.switchOffer.Some? then
      var offer := l.switchOffer.value;
      CardView(Some(l), None, l.id, l.reminderSet, Some(offer.newRoiBp), None, Some(offer.monthlySavings))
    else
      CardView(None, Some(l.id), l.id, l.reminderSet, None, Some(l.roiBp), None)
  }

  /** Every card shows exactly one of the two action areas, and the loan a
      switch click hands over really is flagged switchable with an offer. */
  lemma SwitchAndUploadExclusive(l: Loan)
    ensures Render(l).switchAction.Some? != Render(l).uploadAction.Some?
    ensures Render(l).newRoiBanner.Some? != Render(l).rateBadge.Some?
    ensures forall x :: Render(l).switchAction == Some(x) ==> x.canSwitch && x.switchOffer.Some?
  {
  }
}
