/** The four-step loan-application wizard (components/NewLoanApplication.tsx).

    Every step advance is two events: the click on the step's button sets
    `loading` and schedules a timer; the timer, firing later, clears `loading`
    and moves to the next step. The model counts scheduled timers that have
    not fired (`pendingAdvance`, `pendingFinalize`) and lets each fire at any
    point, so every interleaving of clicks and timers is covered.

    A click on a button that is disabled or not rendered changes nothing. */
module NewLoanApplication {
  import opened Types

  // ---------------------------------------------------------------------------
  // Constants
  // ---------------------------------------------------------------------------

  const AmountMin := 50000
  const AmountMax := 5000000
  const AmountStride := 10000
  const TenureMin := 12
  const TenureMax := 60
  const TenureStride := 6
  const DefaultAmount := 200000
  const DefaultTenure := 24

  /** The offer catalog, in display order. */
  const Catalog: seq<LenderOffer> := [
    LenderOffer("o1", "HDFC Bank", 1075, 1500000, 60, ["Pre-approved", "24hr Disbursal"], "bg-blue-800", 49, 999),
    LenderOffer("o2", "ICICI Bank", 1125, 1200000, 60, ["Minimal Documentation"], "bg-orange-600", 47, 499),
    LenderOffer("o3", "KreditBee", 1250, 500000, 36, ["Instant Transfer"], "bg-yellow-600", 45, 0)
  ]

  datatype Purpose = PersonalUse | DebtConsolidation | MedicalEmergency | Wedding | HomeRenovation | Travel

  datatype Employment = Salaried | SelfEmployed

  /** The document buttons drawn on step 2, by employment type. */
  function DocIds(e: Employment): seq<string>
  {
    match e
    case Salaried => ["aadhaar", "salary", "employment"]
    case SelfEmployed => ["aadhaar", "business", "financials"]
  }

  // ---------------------------------------------------------------------------
  // Eligibility
  // ---------------------------------------------------------------------------

  /** `Math.max` over the offers' maximum amounts; `None` stands for the
      -Infinity that `Math.max()` yields on no arguments. */
  function MaxEligibleAmount(offers: seq<LenderOffer>): (r: Option<int>)
    ensures r.None? <==> |offers| == 0
    ensures r.Some? ==> forall i :: 0 <= i < |offers| ==> offers[i].maxAmount <= r.value
    ensures r.Some? ==> exists i :: 0 <= i < |offers| && offers[i].maxAmount == r.value
  {
    if |offers| == 0 then None
    else
      match MaxEligibleAmount(offers[1..])
      case None => Some(offers[0].maxAmount)
      case Some(m) =>
        assert forall i :: 1 <= i < |offers| ==> offers[i] == offers[1..][i - 1];
        Some(if offers[0].maxAmount >= m then offers[0].maxAmount else m)
  }

  /** On the catalog the eligibility banner shows 15,00,000. */
  lemma CatalogEligibility()
    ensures MaxEligibleAmount(Catalog) == Some(1500000)
  {
    assert Catalog[1..][1..][1..] == [];
  }

  // ---------------------------------------------------------------------------
  // Range sliders
  // ---------------------------------------------------------------------------

  lemma DivBounds(d: int, s: int)
    requires s > 0 && d >= 0
    ensures var q := (2 * d + s) / (2 * s);
            q >= 0 && 2 * (q * s - d) <= s && 2 * (d - q * s) < s
  {
    var q := (2 * d + s) / (2 * s);
    var m := (2 * d + s) % (2 * s);
    assert 2 * d + s == q * (2 * s) + m;
    assert 0 <= m < 2 * s;
    assert q * (2 * s) == 2 * (q * s);
  }

  lemma SmallMultipleIsZero(t: int, s: int)
    requires s > 0 && 0 <= t * s < s
    ensures t == 0
  {
  }

  lemma MultipleMod(q: int, s: int)
    requires s > 0
    ensures (q * s) % s == 0
  {
    var x := q * s;
    assert x == (x / s) * s + x % s;
    assert x % s == (q - x / s) * s;
    SmallMultipleIsZero(q - x / s, s);
  }

  /** The value a range input (`<input type="range">`) reports for a raw
      value: clamped into [lo, hi] and snapped to the nearest point of the
      grid lo, lo + stride, ..., ties going up. Since hi is itself a grid
      point, the final cap at hi never moves a snapped value off the grid. */
  function RangeInput(lo: int, hi: int, stride: int, raw: int): (r: int)
    requires stride > 0 && lo <= hi && (hi - lo) % stride == 0
    ensures lo <= r <= hi
    ensures (r - lo) % stride == 0
    ensures raw <= lo ==> r == lo
    ensures raw >= hi ==> r == hi
    ensures lo <= raw <= hi ==> 2 * (r - raw) <= stride && 2 * (raw - r) < stride
  {
    if raw <= lo then lo
    else if raw >= hi then hi
    else
      var d := raw - lo;
      var q := (2 * d + stride) / (2 * stride);
      DivBounds(d, stride);
      MultipleMod(q, stride);
      Min(hi, lo + q * stride)
  }

  predicate AmountOnGrid(a: int)
  {
    AmountMin <= a <= AmountMax && (a - AmountMin) % AmountStride == 0
  }

  predicate TenureOnGrid(t: int)
  {
    TenureMin <= t <= TenureMax && (t - TenureMin) % TenureStride == 0
  }

  // ---------------------------------------------------------------------------
  // Wizard state and events
  // ---------------------------------------------------------------------------

  datatype Wizard = Wizard(
    step: int,
    loading: bool,
    amount: int,
    tenure: int,
    purpose: Purpose,
    employment: Employment,
    income: string,
    docs: map<string, bool>,
    selectedOffer: Option<LenderOffer>,
    consent: bool,
    success: bool,
    applicationId: string,
    pendingAdvance: nat,
    pendingFinalize: nat)

  datatype Event =
    | SetAmount(rawAmount: int)        // amount slider
    | SetTenure(rawTenure: int)        // tenure slider
    | SetPurpose(purpose: Purpose)
    | SetEmployment(employment: Employment)
    | SetIncome(text: string)          // income field, as typed
    | UploadDoc(docId: string)         // a document button
    | SelectOffer(offer: nat)          // an offer card, by catalog index
    | SetConsent(checked: bool)        // consent checkbox
    | Next                             // the step's primary button (handleNext)
    | AdvanceTimer                     // handleNext's timer fires
    | FinalSubmit                      // "Complete Application" (handleFinalSubmit)
    | FinalizeTimer                    // handleFinalSubmit's timer fires
    | Back                             // header back arrow (onBack)
    | Finish(date: string)             // "Go to Dashboard" on the success screen (handleFinish)

  /** What a step does: keep the wizard open, leave it without a result, or
      hand a finished application to the caller. */
  datatype Outcome = Continue(w: Wizard) | Cancelled | Completed(app: LoanApplication)

  predicate IsTimer(e: Event)
  {
    e.AdvanceTimer? || e.FinalizeTimer?
  }

  /** The state at mount; the application id is fixed here, once. */
  function Init(applicationId: string): Wizard
  {
    Wizard(1, false, DefaultAmount, DefaultTenure, PersonalUse, Salaried, "", map[],
           None, false, false, applicationId, 0, 0)
  }

  /** Whether the content of step `k` is on screen. */
  predicate OnStep(w: Wizard, k: int)
  {
    !w.success && w.step == k
  }

  /** Step 4 renders only when an offer is selected. */
  predicate OnConfirm(w: Wizard)
  {
    OnStep(w, 4) && w.selectedOffer.Some?
  }

  /** The enable condition of the primary button of steps 1 to 3. With
      `guarded` false it is the code as written, where the step-3 button does
      not look at `loading`; with `guarded` true step 3 also waits for it. */
  predicate NextEnabled(w: Wizard, guarded: bool)
  {
    if OnStep(w, 1) then w.income != "" && !w.loading
    else if OnStep(w, 2) then !w.loading
    else if OnStep(w, 3) then w.selectedOffer.Some? && (!guarded || !w.loading)
    else false
  }

  /** The final submit button: consent given and nothing in flight. */
  predicate SubmitEnabled(w: Wizard)
  {
    OnConfirm(w) && w.consent && !w.loading
  }

  /** handleFileUpload: marks one document uploaded. */
  function UploadDocument(docs: map<string, bool>, d: string): (r: map<string, bool>)
    ensures d in r && r[d]
    ensures r.Keys == docs.Keys + {d}
    ensures forall k :: k in docs && k != d ==> r[k] == docs[k]
  {
    docs[d := true]
  }

  /** Uploading the same document again changes nothing. */
  lemma UploadIdempotent(docs: map<string, bool>, d: string)
    ensures UploadDocument(UploadDocument(docs, d), d) == UploadDocument(docs, d)
  {
  }

  /** handleFinish: the application handed to the caller, if an offer is
      selected. The amount is the request capped by the offer's maximum. */
  function FinishApplication(w: Wizard, date: string): (r: Option<LoanApplication>)
    ensures r.Some? <==> w.selectedOffer.Some?
    ensures r.Some? ==> r.value.id == w.applicationId
    ensures r.Some? ==> r.value.bankName == w.selectedOffer.value.bankName
    ensures r.Some? ==> r.value.status == Submitted && r.value.date == date
    ensures r.Some? ==> r.value.amount <= w.amount && r.value.amount <= w.selectedOffer.value.maxAmount
    ensures r.Some? ==> r.value.amount == w.amount || r.value.amount == w.selectedOffer.value.maxAmount
  {
    match w.selectedOffer
    case Some(o) => Some(LoanApplication(w.applicationId, o.bankName, Min(w.amount, o.maxAmount), Submitted, date))
    case None => None
  }

  /** The amount and tenure shown on the confirm screen, each capped by the
      selected offer's limits. */
  function ConfirmTerms(w: Wizard): (terms: (int, int))
    requires w.selectedOffer.Some?
    ensures terms.0 <= w.amount && terms.0 <= w.selectedOffer.value.maxAmount
    ensures terms.0 == w.amount || terms.0 == w.selectedOffer.value.maxAmount
    ensures terms.1 <= w.tenure && terms.1 <= w.selectedOffer.value.tenureMonths
    ensures terms.1 == w.tenure || terms.1 == w.selectedOffer.value.tenureMonths
  {
    (Min(w.amount, w.selectedOffer.value.maxAmount), Min(w.tenure, w.selectedOffer.value.tenureMonths))
  }

  /** One event, with the step-3 gate chosen by `guarded`. */
  function Apply(w: Wizard, e: Event, guarded: bool): (o: Outcome)
    ensures o.Cancelled? <==> e.Back? && !w.success
    ensures o.Completed? <==> e.Finish? && w.success && w.selectedOffer.Some?
    ensures o.Completed? ==> FinishApplication(w, e.date) == Some(o.app)
    ensures e.Back? && w.success ==> o == Continue(w)
  {
    match e
    case SetAmount(raw) =>
      Continue(if OnStep(w, 1) then w.(amount := RangeInput(AmountMin, AmountMax, AmountStride, raw)) else w)
    case SetTenure(raw) =>
      Continue(if OnStep(w, 1) then w.(tenure := RangeInput(TenureMin, TenureMax, TenureStride, raw)) else w)
    case SetPurpose(p) =>
      Continue(if OnStep(w, 1) then w.(purpose := p) else w)
    case SetEmployment(m) =>
      Continue(if OnStep(w, 1) then w.(employment := m) else w)
    case SetIncome(text) =>
      Continue(if OnStep(w, 1) then w.(income := text) else w)
    case UploadDoc(d) =>
      Continue(if OnStep(w, 2) && d in DocIds(w.employment) then w.(docs := UploadDocument(w.docs, d)) else w)
    case SelectOffer(i) =>
      Continue(if OnStep(w, 3) && i < |Catalog| then w.(selectedOffer := Some(Catalog[i])) else w)
    case SetConsent(b) =>
      Continue(if OnConfirm(w) then w.(consent := b) else w)
    case Next =>
      Continue(if NextEnabled(w, guarded) then w.(loading := true, pendingAdvance := w.pendingAdvance + 1) else w)
    case AdvanceTimer =>
      Continue(if w.pendingAdvance > 0
               then w.(loading := false, step := w.step + 1, pendingAdvance := w.pendingAdvance - 1)
               else w)
    case FinalSubmit =>
      Continue(if SubmitEnabled(w) then w.(loading := true, pendingFinalize := w.pendingFinalize + 1) else w)
    case FinalizeTimer =>
      Continue(if w.pendingFinalize > 0
               then w.(loading := false, success := true, pendingFinalize := w.pendingFinalize - 1)
               else w)
    case Back =>
      if !w.success then Cancelled else Continue(w)
    case Finish(date) =>
      if w.success then
        match FinishApplication(w, date)
        case Some(app) => Completed(app)
        case None => Continue(w)
      else Continue(w)
  }

  /** The wizard with the step-3 button also waiting for `loading`. */
  function Step(w: Wizard, e: Event): Outcome
  {
    Apply(w, e, true)
  }

  /** The wizard as written. */
  function StepAsWritten(w: Wizard, e: Event): Outcome
  {
    Apply(w, e, false)
  }

  /** Runs events in order until the wizard is left. */
  function Run(w: Wizard, es: seq<Event>, guarded: bool): Outcome
    decreases |es|
  {
    if |es| == 0 then Continue(w)
    else match Apply(w, es[0], guarded)
      case Continue(w') => Run(w', es[1..], guarded)
      case Cancelled => Cancelled
      case Completed(app) => Completed(app)
  }

  // ---------------------------------------------------------------------------
  // Properties of single events
  // ---------------------------------------------------------------------------

  /** No event moves the wizard back: a step either stays or goes up by one,
      and only a firing advance timer moves it. */
  lemma StepNeverGoesBack(w: Wizard, e: Event, guarded: bool)
    ensures Apply(w, e, guarded).Continue? ==>
              var w' := Apply(w, e, guarded).w;
              w.step <= w'.step <= w.step + 1 && (w'.step == w.step + 1 <==> e.AdvanceTimer? && w.pendingAdvance > 0)
  {
  }

  /** A click on an enabled step button followed by its timer moves exactly
      one step forward and leaves nothing in flight. */
  lemma NextThenTimerAdvancesOne(w: Wizard, guarded: bool)
    requires NextEnabled(w, guarded) && w.pendingAdvance == 0
    ensures var r := Run(w, [Next, AdvanceTimer], guarded);
            r.Continue? && r.w.step == w.step + 1 && !r.w.loading && r.w.pendingAdvance == 0
  {
    var w1 := w.(loading := true, pendingAdvance := 1);
    assert Apply(w, Next, guarded) == Continue(w1);
    assert [Next, AdvanceTimer][1..] == [AdvanceTimer];
  }

  /** The step gates. Step 1 needs a non-empty income and nothing in flight;
      step 2 needs only nothing in flight, whatever documents are uploaded;
      step 3 as written needs only a selected offer, loading or not. */
  lemma StepGates(w: Wizard, docs: map<string, bool>)
    ensures OnStep(w, 1) ==> (NextEnabled(w, false) <==> w.income != "" && !w.loading)
    ensures OnStep(w, 2) ==> (NextEnabled(w, false) <==> !w.loading)
    ensures OnStep(w, 2) ==> (NextEnabled(w.(docs := docs), false) <==> NextEnabled(w, false))
    ensures OnStep(w, 3) ==> (NextEnabled(w, false) <==> w.selectedOffer.Some?)
    ensures OnStep(w, 3) ==> (NextEnabled(w, true) <==> w.selectedOffer.Some? && !w.loading)
    ensures w.success || w.step < 1 || w.step > 3 ==> !NextEnabled(w, false) && !NextEnabled(w, true)
  {
  }

  // ---------------------------------------------------------------------------
  // The step-3 double click (as written)
  // ---------------------------------------------------------------------------

  /** As written, two clicks on "Proceed" before the timer fires schedule two
      advances, and the wizard lands on step 5, for which nothing is drawn. */
  lemma AsWrittenDoubleClickReachesStepFive(w: Wizard)
    requires OnStep(w, 3) && w.selectedOffer.Some? && !w.loading
    requires w.pendingAdvance == 0 && w.pendingFinalize == 0
    ensures var r := Run(w, [Next, Next, AdvanceTimer, AdvanceTimer], false);
            r.Continue? && r.w.step == 5 && !r.w.success && r.w.pendingAdvance == 0
  {
    var w1 := w.(loading := true, pendingAdvance := 1);
    assert StepAsWritten(w, Next) == Continue(w1);
    var w2 := w1.(pendingAdvance := 2);
    assert StepAsWritten(w1, Next) == Continue(w2);
    var w3 := w2.(loading := false, step := 4, pendingAdvance := 1);
    assert StepAsWritten(w2, AdvanceTimer) == Continue(w3);
    assert [Next, Next, AdvanceTimer, AdvanceTimer][1..] == [Next, AdvanceTimer, AdvanceTimer];
    assert [Next, AdvanceTimer, AdvanceTimer][1..] == [AdvanceTimer, AdvanceTimer];
    assert [AdvanceTimer, AdvanceTimer][1..] == [AdvanceTimer];
  }

  /** On step 5 with no timer in flight every click except the back arrow is
      a no-op: the user sees an empty page and can only leave. */
  lemma AsWrittenStepFiveIsStuck(w: Wizard, e: Event)
    requires w.step == 5 && !w.success && w.pendingAdvance == 0 && w.pendingFinalize == 0
    requires !e.Back?
    ensures StepAsWritten(w, e) == Continue(w)
  {
  }

  // ---------------------------------------------------------------------------
  // The guarded wizard: invariant and consequences
  // ---------------------------------------------------------------------------

  /** The states of the guarded wizard. At most one timer is in flight and
      `loading` says exactly whether one is; the step plus the advances in
      flight never passes 4; once step 4 is (or will be) reached an offer
      from the catalog is selected; sliders stay on their grids; an uploaded
      document is marked true. */
  predicate Inv(w: Wizard)
  {
    && 1 <= w.step <= 4
    && w.step + w.pendingAdvance <= 4
    && w.pendingAdvance + w.pendingFinalize <= 1
    && (w.loading <==> w.pendingAdvance + w.pendingFinalize == 1)
    && (w.pendingFinalize == 1 ==> w.step == 4)
    && (w.step + w.pendingAdvance == 4 ==> w.selectedOffer.Some?)
    && (w.selectedOffer.Some? ==> w.selectedOffer.value in Catalog)
    && (w.success ==> w.step == 4)
    && AmountOnGrid(w.amount)
    && TenureOnGrid(w.tenure)
    && (forall d :: d in w.docs ==> w.docs[d])
  }

  lemma InitSatisfiesInv(id: string)
    ensures Inv(Init(id))
    ensures Init(id).step == 1 && !Init(id).loading && !Init(id).success
    ensures Init(id).amount == 200000 && Init(id).tenure == 24
    ensures Init(id).income == "" && Init(id).docs == map[] && Init(id).selectedOffer.None? && !Init(id).consent
    ensures Init(id).applicationId == id
  {
  }

  /** Every event of the guarded wizard keeps the invariant. */
  lemma StepPreservesInv(w: Wizard, e: Event)
    requires Inv(w)
    ensures Step(w, e).Continue? ==> Inv(Step(w, e).w)
  {
    if e.UploadDoc? && OnStep(w, 2) && e.docId in DocIds(w.employment) {
      var w' := Step(w, e).w;
      assert w'.docs == UploadDocument(w.docs, e.docId);
      assert forall d :: d in w'.docs ==> w'.docs[d];
    }
  }

  /** Any run of the guarded wizard from a valid state stays valid; in
      particular the step never passes 4, however the clicks and timers
      interleave. */
  lemma {:induction false} RunPreservesInv(w: Wizard, es: seq<Event>)
    requires Inv(w)
    ensures Run(w, es, true).Continue? ==> Inv(Run(w, es, true).w) && Run(w, es, true).w.step <= 4
    decreases |es|
  {
    if |es| > 0 {
      StepPreservesInv(w, es[0]);
      if Step(w, es[0]).Continue? {
        RunPreservesInv(Step(w, es[0]).w, es[1..]);
      }
    }
  }

  /** The guarded wizard absorbs the second click of the double click that
      reaches step 5 as written. */
  lemma GuardedDoubleClickStopsAtFour(w: Wizard)
    requires Inv(w) && OnStep(w, 3) && w.selectedOffer.Some? && !w.loading
    ensures var r := Run(w, [Next, Next, AdvanceTimer, AdvanceTimer], true);
            r.Continue? && r.w.step == 4
  {
    var w1 := w.(loading := true, pendingAdvance := 1);
    assert Step(w, Next) == Continue(w1);
    assert Step(w1, Next) == Continue(w1);
    var w2 := w1.(loading := false, step := 4, pendingAdvance := 0);
    assert Step(w1, AdvanceTimer) == Continue(w2);
    assert Step(w2, AdvanceTimer) == Continue(w2);
    assert [Next, Next, AdvanceTimer, AdvanceTimer][1..] == [Next, AdvanceTimer, AdvanceTimer];
    assert [Next, AdvanceTimer, AdvanceTimer][1..] == [AdvanceTimer, AdvanceTimer];
    assert [AdvanceTimer, AdvanceTimer][1..] == [AdvanceTimer];
  }

  /** Reaching success needs a selected offer, and the submit that led there
      needed consent; leaving with a result happens only from the success
      screen. */
  lemma SuccessNeedsOfferAndConsent(w: Wizard, e: Event)
    requires Inv(w)
    ensures Step(w, e).Continue? && Step(w, e).w.success && !w.success ==>
              e.FinalizeTimer? && w.selectedOffer.Some?
    ensures e.FinalSubmit? && Step(w, e) != Continue(w) ==> w.consent && w.selectedOffer.Some?
    ensures Step(w, e).Completed? ==> w.success && e.Finish?
  {
  }

  /** A completed application from a valid wizard names a catalog lender,
      is submitted, and asks for an amount between the slider minimum and the
      eligibility ceiling, never more than was requested. */
  lemma CompletedApplicationIsEligible(w: Wizard, e: Event, guarded: bool)
    requires Inv(w)
    requires Apply(w, e, guarded).Completed?
    ensures e.Finish? && w.success && w.selectedOffer.Some?
    ensures var app := Apply(w, e, guarded).app;
            && app.status == Submitted
            && app.id == w.applicationId
            && (exists i :: 0 <= i < |Catalog| && Catalog[i].bankName == app.bankName)
            && AmountMin <= app.amount <= w.amount
            && app.amount <= w.selectedOffer.value.maxAmount
            && MaxEligibleAmount(Catalog).Some? && app.amount <= MaxEligibleAmount(Catalog).value
  {
    var o := w.selectedOffer.value;
    assert o in Catalog;
    CatalogEligibility();
    var i :| 0 <= i < |Catalog| && Catalog[i] == o;
    assert Catalog[i].bankName == Apply(w, e, guarded).app.bankName;
  }

  /** Consent is only checked when the submit is clicked: it can be withdrawn
      while the finalize timer runs and the wizard still succeeds. */
  lemma ConsentCanBeWithdrawnInFlight(w: Wizard)
    requires Inv(w) && SubmitEnabled(w)
    ensures var r := Run(w, [FinalSubmit, SetConsent(false), FinalizeTimer], true);
            r.Continue? && r.w.success && !r.w.consent
  {
    var w1 := w.(loading := true, pendingFinalize := 1);
    assert Step(w, FinalSubmit) == Continue(w1);
    var w2 := w1.(consent := false);
    assert Step(w1, SetConsent(false)) == Continue(w2);
    assert [FinalSubmit, SetConsent(false), FinalizeTimer][1..] == [SetConsent(false), FinalizeTimer];
    assert [SetConsent(false), FinalizeTimer][1..] == [FinalizeTimer];
  }

  // ---------------------------------------------------------------------------
  // The application id
  // ---------------------------------------------------------------------------

  /** No event changes the application id drawn at mount, and a finished
      application carries it. */
  lemma ApplicationIdIsFixed(w: Wizard, e: Event, guarded: bool)
    ensures Apply(w, e, guarded).Continue? ==> Apply(w, e, guarded).w.applicationId == w.applicationId
    ensures Apply(w, e, guarded).Completed? ==> Apply(w, e, guarded).app.id == w.applicationId
  {
  }

  lemma {:induction false} RunKeepsApplicationId(w: Wizard, es: seq<Event>, guarded: bool)
    ensures Run(w, es, guarded).Continue? ==> Run(w, es, guarded).w.applicationId == w.applicationId
    ensures Run(w, es, guarded).Completed? ==> Run(w, es, guarded).app.id == w.applicationId
    decreases |es|
  {
    if |es| > 0 {
      ApplicationIdIsFixed(w, es[0], guarded);
      if Apply(w, es[0], guarded).Continue? {
        RunKeepsApplicationId(Apply(w, es[0], guarded).w, es[1..], guarded);
      }
    }
  }

  /** Whatever happens in between, the application handed over carries the
      id drawn when the wizard was mounted. */
  lemma CompletedCarriesMountId(id: string, es: seq<Event>, guarded: bool)
    ensures Run(Init(id), es, guarded).Completed? ==> Run(Init(id), es, guarded).app.id == id
  {
    RunKeepsApplicationId(Init(id), es, guarded);
  }

  // ---------------------------------------------------------------------------
  // A concrete double click from mount
  // ---------------------------------------------------------------------------

  /** Running two event sequences one after the other. */
  lemma {:induction false} RunAppend(w: Wizard, a: seq<Event>, b: seq<Event>, guarded: bool)
    ensures Run(w, a + b, guarded) ==
              match Run(w, a, guarded)
              case Continue(w') => Run(w', b, guarded)
              case Cancelled => Cancelled
              case Completed(app) => Completed(app)
    decreases |a|
  {
    if |a| == 0 {
      assert a + b == b;
    } else {
      assert (a + b)[0] == a[0];
      assert (a + b)[1..] == a[1..] + b;
      match Apply(w, a[0], guarded)
      case Continue(w') => RunAppend(w', a[1..], b, guarded);
      case Cancelled =>
      case Completed(_) =>
    }
  }

  /** Fill step 1, pass steps 1 and 2, pick the first offer. */
  const ReachStepThree: seq<Event> := [SetIncome("50000"), Next, AdvanceTimer, Next, AdvanceTimer, SelectOffer(0)]

  /** The whole path: reach step 3, then double-click "Proceed". */
  const DoubleClickPath: seq<Event> := ReachStepThree + [Next, Next, AdvanceTimer, AdvanceTimer]

  /** From mount, the prefix leaves the wizard on step 3 with an offer and
      nothing in flight, whichever step-3 gate is used. */
  lemma ReachStepThreeOutcome(id: string, guarded: bool)
    ensures var r := Run(Init(id), ReachStepThree, guarded);
            r.Continue? && OnStep(r.w, 3) && r.w.selectedOffer.Some? && !r.w.loading
            && r.w.pendingAdvance == 0 && r.w.pendingFinalize == 0 && Inv(r.w)
  {
    var w0 := Init(id);
    var w1 := w0.(income := "50000");
    var w2 := w1.(loading := true, pendingAdvance := 1);
    var w3 := w2.(loading := false, step := 2, pendingAdvance := 0);
    var w4 := w3.(loading := true, pendingAdvance := 1);
    var w5 := w4.(loading := false, step := 3, pendingAdvance := 0);
    var w6 := w5.(selectedOffer := Some(Catalog[0]));
    assert Apply(w0, SetIncome("50000"), guarded) == Continue(w1);
    assert Apply(w1, Next, guarded) == Continue(w2);
    assert Apply(w2, AdvanceTimer, guarded) == Continue(w3);
    assert Apply(w3, Next, guarded) == Continue(w4);
    assert Apply(w4, AdvanceTimer, guarded) == Continue(w5);
    assert Apply(w5, SelectOffer(0), guarded) == Continue(w6);
    var es := ReachStepThree;
    assert es[1..] == [Next, AdvanceTimer, Next, AdvanceTimer, SelectOffer(0)];
    assert es[1..][1..] == [AdvanceTimer, Next, AdvanceTimer, SelectOffer(0)];
    assert es[1..][1..][1..] == [Next, AdvanceTimer, SelectOffer(0)];
    assert es[1..][1..][1..][1..] == [AdvanceTimer, SelectOffer(0)];
    assert es[1..][1..][1..][1..][1..] == [SelectOffer(0)];
    assert Run(w5, [SelectOffer(0)], guarded) == Continue(w6);
    InitSatisfiesInv(id);
    assert AmountOnGrid(w6.amount) && TenureOnGrid(w6.tenure);
  }

  /** From mount, the double click lands on step 5 as written and on step 4
      with the corrected gate. */
  lemma DoubleClickPathOutcome(id: string)
    ensures var r := Run(Init(id), DoubleClickPath, false);
            r.Continue? && r.w.step == 5 && !r.w.success
    ensures var r := Run(Init(id), DoubleClickPath, true);
            r.Continue? && r.w.step == 4
  {
    var tail := [Next, Next, AdvanceTimer, AdvanceTimer];
    ReachStepThreeOutcome(id, false);
    RunAppend(Init(id), ReachStepThree, tail, false);
    AsWrittenDoubleClickReachesStepFive(Run(Init(id), ReachStepThree, false).w);
    ReachStepThreeOutcome(id, true);
    RunAppend(Init(id), ReachStepThree, tail, true);
    GuardedDoubleClickStopsAtFour(Run(Init(id), ReachStepThree, true).w);
  }
}
