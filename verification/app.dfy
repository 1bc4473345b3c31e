/** The view orchestrator (App.tsx): the session record, the handlers that
    move between the five screens, and one dispatcher that routes every user
    click or timer to the handler or component it reaches.

    Components are mounted afresh when their screen is entered and keep their
    state while the screen stays; the session carries the state of the
    dashboard, the switch-offer screen and the wizard, meaningful while their
    screen is shown.

    The dispatcher takes a flag `corrected`. With `false` it is the program as
    written: the wizard's step-3 button ignores `loading`, and a dashboard
    that stays mounted while `skipIntro` is raised loses its intro timer.
    With `true` both components are replaced by their corrected versions; the
    session invariant is proved for that dispatcher, and the as-written one is
    shown to break it. */
module App {
  import opened Types
  import LoanCard
  import DashboardView
  import SwitchOfferPage
  import NewLoanApplication

  /** The loan accounts seeded at startup. Rates are in hundredths of a percent. */
  const SeedLoans: seq<Loan> := [
    Loan("1", "HDFC Bank", PersonalLoan, 320000, 1550, 12400, 36, "5th Oct", false, true,
         Some(RefinanceOffer(1040, "IDFC First", 5600, 0, 3))),
    Loan("2", "SBI Home Loans", HomeLoan, 2450000, 890, 22100, 180, "1st Oct", true, true,
         Some(RefinanceOffer(840, "Kotak Mahindra", 3200, 5000, 15))),
    Loan("3", "ICICI Bank", CarLoan, 420000, 950, 9800, 42, "10th Oct", false, false, None),
    Loan("4", "Manappuram Gold", GoldLoan, 150000, 1200, 0, 6, "15th Oct", false, false, None),
    Loan("5", "SBI Card", CreditCard, 45000, 4200, 4500, 0, "12th Oct", true, false, None)
  ]

  /** The placeholder name set by the mock verification. */
  const PlaceholderName := "Rahul Sharma"
  const HighScore := 780
  const StandardScore := 680
  /** The side-menu section that opens the wizard. */
  const NewLoanSection := "new-loan"

  datatype Session = Session(
    view: ViewState,
    otp: seq<string>,
    user: UserProfile,
    loans: seq<Loan>,
    selectedLoan: Option<Loan>,
    menuOpen: bool,
    skipIntro: bool,
    applications: seq<LoanApplication>,
    dashboard: DashboardView.DashState,
    switchPage: SwitchOfferPage.Page,
    wizard: NewLoanApplication.Wizard)

  /** The session at startup. */
  function Init(): (s: Session)
    ensures s.view == Home && s.otp == ["", "", "", ""]
    ensures s.user == UserProfile("", "", "", 0)
    ensures s.loans == SeedLoans && s.selectedLoan.None? && s.applications == []
    ensures !s.skipIntro && !s.menuOpen
  {
    Session(Home, ["", "", "", ""], UserProfile("", "", "", 0), SeedLoans, None, false, false, [],
            DashboardView.Mount(false), SwitchOfferPage.Init(), NewLoanApplication.Init(""))
  }

  // ---------------------------------------------------------------------------
  // Handlers
  // ---------------------------------------------------------------------------

  /** `slice(-1)`: the last character, or the empty string. */
  function LastChar(s: string): (r: string)
    ensures |r| <= 1
    ensures |s| == 0 ==> r == ""
    ensures |s| > 0 ==> r == [s[|s| - 1]]
  {
    if |s| == 0 then "" else s[|s| - 1..]
  }

  /** handleStart: records mobile and PAN and moves to the OTP screen. */
  function HandleStart(s: Session, mobile: string, pan: string): (r: Session)
    ensures r.user.mobile == mobile && r.user.pan == pan
    ensures r.user.name == s.user.name && r.user.cibilScore == s.user.cibilScore
    ensures r.view == Otp
    ensures r.(view := s.view, user := s.user) == s
  {
    s.(user := s.user.(mobile := mobile, pan := pan), view := Otp)
  }

  /** The mock credit score: 780 for a PAN ending in 'F' or 'A', else 680. */
  function MockScore(pan: string): (score: int)
    ensures score == HighScore <==> |pan| > 0 && pan[|pan| - 1] in {'F', 'A'}
    ensures score == HighScore || score == StandardScore
  {
    var lastChar := LastChar(pan);
    if lastChar == "F" || lastChar == "A" then HighScore else StandardScore
  }

  /** handleVerifyOtp: sets the placeholder name and the mock score and moves
      to the dashboard. The OTP cells are not read. */
  function HandleVerifyOtp(s: Session): (r: Session)
    ensures r.user.cibilScore > 0
    ensures r.user.cibilScore == MockScore(s.user.pan)
    ensures r.user.cibilScore == StandardScore <==> !(|s.user.pan| > 0 && s.user.pan[|s.user.pan| - 1] in {'F', 'A'})
    ensures r.user.cibilScore == HighScore <==> |s.user.pan| > 0 && s.user.pan[|s.user.pan| - 1] in {'F', 'A'}
    ensures r.user.name == PlaceholderName
    ensures r.user.mobile == s.user.mobile && r.user.pan == s.user.pan
    ensures r.view == Dashboard
    ensures r.(view := s.view, user := s.user) == s
  {
    s.(user := s.user.(name := PlaceholderName, cibilScore := MockScore(s.user.pan)), view := Dashboard)
  }

  /** Verification ignores the OTP cells: any code gives the same result. */
  lemma VerifyIgnoresOtp(s: Session, code: seq<string>)
    ensures HandleVerifyOtp(s.(otp := code)) == HandleVerifyOtp(s).(otp := code)
  {
  }

  /** The scoring examples: a PAN ending in 'F' scores 780, one ending in 'Z'
      680, and an empty PAN 680. */
  lemma MockScoreExamples()
    ensures MockScore("ABCDE1234F") == 780
    ensures MockScore("ABCDE1234A") == 780
    ensures MockScore("ABCDE1234Z") == 680
    ensures MockScore("") == 680
  {
  }

  /** Typing into OTP cell `idx` keeps only the last character typed. */
  function SetOtpCell(otp: seq<string>, idx: nat, typed: string): (r: seq<string>)
    requires |otp| == 4 && idx < 4
    ensures |r| == 4
    ensures r[idx] == LastChar(typed) && |r[idx]| <= 1
    ensures forall j :: 0 <= j < 4 && j != idx ==> r[j] == otp[j]
  {
    otp[idx := LastChar(typed)]
  }

  /** handleSwitchClick: remembers the loan and opens the switch screen. */
  function HandleSwitchClick(s: Session, loan: Loan): (r: Session)
    ensures r.selectedLoan == Some(loan) && r.view == SwitchOffer
    ensures r.(view := s.view, selectedLoan := s.selectedLoan) == s
  {
    s.(selectedLoan := Some(loan), view := SwitchOffer)
  }

  /** handleBackFromSwitch: back to the dashboard; a successful switch also
      skips the intro, an unsuccessful one leaves the flag alone. */
  function HandleBackFromSwitch(s: Session, success: bool): (r: Session)
    ensures r.view == Dashboard
    ensures success ==> r.skipIntro
    ensures !success ==> r.skipIntro == s.skipIntro
    ensures r.(view := s.view, skipIntro := s.skipIntro) == s
  {
    s.(skipIntro := if success then true else s.skipIntro, view := Dashboard)
  }

  /** handleNewLoanComplete: the new application goes first (newest first),
      the earlier ones follow in their order; the intro is skipped. */
  function HandleNewLoanComplete(s: Session, app: LoanApplication): (r: Session)
    ensures |r.applications| == |s.applications| + 1
    ensures r.applications[0] == app && r.applications[1..] == s.applications
    ensures r.skipIntro && r.view == Dashboard
    ensures r.(applications := s.applications, skipIntro := s.skipIntro, view := s.view) == s
  {
    s.(applications := [app] + s.applications, skipIntro := true, view := Dashboard)
  }

  /** handleBackFromNewLoan: back to the dashboard, skipping the intro. */
  function HandleBackFromNewLoan(s: Session): (r: Session)
    ensures r.skipIntro && r.view == Dashboard
    ensures r.(skipIntro := s.skipIntro, view := s.view) == s
  {
    s.(skipIntro := true, view := Dashboard)
  }

  /** handleMenuNavigation (the screen change; scrolling is left out): closes
      the menu; 'new-loan' opens the wizard from any screen without looking
      at the score, every other section goes to the dashboard. */
  function HandleMenuNavigation(s: Session, sectionId: string): (r: Session)
    ensures !r.menuOpen
    ensures r.view == NewLoan <==> sectionId == NewLoanSection
    ensures r.view != NewLoan ==> r.view == Dashboard
    ensures r.(menuOpen := s.menuOpen, view := s.view) == s
  {
    var closed := s.(menuOpen := false);
    if sectionId == NewLoanSection then closed.(view := NewLoan) else closed.(view := Dashboard)
  }

  /** handleLogoClick: a scored user past onboarding goes to the dashboard
      with the intro skipped; everyone else goes home. */
  function HandleLogoClick(s: Session): (r: Session)
    ensures s.user.cibilScore > 0 && s.view != Home && s.view != Otp ==> r == s.(view := Dashboard, skipIntro := true)
    ensures !(s.user.cibilScore > 0 && s.view != Home && s.view != Otp) ==> r == s.(view := Home)
  {
    if s.user.cibilScore > 0 && s.view != Home && s.view != Otp then s.(view := Dashboard, skipIntro := true)
    else s.(view := Home)
  }

  /** The logo leads to the dashboard, skipping the intro, exactly when a
      score exists and the user is past onboarding; otherwise it leads home
      and nothing else changes. */
  lemma LogoClickShortcut(s: Session)
    ensures var r := HandleLogoClick(s);
            (r.view == Dashboard && r.skipIntro) <==> (s.user.cibilScore > 0 && s.view != Home && s.view != Otp)
    ensures var r := HandleLogoClick(s);
            r.view == Home <==> !(s.user.cibilScore > 0 && s.view != Home && s.view != Otp)
    ensures var r := HandleLogoClick(s);
            r.view == Home ==> r == s.(view := Home)
  {
  }

  /** The menu button is drawn exactly past onboarding. */
  predicate ShowMenuTrigger(v: ViewState)
  {
    v != Home && v != Otp
  }

  // ---------------------------------------------------------------------------
  // Dispatch
  // ---------------------------------------------------------------------------

  /** Everything that can happen: a click, typed input, or a timer firing. */
  datatype Event =
    | Start(mobile: string, pan: string)           // Hero form submitted
    | OtpInput(cell: nat, typed: string)           // an OTP cell edited
    | VerifyOtp                                    // "Verify & See Score"
    | OpenMenu                                     // navbar menu button
    | CloseMenu                                    // overlay, cross or "Close Menu"
    | Navigate(section: string, newAppId: string) // a side-menu item; the id a freshly mounted wizard draws
    | LogoClick
    | IntroTimer                                   // the dashboard's intro timer fires
    | SetFilter(filter: DashboardView.Filter)
    | ToggleReminderClick(loanId: string)          // a card's bell
    | SwitchClick(loan: Loan)                      // a card's "Switch & Save Now"
    | SwitchPageEvent(pageEvent: SwitchOfferPage.Event)
    | WizardEvent(wizardEvent: NewLoanApplication.Event)

  /** The layers, bottom to top: the screen with its navbar, the side menu
      (overlay and drawer), and the switch screen's modals. Whether a modal of
      the switch screen is open; it covers everything, the menu included. */
  predicate SwitchModalOnTop(s: Session)
  {
    s.view == SwitchOffer && SwitchOfferPage.ModalOpen(s.switchPage)
  }

  /** Whether the navbar (logo, menu button) is covered: by the open side
      menu, or by a modal of the switch screen. */
  predicate NavbarCovered(s: Session)
  {
    s.menuOpen || SwitchModalOnTop(s)
  }

  /** Whether the side menu's own controls can be clicked: it is open and no
      switch modal lies over it. */
  predicate MenuClickable(s: Session)
  {
    s.menuOpen && !SwitchModalOnTop(s)
  }

  /** Whether a handler keeps the dashboard mounted while raising `skipIntro`. */
  predicate RaisesSkipIntroInPlace(before: Session, after: Session)
  {
    after.view == before.view && after.view == Dashboard && after.skipIntro && !before.skipIntro
  }

  /** Mounts the component of the screen `after` shows, unless the screen did
      not change, in which case the component keeps its state. A dashboard
      that stays mounted while `skipIntro` is raised reacts to the change:
      as written it only loses its intro timer; corrected, its loader ends. */
  function Remount(before: Session, after: Session, newAppId: string, corrected: bool): (r: Session)
    ensures r.(dashboard := after.dashboard, switchPage := after.switchPage, wizard := after.wizard) == after
    ensures after.view != before.view && after.view == Dashboard ==> r.dashboard == DashboardView.Mount(after.skipIntro)
    ensures after.view != before.view && after.view == SwitchOffer ==> r.switchPage == SwitchOfferPage.Init()
    ensures after.view != before.view && after.view == NewLoan ==> r.wizard == NewLoanApplication.Init(newAppId)
    ensures after.view == before.view && !RaisesSkipIntroInPlace(before, after) ==> r == after
    ensures RaisesSkipIntroInPlace(before, after) ==>
              && r.(dashboard := after.dashboard) == after
              && r.dashboard.filter == after.dashboard.filter
              && !r.dashboard.introTimerArmed
              && (corrected ==> DashboardView.PortfolioVisible(r.dashboard))
              && (!corrected ==> r.dashboard.initialLoading == after.dashboard.initialLoading)
  {
    if after.view == before.view then
      if RaisesSkipIntroInPlace(before, after) then
        if corrected then after.(dashboard := DashboardView.SkipIntroRaised(after.dashboard))
        else after.(dashboard := DashboardView.SkipIntroRaisedAsWritten(after.dashboard))
      else after
    else match after.view
      case Dashboard => after.(dashboard := DashboardView.Mount(after.skipIntro))
      case SwitchOffer => after.(switchPage := SwitchOfferPage.Init())
      case NewLoan => after.(wizard := NewLoanApplication.Init(newAppId))
      case _ => after
  }

  /** Whether the portfolio cards of the dashboard are on screen and clickable. */
  predicate PortfolioClickable(s: Session)
  {
    s.view == Dashboard && !s.menuOpen && DashboardView.PortfolioVisible(s.dashboard)
  }

  /** The cards drawn under the current filter. */
  function VisibleLoans(s: Session): seq<Loan>
  {
    DashboardView.FilterLoans(s.loans, s.dashboard.filter)
  }

  /** One event. Clicks on elements that are not on screen, or that an
      overlay covers, change nothing. `corrected` chooses between the program
      as written and the one with both corrections. */
  function Dispatch(s: Session, e: Event, corrected: bool): Session
  {
    match e
    case Start(mobile, pan) =>
      if s.view == Home then HandleStart(s, mobile, pan) else s
    case OtpInput(cell, typed) =>
      if s.view == Otp && cell < 4 && |s.otp| == 4 then s.(otp := SetOtpCell(s.otp, cell, typed)) else s
    case VerifyOtp =>
      if s.view == Otp then Remount(s, HandleVerifyOtp(s), "", corrected) else s
    case OpenMenu =>
      if ShowMenuTrigger(s.view) && !NavbarCovered(s) then s.(menuOpen := true) else s
    case CloseMenu =>
      if MenuClickable(s) then s.(menuOpen := false) else s
    case Navigate(section, id) =>
      if MenuClickable(s) then Remount(s, HandleMenuNavigation(s, section), id, corrected) else s
    case LogoClick =>
      if !NavbarCovered(s) then Remount(s, HandleLogoClick(s), "", corrected) else s
    case IntroTimer =>
      if s.view == Dashboard then s.(dashboard := DashboardView.IntroTimerFired(s.dashboard)) else s
    case SetFilter(f) =>
      if PortfolioClickable(s) then s.(dashboard := s.dashboard.(filter := f)) else s
    case ToggleReminderClick(id) =>
      if PortfolioClickable(s) && (exists l :: l in VisibleLoans(s) && LoanCard.Render(l).reminderAction == id)
      then s.(loans := DashboardView.ToggleReminder(s.loans, id))
      else s
    case SwitchClick(loan) =>
      if PortfolioClickable(s) && loan in VisibleLoans(s) && LoanCard.Render(loan).switchAction == Some(loan)
      then Remount(s, HandleSwitchClick(s, loan), "", corrected)
      else s
    case SwitchPageEvent(pe) =>
      if s.view == SwitchOffer && s.selectedLoan.Some? && (SwitchOfferPage.IsTimer(pe) || !s.menuOpen || SwitchModalOnTop(s)) then
        match SwitchOfferPage.Step(s.switchPage, pe)
        case Stay(p) => s.(switchPage := p)
        case Leave(success) => Remount(s, HandleBackFromSwitch(s, success), "", corrected)
      else s
    case WizardEvent(we) =>
      if s.view == NewLoan && (NewLoanApplication.IsTimer(we) || !s.menuOpen) then
        match NewLoanApplication.Apply(s.wizard, we, corrected)
        case Continue(w) => s.(wizard := w)
        case Cancelled => Remount(s, HandleBackFromNewLoan(s), "", corrected)
        case Completed(app) => Remount(s, HandleNewLoanComplete(s, app), "", corrected)
      else s
  }

  /** Runs a sequence of events from a session. */
  function Run(s: Session, es: seq<Event>, corrected: bool): Session
    decreases |es|
  {
    if |es| == 0 then s else Run(Dispatch(s, es[0], corrected), es[1..], corrected)
  }

  /** Wizard events, each delivered to the mounted wizard. */
  function WizardEvents(es: seq<NewLoanApplication.Event>): (r: seq<Event>)
    ensures |r| == |es|
    ensures forall i :: 0 <= i < |es| ==> r[i] == WizardEvent(es[i])
  {
    if |es| == 0 then [] else [WizardEvent(es[0])] + WizardEvents(es[1..])
  }

  // ---------------------------------------------------------------------------
  // Session properties
  // ---------------------------------------------------------------------------

  /** The states the session can be in: four OTP cells; the menu is only
      open past onboarding; the switch screen always has a switchable loan;
      the mounted wizard and switch screen are in their valid states; and a
      dashboard loader always has a timer that will end it. */
  predicate Inv(s: Session)
  {
    && |s.otp| == 4
    && (s.menuOpen ==> ShowMenuTrigger(s.view))
    && (s.view == SwitchOffer ==> s.selectedLoan.Some? && LoanCard.IsSwitchable(s.selectedLoan.value))
    && (s.view == SwitchOffer ==> SwitchOfferPage.Inv(s.switchPage))
    && (s.view == NewLoan ==> NewLoanApplication.Inv(s.wizard))
    && (s.view == Dashboard ==> DashboardView.LoaderCanEnd(s.dashboard))
  }

  lemma InitSatisfiesInv()
    ensures Inv(Init())
  {
  }

  /** Every event of the corrected dispatcher keeps the session invariant. */
  lemma DispatchPreservesInv(s: Session, e: Event)
    requires Inv(s)
    ensures Inv(Dispatch(s, e, true))
  {
    match e {
      case SwitchPageEvent(pe) =>
        if s.view == SwitchOffer {
          SwitchOfferPage.StepPreservesInv(s.switchPage, pe);
        }
      case WizardEvent(we) =>
        if s.view == NewLoan {
          NewLoanApplication.StepPreservesInv(s.wizard, we);
        }
      case Navigate(section, id) =>
        NewLoanApplication.InitSatisfiesInv(id);
      case SwitchClick(loan) =>
        SwitchOfferPage.InitSatisfiesInv();
      case _ =>
    }
  }

  /** Any run of the corrected dispatcher keeps the invariant. */
  lemma {:induction false} RunPreservesInv(s: Session, es: seq<Event>)
    requires Inv(s)
    ensures Inv(Run(s, es, true))
    decreases |es|
  {
    if |es| > 0 {
      DispatchPreservesInv(s, es[0]);
      RunPreservesInv(Dispatch(s, es[0], true), es[1..]);
    }
  }

  /** Whatever the user clicks and however the timers interleave, the
      corrected session never shows a wizard outside steps 1 to 4 and never
      shows a dashboard loader that nothing will end. */
  lemma CorrectedSessionStaysSound(es: seq<Event>)
    ensures var r := Run(Init(), es, true);
            && (r.view == NewLoan ==> 1 <= r.wizard.step <= 4)
            && (r.view == Dashboard && r.dashboard.initialLoading ==> r.dashboard.introTimerArmed)
  {
    InitSatisfiesInv();
    RunPreservesInv(Init(), es);
  }

  /** The only way onto the switch screen is the switch button of a card the
      user can see, and that card is switchable. */
  lemma OnlyPathIntoSwitchOffer(s: Session, e: Event, corrected: bool)
    requires s.view != SwitchOffer && Dispatch(s, e, corrected).view == SwitchOffer
    ensures e.SwitchClick? && LoanCard.IsSwitchable(e.loan) && e.loan in s.loans
    ensures Dispatch(s, e, corrected).selectedLoan == Some(e.loan)
  {
  }

  /** `skipIntro` never goes back to false. */
  lemma SkipIntroIsMonotone(s: Session, e: Event, corrected: bool)
    requires s.skipIntro
    ensures Dispatch(s, e, corrected).skipIntro
  {
  }

  /** Applications only grow, newest first: an event either leaves the list
      alone or puts one application in front of it. */
  lemma ApplicationsOnlyGrowAtFront(s: Session, e: Event, corrected: bool)
    ensures var r := Dispatch(s, e, corrected);
            r.applications == s.applications ||
            (|r.applications| == |s.applications| + 1 && r.applications[1..] == s.applications)
  {
  }

  /** The application that reaches the session comes from the wizard's
      success screen: it carries the wizard's id, a catalog lender and the
      status submitted, and asks for at least the slider minimum and at most
      the request, the chosen offer's maximum and the eligibility ceiling. */
  lemma NewApplicationIsEligible(s: Session, e: Event, corrected: bool)
    requires Inv(s)
    requires |Dispatch(s, e, corrected).applications| > |s.applications|
    ensures s.view == NewLoan && e.WizardEvent? && s.wizard.success && s.wizard.selectedOffer.Some?
    ensures var app := Dispatch(s, e, corrected).applications[0];
            && app.status == Submitted
            && app.id == s.wizard.applicationId
            && NewLoanApplication.AmountMin <= app.amount <= s.wizard.amount
            && app.amount <= s.wizard.selectedOffer.value.maxAmount
            && app.amount <= 1500000
            && (exists i :: 0 <= i < |NewLoanApplication.Catalog| && NewLoanApplication.Catalog[i].bankName == app.bankName)
  {
    var we := e.wizardEvent;
    NewLoanApplication.CompletedApplicationIsEligible(s.wizard, we, corrected);
    NewLoanApplication.CatalogEligibility();
  }

  /** Reminder clicks change the loans only in their reminder flags, and only
      reminder clicks change the loans at all. */
  lemma LoansChangeOnlyByReminder(s: Session, e: Event, corrected: bool)
    ensures var r := Dispatch(s, e, corrected);
            |r.loans| == |s.loans| && forall i :: 0 <= i < |s.loans| ==> DashboardView.SameButReminder(r.loans[i], s.loans[i])
    ensures !e.ToggleReminderClick? ==> Dispatch(s, e, corrected).loans == s.loans
  {
  }

  // ---------------------------------------------------------------------------
  // The two defects, reached through the dispatcher as written
  // ---------------------------------------------------------------------------

  /** The session right after OTP verification. */
  function Verified(mobile: string, pan: string, corrected: bool): Session
  {
    Dispatch(Dispatch(Init(), Start(mobile, pan), corrected), VerifyOtp, corrected)
  }

  /** A logo click while the freshly verified user's dashboard still shows
      its loader keeps the dashboard mounted and raises `skipIntro`. As
      written the loader stays and the intro timer no longer ends it; with
      the corrections the portfolio shows at once. */
  lemma LogoClickDuringIntro(mobile: string, pan: string)
    ensures var s := Verified(mobile, pan, false);
            && s.view == Dashboard && !s.skipIntro && s.dashboard.initialLoading
            && var r := Dispatch(s, LogoClick, false);
               && r.view == Dashboard && r.skipIntro
               && r.dashboard.initialLoading && !r.dashboard.introTimerArmed
               && Dispatch(r, IntroTimer, false) == r
    ensures var s := Verified(mobile, pan, true);
            var r := Dispatch(s, LogoClick, true);
            r.view == Dashboard && r.skipIntro && DashboardView.PortfolioVisible(r.dashboard)
  {
  }

  /** Delivering wizard events to a mounted, uncovered wizard runs the
      wizard on them and changes nothing else, as long as it stays open. */
  lemma {:induction false} WizardRunLifts(s: Session, es: seq<NewLoanApplication.Event>, corrected: bool)
    requires s.view == NewLoan && !s.menuOpen
    requires NewLoanApplication.Run(s.wizard, es, corrected).Continue?
    ensures Run(s, WizardEvents(es), corrected) == s.(wizard := NewLoanApplication.Run(s.wizard, es, corrected).w)
    decreases |es|
  {
    if |es| > 0 {
      match NewLoanApplication.Apply(s.wizard, es[0], corrected)
      case Continue(w') =>
        var s' := s.(wizard := w');
        assert Dispatch(s, WizardEvent(es[0]), corrected) == s';
        WizardRunLifts(s', es[1..], corrected);
        assert WizardEvents(es)[1..] == WizardEvents(es[1..]);
      case Cancelled =>
      case Completed(_) =>
    }
  }

  /** The session right after the side menu opened the wizard. */
  function WizardOpened(mobile: string, pan: string, id: string, corrected: bool): Session
  {
    Dispatch(Dispatch(Verified(mobile, pan, corrected), OpenMenu, corrected), Navigate(NewLoanSection, id), corrected)
  }

  /** From a fresh start, the user verifies, opens the wizard from the menu,
      fills step 1, passes step 2, picks an offer and double-clicks
      "Proceed". As written both timers advance and the wizard lands on
      step 5, where nothing is drawn; with the corrections it stops on 4. */
  lemma WizardDoubleClickThroughSession(mobile: string, pan: string, id: string)
    ensures var s := WizardOpened(mobile, pan, id, false);
            && s.view == NewLoan && !s.menuOpen && s.wizard == NewLoanApplication.Init(id)
            && var r := Run(s, WizardEvents(NewLoanApplication.DoubleClickPath), false);
               r.view == NewLoan && r.wizard.step == 5
    ensures var s := WizardOpened(mobile, pan, id, true);
            && s.view == NewLoan && !s.menuOpen && s.wizard == NewLoanApplication.Init(id)
            && var r := Run(s, WizardEvents(NewLoanApplication.DoubleClickPath), true);
               r.view == NewLoan && r.wizard.step == 4
  {
    var s0 := WizardOpened(mobile, pan, id, false);
    NewLoanApplication.DoubleClickPathOutcome(id);
    WizardRunLifts(s0, NewLoanApplication.DoubleClickPath, false);
    var s1 := WizardOpened(mobile, pan, id, true);
    WizardRunLifts(s1, NewLoanApplication.DoubleClickPath, true);
  }

  // ---------------------------------------------------------------------------
  // Layers
  // ---------------------------------------------------------------------------

  /** A switch modal lies over the open side menu: the menu's controls do
      nothing, while the modal's buttons still act, including the success
      modal's way back to the dashboard. */
  lemma SwitchModalAboveMenu(s: Session, pe: SwitchOfferPage.Event, section: string, id: string, corrected: bool)
    requires s.view == SwitchOffer && s.selectedLoan.Some? && s.menuOpen
    requires SwitchOfferPage.ModalOpen(s.switchPage)
    ensures Dispatch(s, CloseMenu, corrected) == s
    ensures Dispatch(s, Navigate(section, id), corrected) == s
    ensures Dispatch(s, LogoClick, corrected) == s
    ensures SwitchOfferPage.Step(s.switchPage, pe).Stay? ==>
              Dispatch(s, SwitchPageEvent(pe), corrected) == s.(switchPage := SwitchOfferPage.Step(s.switchPage, pe).page)
    ensures s.switchPage.showSuccess ==>
              var r := Dispatch(s, SwitchPageEvent(SwitchOfferPage.BackToDashboard), corrected);
              r.view == Dashboard && r.skipIntro
  {
  }

  /** With the menu open and no modal, the switch screen below the menu
      takes no clicks; only its timer still fires. */
  lemma MenuAboveSwitchScreen(s: Session, pe: SwitchOfferPage.Event, corrected: bool)
    requires s.view == SwitchOffer && s.menuOpen && !SwitchOfferPage.ModalOpen(s.switchPage)
    requires !SwitchOfferPage.IsTimer(pe)
    ensures Dispatch(s, SwitchPageEvent(pe), corrected) == s
    ensures !Dispatch(s, CloseMenu, corrected).menuOpen
  {
  }
}
