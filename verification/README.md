# Loan portal: a Dafny model of its screen logic

The portal is a single-page React application for Indian borrowers. The
user enters a mobile number and a PAN and confirms a four-cell OTP. A mock
CIBIL score is then derived from the PAN, and a dashboard shows the score
band and a portfolio of five seeded loans. The portfolio can be filtered
and has reminder bells and an annual-savings banner. From the dashboard the
user can open a refinance ("switch") screen for a switchable loan, or go
through a four-step application wizard for a new loan. A finished
application is put at the head of the session's application list.

This project restates that logic as immutable datatypes and pure
transition functions, one module per source component:

- `Types` (types.ts): view states, loan kinds, loans, offers, applications.
- `StepIndicator` (components/StepIndicator.tsx): the three-step progress bar.
- `LoanCard` (components/LoanCard.tsx): what a portfolio card shows and which
  action it exposes.
- `DashboardView` (components/Dashboard.tsx): score bands, the reminder toggle,
  the portfolio filter, the savings banner, and the intro loader.
- `SwitchOfferPage` (components/SwitchOfferPage.tsx): lender choice, the
  confirmation and success modals, and the savings figures.
- `NewLoanApplication` (components/NewLoanApplication.tsx): the sliders, the
  wizard steps with their gates and delays, and the finished application.
- `App` (App.tsx): the session state, every handler, which component is
  mounted, and a single `Dispatch` over all user and timer events. A flag
  selects the program as written or the program with the two corrections
  listed under "Findings". The session invariant is proved for every event
  of the corrected program. For the program as written, both defects are
  shown to be reachable from startup.

Delays (`setTimeout`) become explicit timer events. A count of pending
timers is kept, and the events may arrive in any interleaving with clicks.
A click on a button that is disabled or not drawn leaves the state
unchanged. So does a click on a button that a higher layer covers. From
bottom to top the layers are the screen with its navbar (z-index 40), the
side menu (60 and 70), and the switch screen's modals (100). Interest
rates are integer hundredths of a percent (10.75 % is `1075`). Lender ratings are integer tenths (4.8 is `48`).

## Model

| member | source | states |
|---|---|---|
| Types.ViewStateIsClosed | types.ts:1-7 | the application has exactly five screens |
| Types.CreditCardIsOnlyCard | types.ts:9-15 | of the five loan kinds only the credit card counts as a card |
| Types.Min | components/NewLoanApplication.tsx:96 | the smaller of two amounts, bounded by both and equal to one of them |
| StepIndicator.IndexOf | components/StepIndicator.tsx:17-18 | the position of the first occurrence of a screen in the step order, or -1 exactly when it is absent |
| StepIndicator.GetStepStatus | components/StepIndicator.tsx:15-23 | a step in the flow is active exactly when it is the current screen |
| StepIndicator.StatusFollowsPosition | components/StepIndicator.tsx:15-23 | for a screen in the flow, earlier steps are completed, the current one is active and later ones are pending |
| StepIndicator.OffFlowAllPending | components/StepIndicator.tsx:15-23 | on a screen outside the three-step flow every step is pending |
| LoanCard.Render | components/LoanCard.tsx:13-129 | a card shows the new-rate banner, the savings box and a switch button carrying the loan exactly when the loan is flagged switchable and has an offer; otherwise it shows the current-rate badge and an upload button carrying the loan id; the bell always carries the id and lights when a reminder is set |
| LoanCard.SwitchAndUploadExclusive | components/LoanCard.tsx:108-129 | each card has exactly one of the switch and upload actions, and a switch click only ever hands over a switchable loan with an offer |
| DashboardView.GetScoreConfig | components/Dashboard.tsx:16-21 | the band chosen for a score is the unique band whose range contains it (750+, 650-749, 550-649, below 550) |
| DashboardView.ScoreConfigMonotone | components/Dashboard.tsx:16-21 | a higher score never gets a worse band |
| DashboardView.VipIsExcellentBand | components/Dashboard.tsx:29-30 | the VIP badge shows exactly when the score is in the Excellent band |
| DashboardView.ToggleReminder | components/Dashboard.tsx:49-51 | the portfolio keeps its length and order; exactly the loans with the clicked id flip their reminder and nothing else about any loan changes |
| DashboardView.ToggleTwiceIsIdentity | components/Dashboard.tsx:49-51 | clicking the same bell twice restores the portfolio |
| DashboardView.ToggleUnknownIdIsNoop | components/Dashboard.tsx:49-51 | a bell click for an id not in the portfolio changes nothing |
| DashboardView.FilterLoans | components/Dashboard.tsx:57-61 | the filtered list holds exactly the portfolio's loans that the filter keeps |
| DashboardView.FilterKeepsOrder | components/Dashboard.tsx:57-61 | filtering a concatenation is the concatenation of the filtered parts, so relative order is kept |
| DashboardView.FilterAllIsIdentity | components/Dashboard.tsx:57-61 | the "All" filter shows the whole portfolio |
| DashboardView.CardsAndLoansPartition | components/Dashboard.tsx:57-61 | the "Cards" and "Loans" filters split the portfolio: together they hold every loan exactly once |
| DashboardView.FilterIdempotent | components/Dashboard.tsx:57-61 | applying a filter again changes nothing |
| DashboardView.OfferSavings | components/Dashboard.tsx:109 | a loan's contribution to the banner is its offer's monthly savings, and 0 for a loan without an offer |
| DashboardView.TotalMonthlySavings | components/Dashboard.tsx:109 | the monthly total is 0 for an empty portfolio and a loan's own contribution for a single loan (with `SavingsAppend` this fixes it for every list) |
| DashboardView.AnnualSavings | components/Dashboard.tsx:109 | the banner is always a multiple of 12; it shows 0 when no loan has an offer, and a non-negative figure when no offer's savings are negative |
| DashboardView.AnnualSavingsAdds | components/Dashboard.tsx:109 | the banner is 0 for an empty portfolio, twelve times a loan's offer savings for a single loan, and adds up over concatenated portfolios, which fixes its value as twelve times the sum of the offers' monthly savings |
| DashboardView.SavingsBounds | components/Dashboard.tsx:109 | the monthly total is 0 when no loan has an offer, and non-negative when no offer's savings are negative |
| DashboardView.SavingsAppend | components/Dashboard.tsx:109 | the monthly total over a concatenation is the sum of the totals of its parts |
| DashboardView.ToggleKeepsSavings | components/Dashboard.tsx:49-51 | setting or clearing reminders never changes the savings banner |
| DashboardView.Mount | components/Dashboard.tsx:25-40 | a freshly mounted dashboard shows the "All" filter; it shows the score exactly when skipIntro is set, shows the loader otherwise, and a loader always has its 2.5 s timer armed |
| DashboardView.IntroTimerFired | components/Dashboard.tsx:34-37 | the intro timer hides the loader and reveals the score |
| DashboardView.SkipIntroRaisedAsWritten | components/Dashboard.tsx:32-40 | a skipIntro change clears the pending intro timer and schedules nothing |
| DashboardView.SkipIntroAsWrittenStrandsLoader | components/Dashboard.tsx:32-40 | with the reaction as written, a dashboard mounted with its loader that then sees skipIntro raised keeps the loader with no timer left to end it |
| DashboardView.SkipIntroRaised | components/Dashboard.tsx:25-40 | corrected reaction: raising skipIntro on a mounted dashboard ends the loader and shows the score, as a skip-intro mount would |
| DashboardView.LoaderAlwaysCanEnd | components/Dashboard.tsx:25-40 | under the corrected reaction, after a mount, a timer or a skipIntro change, the loader is either gone or has a timer pending to end it |
| SwitchOfferPage.Init | components/SwitchOfferPage.tsx:47-49 | the screen opens with both modals closed and no lender selected |
| SwitchOfferPage.Step | components/SwitchOfferPage.tsx:51-80 | picking a lender selects it and opens the confirmation; cancelling keeps the lender and closes the modal; the confirm timer replaces the confirmation by the success modal; the screen is left exactly by the success modal's button (reporting success) or by the header arrow while no modal is open (reporting no success) |
| SwitchOfferPage.InitSatisfiesInv | components/SwitchOfferPage.tsx:47-49 | the initial screen has no open modal without a lender |
| SwitchOfferPage.StepPreservesInv | components/SwitchOfferPage.tsx:51-63 | every event keeps the lender in the catalog, never opens the confirmation without a lender, and never shows both modals |
| SwitchOfferPage.SuccessPathReportsSuccess | components/SwitchOfferPage.tsx:51-67 | pick, confirm, let the timer fire, press the success button: the screen reports success |
| SwitchOfferPage.CancelKeepsPendingConfirm | components/SwitchOfferPage.tsx:56-63 | cancelling after confirming does not stop the scheduled timer, so the success modal still opens |
| SwitchOfferPage.MonthlySavings | components/SwitchOfferPage.tsx:69 | the figure is never 0: the offer's savings when they are non-zero, otherwise 5600 |
| SwitchOfferPage.TotalSavings | components/SwitchOfferPage.tsx:70 | the total is a non-zero multiple of 215 that divided by 215 gives back the monthly figure, and is positive when the monthly figure is |
| SwitchOfferPage.MonthlySavingsAgreesWithDashboard | components/SwitchOfferPage.tsx:69 | the screen shows the same per-loan savings the dashboard banner adds up, except where the dashboard counts 0 and the screen falls back to 5600 |
| NewLoanApplication.MaxEligibleAmount | components/NewLoanApplication.tsx:48 | the largest maximum amount over the offers: an upper bound of every offer's maximum, attained by one of them; none for an empty list |
| NewLoanApplication.CatalogEligibility | components/NewLoanApplication.tsx:18-22 | the three catalog offers make the user eligible for 15,00,000 |
| NewLoanApplication.RangeInput | components/NewLoanApplication.tsx:179-208 | a slider value lies in its range and on its step grid; below the range it is the minimum, above it the maximum, and inside it the nearest grid value, ties rounding up |
| NewLoanApplication.UploadDocument | components/NewLoanApplication.tsx:78-80 | an upload marks that document as uploaded and leaves every other document as it was |
| NewLoanApplication.UploadIdempotent | components/NewLoanApplication.tsx:78-80 | uploading the same document twice is the same as once |
| NewLoanApplication.FinishApplication | components/NewLoanApplication.tsx:91-101 | a finished application exists exactly when an offer is selected; it carries the wizard's id, the offer's bank, the status Submitted, the given date, and the smaller of the requested amount and the offer's maximum |
| NewLoanApplication.ConfirmTerms | components/NewLoanApplication.tsx:512-518 | the confirm screen shows the smaller of the requested amount and the offer's maximum, and the smaller of the requested tenure and the offer's tenure |
| NewLoanApplication.Apply | components/NewLoanApplication.tsx:65-101 | one event of the wizard with either step-3 gate: the back arrow cancels exactly when the success screen is not shown and does nothing on it; the wizard hands over an application exactly on Finish from the success screen with an offer selected, and that application is the one handleFinish builds |
| NewLoanApplication.StepNeverGoesBack | components/NewLoanApplication.tsx:65-76 | no event moves the wizard to an earlier step |
| NewLoanApplication.NextThenTimerAdvancesOne | components/NewLoanApplication.tsx:65-76 | an enabled Next followed by its timer moves exactly one step forward and ends the loading state |
| NewLoanApplication.StepGates | components/NewLoanApplication.tsx:282-486 | Next is enabled on step 1 only with an income and not loading, on step 2 only when not loading, and on step 3 only with an offer selected |
| NewLoanApplication.AsWrittenDoubleClickReachesStepFive | components/NewLoanApplication.tsx:480-486 | with the step-3 button as written, two clicks before the timer fires lead the wizard to step 5 |
| NewLoanApplication.AsWrittenStepFiveIsStuck | components/NewLoanApplication.tsx:163-491 | on step 5 no step body renders, so the wizard stays stuck |
| NewLoanApplication.InitSatisfiesInv | components/NewLoanApplication.tsx:25-45 | the initial wizard is on step 1, not loading, with slider values on their grids |
| NewLoanApplication.StepPreservesInv | components/NewLoanApplication.tsx:65-101 | with the step-3 button also disabled while loading, every event keeps the wizard on steps 1 to 4 with at most one delay pending, loading exactly while one is pending, a catalog offer from step 4 on, and slider values on their grids |
| NewLoanApplication.RunPreservesInv | components/NewLoanApplication.tsx:65-101 | the same holds after any sequence of events, so the corrected wizard never leaves steps 1 to 4 |
| NewLoanApplication.GuardedDoubleClickStopsAtFour | components/NewLoanApplication.tsx:480-486 | with the corrected button, a double click followed by the timers stops at step 4 |
| NewLoanApplication.SuccessNeedsOfferAndConsent | components/NewLoanApplication.tsx:82-101 | the success screen is reached only by the finalize timer with an offer selected; a submit that acts needs consent and an offer; the wizard hands over an application only from the success screen's Finish button |
| NewLoanApplication.CompletedApplicationIsEligible | components/NewLoanApplication.tsx:91-101 | an application is handed over only by Finish on the success screen with an offer selected; it carries the wizard's id, the status Submitted and a catalog lender's name, and asks for at least the slider minimum and at most the request, the chosen offer's maximum and the eligibility ceiling |
| NewLoanApplication.ConsentCanBeWithdrawnInFlight | components/NewLoanApplication.tsx:537-549 | the consent box stays clickable during the final delay, so success can be reached with consent unchecked |
| NewLoanApplication.ApplicationIdIsFixed | components/NewLoanApplication.tsx:45 | no event changes the application id drawn at mount, and a finished application carries it |
| NewLoanApplication.RunKeepsApplicationId | components/NewLoanApplication.tsx:45 | the id stays the same over any sequence of events, and an application handed over at the end carries the starting id |
| NewLoanApplication.CompletedCarriesMountId | components/NewLoanApplication.tsx:91-94 | whatever the user does after mount, the application handed over carries the id drawn at mount |
| NewLoanApplication.RunAppend | components/NewLoanApplication.tsx:65-101 | running two event sequences one after the other is running their concatenation |
| NewLoanApplication.ReachStepThreeOutcome | components/NewLoanApplication.tsx:65-76 | from mount, entering an income, passing steps 1 and 2 and picking the first offer leaves the wizard on step 3 with an offer, not loading and nothing in flight |
| NewLoanApplication.DoubleClickPathOutcome | components/NewLoanApplication.tsx:480-486 | from mount, that path followed by a double click on Proceed and both timers ends on step 5 as written and on step 4 with the corrected gate |
| App.Init | App.tsx:79-92 | the session starts on the home screen with an empty OTP of four cells, no user score, the five seeded loans, no applications and the menu closed |
| App.LastChar | App.tsx:137 | the last character of a string, or the empty string for an empty one |
| App.HandleStart | App.tsx:131-134 | starting records the mobile number and the PAN, moves to the OTP screen, and keeps the rest of the session |
| App.MockScore | App.tsx:137-138 | the score is 780 exactly when the PAN ends in F or A, and 680 otherwise |
| App.HandleVerifyOtp | App.tsx:136-141 | verifying names the user, sets the score to the mock score of the PAN (780 exactly when it ends in F or A, 680 otherwise, an empty PAN included), keeps the mobile number and the PAN, and opens the dashboard |
| App.VerifyIgnoresOtp | App.tsx:136-141 | any code, even an empty one, verifies the same way |
| App.MockScoreExamples | App.tsx:137-138 | concrete PANs and the scores they get |
| App.SetOtpCell | App.tsx:203-206 | typing into a cell keeps four cells, changes only that cell, and stores at most the last character typed |
| App.HandleSwitchClick | App.tsx:143-146 | a switch click selects that loan and opens the switch screen |
| App.HandleBackFromSwitch | App.tsx:148-151 | leaving the switch screen returns to the dashboard, skipping its intro exactly when the switch succeeded or skipIntro was already set |
| App.HandleNewLoanComplete | App.tsx:153-157 | a completed application is put first in the list, the intro is skipped and the dashboard opens |
| App.HandleBackFromNewLoan | App.tsx:159-162 | leaving the wizard returns to the dashboard with the intro skipped |
| App.HandleMenuNavigation | App.tsx:164-176 | the menu closes; "new-loan" opens the wizard, and any other section opens the dashboard |
| App.HandleLogoClick | App.tsx:178-185 | a scored user past the home and OTP screens goes to the dashboard with the intro skipped and nothing else changed; everyone else goes home with nothing else changed |
| App.LogoClickShortcut | App.tsx:178-185 | the logo leads a scored user off the home and OTP screens to the dashboard with the intro skipped, and leads everyone else home |
| App.Remount | App.tsx:217-219 | entering a screen mounts its component fresh (dashboard with the current skipIntro, switch screen closed, wizard with the new id); staying on a screen keeps the session unchanged, except that a dashboard that stays while skipIntro is raised loses its intro timer, keeping the loader as written and ending it in the corrected version |
| App.InitSatisfiesInv | App.tsx:79-92 | the initial session satisfies the session invariant |
| App.DispatchPreservesInv | App.tsx:131-219 | for the corrected dispatcher only (step-3 button also disabled while loading, loader ended when skipIntro is raised in place), every click and timer keeps four OTP cells, the menu only on screens that draw its trigger, a switchable loan behind the switch screen, a wizard within steps 1 to 4, and a dashboard loader that can still end |
| App.RunPreservesInv | App.tsx:131-219 | the corrected dispatcher keeps the invariant over any sequence of events |
| App.CorrectedSessionStaysSound | App.tsx:131-219 | from startup, the corrected session never shows a wizard outside steps 1 to 4 nor a dashboard loader that no timer will end, whatever the events |
| App.OnlyPathIntoSwitchOffer | App.tsx:143-146 | in both versions, the switch screen is entered only by a switch click on a switchable card of the portfolio, with that card's loan selected |
| App.SkipIntroIsMonotone | App.tsx:148-185 | in both versions, once set, skipIntro is never cleared |
| App.ApplicationsOnlyGrowAtFront | App.tsx:153-157 | in both versions, an event either leaves the application list alone or puts one application at its head |
| App.NewApplicationIsEligible | App.tsx:153-157 | an application is added only by a wizard event on the wizard's success screen with an offer selected; it carries the wizard's id, the status Submitted and a catalog lender's name, and asks for at least the slider minimum and at most the request, the chosen offer's maximum and 15,00,000 |
| App.LoansChangeOnlyByReminder | components/Dashboard.tsx:49-51 | in both versions, the portfolio changes only by a bell click, and then only in the reminder flags |
| App.LogoClickDuringIntro | components/Dashboard.tsx:32-40 | right after OTP verification a logo click keeps the dashboard mounted and raises skipIntro; as written the loader stays and the intro timer no longer changes anything, while the corrected session shows the portfolio |
| App.WizardEvents | App.tsx:219 | each wizard event is delivered to the mounted wizard, in order |
| App.WizardRunLifts | App.tsx:219 | wizard events sent to a mounted wizard with the menu closed run the wizard and change nothing else in the session while it stays open |
| App.WizardDoubleClickThroughSession | components/NewLoanApplication.tsx:480-486 | from startup, verify, open the wizard from the menu, reach step 3 and double-click Proceed: as written the session shows the wizard on step 5, corrected on step 4 |
| App.SwitchModalAboveMenu | components/SwitchOfferPage.tsx:255-305 | a switch-screen modal (z-index 100) lies over the open side menu (60 and 70) and the navbar (40): the menu's close and navigation controls and the logo do nothing, the modal's buttons act as on a closed menu, and the success modal's button still leads to the dashboard with the intro skipped |
| App.MenuAboveSwitchScreen | components/SideMenu.tsx:15-24 | with the menu open and no modal, the switch screen underneath takes no clicks, and the menu can be closed |

## Left out

- EMI and total-interest arithmetic (`calculateEMI` with `Math.pow` over floating point), which feeds the step-1 estimate and the per-offer EMI on step 3: floating point is not modelled, and neither figure changes the wizard's state or the application it hands over.
- Ranking or sorting of lender offers: the source shows them in catalog order and performs no sort.
- The chatbot and the AI service (components/Chatbot.tsx, services/geminiService.ts): foreign network calls, not part of this model.
- Avatar generation, local storage and scrolling to a menu section: I/O side effects with no effect on the session state.
- The landing form (Hero) with its own validation and delay: `Start` takes the mobile number and PAN it hands over.
- Presentational components (Navbar and SideMenu beyond their buttons, LenderMarquee, FeaturesSection, SmartToolSection, TestimonialsSection) and the unused SwitchModal: they keep no state that the core reads.
- The loading-caption text, the insights spinner's 1.5 s delay and the score reveal's 100 ms delay: the intro timer hides the loader and shows the score in one event.
- The random application id and the current date: parameters of the events that need them.
- Timers are allowed to fire in any order relative to each other and to clicks; the real delays (1.5 s, 2 s, 1 s, 2.5 s) only restrict which orders occur, so the model covers a superset.
- Floating-point fields (rates, ratings) are integers in hundredths or tenths; `toFixed` formatting and `tenure/12` year display are presentation.
- The alert of the dashboard's upload button: it changes no state.
- NewLoanApplication.MaxEligibleAmount: `Math.max` over an empty list gives `-Infinity` in the source; here that case is `None`.
- App.Dispatch: layers follow the declared z-indices; the fade-in animation class on the switch screen is defined outside the source files, and a stacking context it might create is not modelled. It has no contract of its own; the lemmas after it state what it guarantees. Its flag `corrected` chooses between the program as written (`false`) and the same program with the wizard's step-3 gate and the dashboard's skipIntro reaction corrected (`true`); the session invariant and `App.CorrectedSessionStaysSound` hold for the corrected program only, and the as-written program is shown to break them (`App.LogoClickDuringIntro`, `App.WizardDoubleClickThroughSession`).
- App.LastChar: works on whole characters, while `slice(-1)` takes the last UTF-16 code unit; the two differ only for a final character outside the Basic Multilingual Plane, which a PAN never has.

## Findings

| source | as written | input that shows it | evidently intended | confidence | as-written member | corrected member |
|---|---|---|---|---|---|---|
| components/NewLoanApplication.tsx:482 | the step-3 "Proceed" button is disabled only while no offer is selected, unlike the step-1, step-2 and step-4 buttons, which are also disabled while loading | select an offer on step 3 and click Proceed twice within the 1.5 s delay; both timers fire and the wizard reaches step 5, where no step body renders | the button is also disabled while loading, so the wizard stays within steps 1 to 4 | not executed | App.WizardDoubleClickThroughSession | App.CorrectedSessionStaysSound |
| components/Dashboard.tsx:32-40 | when skipIntro changes on a mounted dashboard, the effect's cleanup clears the 2.5 s intro timer, and the re-run effect schedules nothing because skipIntro is now set | verify the OTP, then click the logo within 2.5 s; the dashboard stays mounted with skipIntro raised and its loader is never hidden | raising skipIntro ends the loader and shows the score, as a skip-intro mount does | not executed | App.LogoClickDuringIntro | App.CorrectedSessionStaysSound |

Each row also has its halves at component level. For the wizard these are
`NewLoanApplication.AsWrittenDoubleClickReachesStepFive` and
`NewLoanApplication.RunPreservesInv`. For the dashboard they are
`DashboardView.SkipIntroAsWrittenStrandsLoader` and
`DashboardView.SkipIntroRaised`.

Two further behaviours follow the source and are stated as lemmas, not
corrected. First, cancelling the switch confirmation after confirming still
lets the pending timer open the success modal
(`SwitchOfferPage.CancelKeepsPendingConfirm`). Second, the wizard's consent
box can be cleared during the final delay, so an application can complete
without consent being checked at that moment
(`NewLoanApplication.ConsentCanBeWithdrawnInFlight`).
