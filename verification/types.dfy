/** The shared vocabulary of the loan portal (types.ts): the screens, the loan
    categories and the records that every component reads or produces.

    Rates and ratings are decimals in the portal (15.5 %, 4.9 stars). The core
    only displays them and never computes with them, so they are kept here as
    integer hundredths of a percent (`...Bp`) and tenths of a star. */
module Types {

  datatype Option<T> = None | Some(value: T)

  /** The five top-level screens. */
  datatype ViewState = Home | Otp | Dashboard | SwitchOffer | NewLoan

  const AllViews: seq<ViewState> := [Home, Otp, Dashboard, SwitchOffer, NewLoan]

  /** The enumeration is closed: every view is one of the five, each listed once. */
  lemma ViewStateIsClosed(v: ViewState)
    ensures v in AllViews
    ensures |AllViews| == 5
    ensures forall i, j :: 0 <= i < j < |AllViews| ==> AllViews[i] != AllViews[j]
  {
  }

  /** Loan categories; the display labels are 'Personal Loan', 'Home Loan',
      'Credit Card', 'Gold Loan' and 'Car Loan'. */
  datatype LoanType = PersonalLoan | HomeLoan | CreditCard | GoldLoan | CarLoan

  const AllLoanTypes: seq<LoanType> := [PersonalLoan, HomeLoan, CreditCard, GoldLoan, CarLoan]

  /** Whether a category is a card account rather than a loan. */
  predicate IsCard(t: LoanType)
  {
    t == CreditCard
  }

  /** Exactly one of the five categories is a card. */
  lemma CreditCardIsOnlyCard(t: LoanType)
    ensures t in AllLoanTypes
    ensures IsCard(t) <==> t == CreditCard
    ensures forall i :: 0 <= i < |AllLoanTypes| && IsCard(AllLoanTypes[i]) ==> i == 2
  {
  }

  /** The refinance proposal optionally attached to a loan. */
  datatype RefinanceOffer = RefinanceOffer(
    newRoiBp: int,
    newBankName: string,
    monthlySavings: int,
    processingFee: int,
    tenureYears: int)

  /** An existing loan account. `canSwitch` and `switchOffer` are independent
      fields: nothing in the type ties one to the other. */
  datatype Loan = Loan(
    id: string,
    bankName: string,
    loanType: LoanType,
    outstandingAmount: int,
    roiBp: int,
    emi: int,
    tenureMonthsRemaining: int,
    nextEmiDate: string,
    reminderSet: bool,
    canSwitch: bool,
    switchOffer: Option<RefinanceOffer>)

  /** The four application statuses; the wizard only ever produces `Submitted`. */
  datatype ApplicationStatus = Submitted | Verification | Approved | Disbursed

  datatype LoanApplication = LoanApplication(
    id: string,
    bankName: string,
    amount: int,
    status: ApplicationStatus,
    date: string)

  datatype UserProfile = UserProfile(
    mobile: string,
    pan: string,
    name: string,
    cibilScore: int)

  /** A catalog entry of a lender; read-only to the core. */
  datatype LenderOffer = LenderOffer(
    id: string,
    bankName: string,
    interestRateBp: int,
    maxAmount: int,
    tenureMonths: int,
    features: seq<string>,
    logoColor: string,
    ratingTenths: int,
    processingFee: int)

  function Min(a: int, b: int): (m: int)
    ensures m <= a && m <= b
    ensures m == a || m == b
  {
    if a <= b then a else b
  }
}
