/** Portfolio operations of the dashboard (components/Dashboard.tsx): the
    credit-score band, the VIP headline, the reminder toggle, the account
    filter, the aggregate-savings callout and the intro loader. */
module DashboardView {
  import opened Types

  // ---------------------------------------------------------------------------
  // Credit-score band
  // ---------------------------------------------------------------------------

  /** The band label; colours and icons are presentation only. */
  datatype ScoreBand = Excellent | Good | Fair | Poor

  /** Reference definition of the bands as integer ranges. */
  predicate InBand(score: int, b: ScoreBand)
  {
    match b
    case Excellent => 750 <= score
    case Good => 650 <= score < 750
    case Fair => 550 <= score < 650
    case Poor => score < 550
  }

  /** Bands ordered from worst to best. */
  function BandRank(b: ScoreBand): nat
  {
    match b
    case Poor => 0
    case Fair => 1
    case Good => 2
    case Excellent => 3
  }

  /** The score configuration: the first threshold the score reaches. The
      result is the one band whose range holds the score. */
  function GetScoreConfig(score: int): (b: ScoreBand)
    ensures InBand(score, b)
    ensures forall other :: InBand(score, other) ==> other == b
  {
    if score >= 750 then Excellent
    else if score >= 650 then Good
    else if score >= 550 then Fair
    else Poor
  }

  /** A higher score never lands in a worse band. */
  lemma ScoreConfigMonotone(s1: int, s2: int)
    requires s1 <= s2
    ensures BandRank(GetScoreConfig(s1)) <= BandRank(GetScoreConfig(s2))
  {
  }

  /** The VIP headline is shown exactly for the Excellent band. */
  predicate IsVip(score: int)
  {
    score >= 750
  }

  lemma VipIsExcellentBand(score: int)
    ensures IsVip(score) <==> GetScoreConfig(score) == Excellent
  {
  }

  // ---------------------------------------------------------------------------
  // Reminder toggle
  // ---------------------------------------------------------------------------

  /** `a` and `b` agree on every field except perhaps the reminder flag. */
  predicate SameButReminder(a: Loan, b: Loan)
  {
    a.(reminderSet := b.reminderSet) == b
  }

  /** handleToggleReminder: flips `reminderSet` on every loan whose id is
      `id`; an unknown id changes nothing and raises no error. */
  function ToggleReminder(loans: seq<Loan>, id: string): (r: seq<Loan>)
    ensures |r| == |loans|
    ensures forall i :: 0 <= i < |loans| ==> SameButReminder(r[i], loans[i])
    ensures forall i :: 0 <= i < |loans| ==>
              r[i].reminderSet == (if loans[i].id == id then !loans[i].reminderSet else loans[i].reminderSet)
  {
    if |loans| == 0 then []
    else
      var l := loans[0];
      var head := if l.id == id then l.(reminderSet := !l.reminderSet) else l;
      [head] + ToggleReminder(loans[1..], id)
  }

  /** Toggling the same id twice gives back the original list. */
  lemma ToggleTwiceIsIdentity(loans: seq<Loan>, id: string)
    ensures ToggleReminder(ToggleReminder(loans, id), id) == loans
  {
    var once := ToggleReminder(loans, id);
    var twice := ToggleReminder(once, id);
    assert forall i :: 0 <= i < |loans| ==> twice[i] == loans[i] by {
      forall i | 0 <= i < |loans|
        ensures twice[i] == loans[i]
      {
        assert SameButReminder(once[i], loans[i]);
        assert SameButReminder(twice[i], once[i]);
      }
    }
  }

  /** Toggling an id no loan carries leaves the list as it is. */
  lemma ToggleUnknownIdIsNoop(loans: seq<Loan>, id: string)
    requires forall i :: 0 <= i < |loans| ==> loans[i].id != id
    ensures ToggleReminder(loans, id) == loans
  {
    var r := ToggleReminder(loans, id);
    assert forall i :: 0 <= i < |loans| ==> r[i] == loans[i] by {
      forall i | 0 <= i < |loans|
        ensures r[i] == loans[i]
      {
        assert SameButReminder(r[i], loans[i]);
      }
    }
  }

  // ---------------------------------------------------------------------------
  // Account filter
  // ---------------------------------------------------------------------------

  /** The three filter buttons: ALL, LOAN and CARD. */
  datatype Filter = All | LoansOnly | CardsOnly

  predicate Keeps(f: Filter, l: Loan)
  {
    match f
    case All => true
    case CardsOnly => IsCard(l.loanType)
    case LoansOnly => !IsCard(l.loanType)
  }

  /** filteredLoans: the loans the filter keeps, in their original order. */
  function FilterLoans(loans: seq<Loan>, f: Filter): (r: seq<Loan>)
    ensures |r| <= |loans|
    ensures forall l :: l in r <==> l in loans && Keeps(f, l)
  {
    if |loans| == 0 then []
    else
      var rest := FilterLoans(loans[1..], f);
      assert loans == [loans[0]] + loans[1..];
      if Keeps(f, loans[0]) then [loans[0]] + rest else rest
  }

  /** Filtering is a homomorphism over concatenation, i.e. it keeps order. */
  lemma {:induction false} FilterKeepsOrder(a: seq<Loan>, b: seq<Loan>, f: Filter)
    ensures FilterLoans(a + b, f) == FilterLoans(a, f) + FilterLoans(b, f)
  {
    if |a| == 0 {
      assert a + b == b;
    } else {
      assert (a + b)[1..] == a[1..] + b;
      FilterKeepsOrder(a[1..], b, f);
    }
  }

  /** ALL keeps every loan, in order. */
  lemma {:induction false} FilterAllIsIdentity(loans: seq<Loan>)
    ensures FilterLoans(loans, All) == loans
  {
    if |loans| > 0 {
      FilterAllIsIdentity(loans[1..]);
      assert loans == [loans[0]] + loans[1..];
    }
  }

  /** CARD and LOAN split the list: together they hold every loan exactly once. */
  lemma {:induction false} CardsAndLoansPartition(loans: seq<Loan>)
    ensures |FilterLoans(loans, CardsOnly)| + |FilterLoans(loans, LoansOnly)| == |loans|
    ensures multiset(FilterLoans(loans, CardsOnly)) + multiset(FilterLoans(loans, LoansOnly)) == multiset(loans)
  {
    if |loans| > 0 {
      CardsAndLoansPartition(loans[1..]);
      assert loans == [loans[0]] + loans[1..];
    }
  }

  /** Filtering twice with the same filter is filtering once. */
  lemma {:induction false} FilterIdempotent(loans: seq<Loan>, f: Filter)
    ensures FilterLoans(FilterLoans(loans, f), f) == FilterLoans(loans, f)
  {
    if |loans| > 0 {
      FilterIdempotent(loans[1..], f);
    }
  }

  // ---------------------------------------------------------------------------
  // Aggregate savings
  // ---------------------------------------------------------------------------

  /** A loan's contribution: its offer's monthly savings, or 0 without an offer. */
  function OfferSavings(l: Loan): (r: int)
    ensures l.switchOffer.None? ==> r == 0
    ensures l.switchOffer.Some? ==> r == l.switchOffer.value.monthlySavings
  {
    match l.switchOffer
    case Some(o) => o.monthlySavings
    case None => 0
  }

  /** The sum of `OfferSavings` over the list. */
  function TotalMonthlySavings(loans: seq<Loan>): (r: int)
    ensures |loans| == 0 ==> r == 0
    ensures |loans| == 1 ==> r == OfferSavings(loans[0])
  {
    if |loans| == 0 then 0 else OfferSavings(loans[0]) + TotalMonthlySavings(loans[1..])
  }

  /** The "Potential for Annual Savings" figure. */
  function AnnualSavings(loans: seq<Loan>): (r: int)
    ensures (forall i :: 0 <= i < |loans| ==> loans[i].switchOffer.None?) ==> r == 0
    ensures r % 12 == 0
    ensures (forall i :: 0 <= i < |loans| ==> OfferSavings(loans[i]) >= 0) ==> r >= 0
  {
    SavingsBounds(loans);
    12 * TotalMonthlySavings(loans)
  }

  /** The banner is additive over the portfolio and counts each loan's
      offer twelve times; together these fix its value for every list. */
  lemma AnnualSavingsAdds(a: seq<Loan>, b: seq<Loan>, l: Loan)
    ensures AnnualSavings([]) == 0
    ensures AnnualSavings([l]) == 12 * OfferSavings(l)
    ensures AnnualSavings(a + b) == AnnualSavings(a) + AnnualSavings(b)
  {
    SavingsAppend(a, b);
  }

  lemma {:induction false} SavingsBounds(loans: seq<Loan>)
    ensures (forall i :: 0 <= i < |loans| ==> loans[i].switchOffer.None?) ==> TotalMonthlySavings(loans) == 0
    ensures (forall i :: 0 <= i < |loans| ==> OfferSavings(loans[i]) >= 0) ==> TotalMonthlySavings(loans) >= 0
  {
    if |loans| > 0 {
      SavingsBounds(loans[1..]);
    }
  }

  /** The savings total adds up over concatenation. */
  lemma {:induction false} SavingsAppend(a: seq<Loan>, b: seq<Loan>)
    ensures TotalMonthlySavings(a + b) == TotalMonthlySavings(a) + TotalMonthlySavings(b)
  {
    if |a| == 0 {
      assert a + b == b;
    } else {
      assert (a + b)[1..] == a[1..] + b;
      SavingsAppend(a[1..], b);
    }
  }

  /** Toggling a reminder never changes the savings figure. */
  lemma {:induction false} ToggleKeepsSavings(loans: seq<Loan>, id: string)
    ensures TotalMonthlySavings(ToggleReminder(loans, id)) == TotalMonthlySavings(loans)
  {
    if |loans| > 0 {
      ToggleKeepsSavings(loans[1..], id);
    }
  }

  // ---------------------------------------------------------------------------
  // Intro loader
  // ---------------------------------------------------------------------------

  /** The dashboard's own state: the chosen filter, whether the "Analyzing
      your profile" loader is shown, whether the score is revealed, and
      whether the intro timer is still scheduled. */
  datatype DashState = DashState(filter: Filter, initialLoading: bool, showScore: bool, introTimerArmed: bool)

  /** State at mount: the loader runs, with its timer armed, unless the intro
      is skipped, in which case the score shows at once. */
  function Mount(skipIntro: bool): (d: DashState)
    ensures d.filter == All
    ensures d.initialLoading != d.showScore
    ensures d.showScore <==> skipIntro
    ensures d.initialLoading ==> d.introTimerArmed
  {
    DashState(All, !skipIntro, skipIntro, !skipIntro)
  }

  /** The intro timer fires: the loader ends and the score is revealed (the
      100 ms reveal delay is merged into this event). */
  function IntroTimerFired(d: DashState): (r: DashState)
    ensures d.introTimerArmed ==> !r.initialLoading && r.showScore && !r.introTimerArmed
    ensures !d.introTimerArmed ==> r == d
    ensures r.filter == d.filter
  {
    if d.introTimerArmed then d.(initialLoading := false, showScore := true, introTimerArmed := false) else d
  }

  /** `skipIntro` changes from false to true while the dashboard stays
      mounted, as written: the effect's cleanup clears the intro timer and the
      re-run effect, seeing skipIntro true, schedules nothing; the loader
      flag is left as it was. */
  function SkipIntroRaisedAsWritten(d: DashState): (r: DashState)
    ensures !r.introTimerArmed
    ensures r.initialLoading == d.initialLoading && r.showScore == d.showScore
  {
    d.(introTimerArmed := false)
  }

  /** The as-written reaction strands the loader: mounted without skipping,
      then skipped before the timer fires, the dashboard shows the loader with
      no timer left that could end it. */
  lemma SkipIntroAsWrittenStrandsLoader()
    ensures var d := SkipIntroRaisedAsWritten(Mount(false));
            d.initialLoading && !d.introTimerArmed && IntroTimerFired(d) == d
  {
  }

  /** The evident intent: once the intro is skipped the loader ends and the
      score shows, as it would for a dashboard mounted with skipIntro. */
  function SkipIntroRaised(d: DashState): (r: DashState)
    ensures !r.initialLoading && r.showScore && !r.introTimerArmed
    ensures r.filter == d.filter
  {
    d.(initialLoading := false, showScore := true, introTimerArmed := false)
  }

  /** Whether the portfolio (cards and filter buttons) is rendered. */
  predicate PortfolioVisible(d: DashState)
  {
    !d.initialLoading
  }

  /** With the corrected reaction the loader is never stranded: whenever it
      shows, a timer that will end it is armed. */
  predicate LoaderCanEnd(d: DashState)
  {
    d.initialLoading ==> d.introTimerArmed
  }

  lemma LoaderAlwaysCanEnd(d: DashState, skipIntro: bool, f: Filter)
    requires LoaderCanEnd(d)
    ensures LoaderCanEnd(Mount(skipIntro))
    ensures LoaderCanEnd(IntroTimerFired(d))
    ensures LoaderCanEnd(SkipIntroRaised(d))
    ensures LoaderCanEnd(d.(filter := f))
  {
  }
}
