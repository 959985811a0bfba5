/** Cross-checking extracted facts against the identity and employment services: verdicts, confidence,
    and what bounds on the employer's figure guarantee. Arithmetic is exact. */
module FactChecks {
  import opened Prelude
  import opened Extractor
  import opened PrintedDocuments
  import Decimal
  import Income
  import Pdf

  datatype Verdict = Matched | Contradicted | InsufficientEvidence

  datatype Source = MockKyc | MockEmployer | MockBureau | MockCoreBanking

  datatype Check = Check(source: Source, verdict: Verdict, confidence: real, detail: string)

  datatype KycResult = KycResult(status: string, nameMatchScore: real, addressMatchScore: real, dateOfBirthMatch: bool,
                                 referenceId: string)

  datatype EmploymentResult = EmploymentResult(isEmploymentConfirmed: bool, verifiedAnnualIncome: nat, tenureMonths: nat)

  const MATCH_SCORE_THRESHOLD := 0.8
  const INCOME_DEVIATION_THRESHOLD := 0.2

  function Min(a: real, b: real): real { if a <= b then a else b }

  function Max(a: real, b: real): real { if a >= b then a else b }

  // ---- One check --------------------------------------------------------------------------------

  function CheckIdentity(r: KycResult): Check
  {
    var matched := r.status == "PASS" && r.dateOfBirthMatch
                   && r.nameMatchScore >= MATCH_SCORE_THRESHOLD && r.addressMatchScore >= MATCH_SCORE_THRESHOLD;
    Check(MockKyc, if matched then Matched else Contradicted, Min(r.nameMatchScore, r.addressMatchScore),
          "KYC reference " + r.referenceId)
  }

  /** How far the employer's figure is off, as a part of the declared income. */
  function Deviation(declared: nat, verified: nat): real
    requires declared > 0
  {
    (if verified >= declared then verified - declared else declared - verified) as real / declared as real
  }

  function CheckEmployment(declared: nat, r: EmploymentResult): Check
    requires declared > 0
  {
    var deviation := Deviation(declared, r.verifiedAnnualIncome);
    var matched := r.isEmploymentConfirmed && deviation <= INCOME_DEVIATION_THRESHOLD;
    Check(MockEmployer, if matched then Matched else Contradicted, Max(0.0, 1.0 - Min(deviation, 1.0)),
          "tenure " + Decimal.Show(r.tenureMonths) + " months")
  }

  function NotExtracted(source: Source, detail: string): Check
  {
    Check(source, InsufficientEvidence, 0.0, detail)
  }

  /** An identity matches exactly when the service passes it, the date of birth agrees and both scores
      reach four fifths; it is contradicted otherwise. The confidence is the lower score, so that a
      matched identity is a confident one, and the other way round as far as the scores go. */
  lemma IdentityMatchedIff(r: KycResult)
    ensures var c := CheckIdentity(r);
            && c.source == MockKyc && (c.verdict == Matched || c.verdict == Contradicted)
            && (c.verdict == Matched <==>
                  r.status == "PASS" && r.dateOfBirthMatch && r.nameMatchScore >= 0.8 && r.addressMatchScore >= 0.8)
            && c.confidence <= r.nameMatchScore && c.confidence <= r.addressMatchScore
            && (c.confidence == r.nameMatchScore || c.confidence == r.addressMatchScore)
            && (c.verdict == Matched <==> r.status == "PASS" && r.dateOfBirthMatch && c.confidence >= 0.8)
  {
  }

  /** The two thresholds are one: a deviation of at most a fifth is a confidence of at least four
      fifths. */
  lemma EmploymentMatchedIff(declared: nat, r: EmploymentResult)
    requires declared > 0
    ensures CheckEmployment(declared, r).verdict == Matched <==>
            r.isEmploymentConfirmed && CheckEmployment(declared, r).confidence >= 0.8
    ensures 0.0 <= CheckEmployment(declared, r).confidence <= 1.0
  {
    assert Deviation(declared, r.verifiedAnnualIncome) >= 0.0;
  }

  /** By how many dollars the employer's figure is off. */
  function Off(declared: nat, verified: nat): (off: nat)
    ensures verified == declared + off || verified == declared - off
  {
    if verified >= declared then verified - declared else declared - verified
  }

  /** An employment matches exactly when it is confirmed and the figure is off by at most a fifth of the
      declared income, and is contradicted otherwise. The confidence is what is left of one when the
      relative deviation is taken away, and nothing when the figure is off by the whole or more. */
  lemma EmploymentExact(declared: nat, r: EmploymentResult)
    requires declared > 0
    ensures var c, off := CheckEmployment(declared, r), Off(declared, r.verifiedAnnualIncome);
            && c.source == MockEmployer && (c.verdict == Matched || c.verdict == Contradicted)
            && (c.verdict == Matched <==> r.isEmploymentConfirmed && 5 * off <= declared)
            && (off >= declared ==> c.confidence == 0.0)
            && (off < declared ==> c.confidence * declared as real == (declared - off) as real)
  {
    var whole, off := declared as real, Off(declared, r.verifiedAnnualIncome);
    var q := Deviation(declared, r.verifiedAnnualIncome);
    Quotient(off as real, whole);
    AtMostAFifth(off as real, whole);
    hide Deviation, Decimal.Show;
    assert CheckEmployment(declared, r).confidence == Max(0.0, 1.0 - Min(q, 1.0));
  }

  lemma Quotient(off: real, whole: real)
    requires off >= 0.0 && whole > 0.0
    ensures off / whole >= 0.0 && (off >= whole <==> off / whole >= 1.0)
    ensures (1.0 - off / whole) * whole == whole - off
  {
    var q := off / whole;
    assert q * whole == off;
    WholeOrMore(q, whole);
    Distributes(q, whole);
  }

  lemma Distributes(q: real, whole: real)
    ensures (1.0 - q) * whole == whole - q * whole
  {
  }

  lemma WholeOrMore(q: real, whole: real)
    requires whole > 0.0
    ensures q * whole >= whole <==> q >= 1.0
  {
    if q >= 1.0 {
      Scale(1.0, q, whole);
    } else {
      assert (1.0 - q) * whole > 0.0;
    }
  }

  // ---- The employer's figure --------------------------------------------------------------------

  function Times(declared: nat, multiplier: real): real
  {
    declared as real * multiplier
  }

  /** The income an employer confirms: a multiple of the declared one, cut to whole dollars. */
  function VerifiedIncome(declared: nat, multiplier: real): (income: nat)
    requires multiplier >= 0.0
    ensures income as real <= Times(declared, multiplier) < income as real + 1.0
  {
    assert Times(declared, multiplier) >= 0.0;
    Times(declared, multiplier).Floor
  }

  lemma DeviationAtMost(declared: nat, verified: nat)
    requires declared > 0
    ensures Deviation(declared, verified) <= INCOME_DEVIATION_THRESHOLD
            <==> 4 * declared <= 5 * verified <= 6 * declared
  {
    var off := if verified >= declared then verified - declared else declared - verified;
    AtMostAFifth(off as real, declared as real);
  }

  lemma AtMostAFifth(off: real, whole: real)
    requires whole > 0.0
    ensures off / whole <= INCOME_DEVIATION_THRESHOLD <==> 5.0 * off <= whole
  {
    var q := off / whole;
    assert q * whole == off;
    if q <= 0.2 {
      Scale(q, 0.2, whole);
    } else {
      assert (q - 0.2) * whole > 0.0;
    }
  }

  lemma Scale(a: real, b: real, c: real)
    requires a <= b && c >= 0.0
    ensures a * c <= b * c && c * a <= c * b
  {
  }

  /** The honest range always matches, from five dollars of income up, and from there only: below it
      some multiplier in the range is contradicted. */
  lemma HonestRangeMatchesIff(declared: nat, confirmed: EmploymentResult)
    requires declared > 0 && confirmed.isEmploymentConfirmed
    ensures declared >= 5 <==>
            forall u: real :: 0.95 <= u <= 1.05 ==>
              CheckEmployment(declared, confirmed.(verifiedAnnualIncome := VerifiedIncome(declared, u))).verdict == Matched
  {
    if declared >= 5 {
      forall u: real | 0.95 <= u <= 1.05
        ensures CheckEmployment(declared, confirmed.(verifiedAnnualIncome := VerifiedIncome(declared, u))).verdict == Matched
      {
        HonestIncome(declared, u);
        DeviationAtMost(declared, VerifiedIncome(declared, u));
      }
    } else {
      var v := VerifiedIncome(declared, 0.95);
      assert v as real <= Times(declared, 0.95);
      assert v < declared;
      DeviationAtMost(declared, v);
      assert CheckEmployment(declared, confirmed.(verifiedAnnualIncome := v)).verdict == Contradicted;
    }
  }

  lemma AtLeast(declared: nat, u: real)
    requires u >= 0.95
    ensures 20.0 * Times(declared, u) >= 19.0 * declared as real
  {
    Scale(0.95, u, declared as real);
  }

  lemma AtMost(declared: nat, u: real)
    requires u <= 1.05
    ensures 20.0 * Times(declared, u) <= 21.0 * declared as real
  {
    Scale(u, 1.05, declared as real);
  }

  lemma HonestIncome(declared: nat, u: real)
    requires declared >= 5 && 0.95 <= u <= 1.05
    ensures 4 * declared <= 5 * VerifiedIncome(declared, u) <= 6 * declared
  {
    hide Times;
    AtLeast(declared, u);
    AtMost(declared, u);
    WholeBounds(declared, VerifiedIncome(declared, u), Times(declared, u));
  }

  lemma WholeBounds(declared: nat, v: nat, product: real)
    requires declared >= 5 && v as real <= product < v as real + 1.0
    requires 19.0 * declared as real <= 20.0 * product <= 21.0 * declared as real
    ensures 4 * declared <= 5 * v <= 6 * declared
  {
    assert 20.0 * v as real <= 21.0 * declared as real;
    assert 20.0 * v as real + 20.0 > 19.0 * declared as real;
    assert 20 * v <= 21 * declared;
    assert 20 * v + 20 > 19 * declared;
  }

  /** A mismatching employer is always found out. */
  lemma MismatchIsContradicted(declared: nat, u: real, r: EmploymentResult)
    requires declared > 0 && 0.4 <= u <= 0.7
    requires r.verifiedAnnualIncome == VerifiedIncome(declared, u)
    ensures CheckEmployment(declared, r).verdict == Contradicted
  {
    hide Times;
    AtMostSeventy(declared, u);
    WellBelow(declared, r.verifiedAnnualIncome, Times(declared, u));
    DeviationAtMost(declared, r.verifiedAnnualIncome);
  }

  lemma AtMostSeventy(declared: nat, u: real)
    requires u <= 0.7
    ensures 10.0 * Times(declared, u) <= 7.0 * declared as real
  {
    Scale(u, 0.7, declared as real);
  }

  lemma WellBelow(declared: nat, v: nat, product: real)
    requires declared > 0 && v as real <= product && 10.0 * product <= 7.0 * declared as real
    ensures 5 * v < 4 * declared
  {
    assert 10.0 * v as real <= 7.0 * declared as real;
    assert 10 * v <= 7 * declared;
  }

  // ---- All checks -------------------------------------------------------------------------------

  /** The fact of a type; the last one when several documents have reported it. */
  function FactBy(facts: seq<Fact>, t: FactType): Option<Fact>
  {
    if facts == [] then None
    else if facts[|facts| - 1].factType == t then Some(facts[|facts| - 1])
    else FactBy(facts[..|facts| - 1], t)
  }

  /** When several documents have reported a type of fact, the last report counts. */
  lemma {:induction false} FactByIsLast(facts: seq<Fact>, t: FactType)
    ensures FactBy(facts, t).None? <==> forall i :: 0 <= i < |facts| ==> facts[i].factType != t
    ensures forall i :: 0 <= i < |facts| && facts[i].factType == t && (forall j :: i < j < |facts| ==> facts[j].factType != t) ==>
              FactBy(facts, t) == Some(facts[i])
  {
    if facts != [] {
      FactByIsLast(facts[..|facts| - 1], t);
    }
  }

  function DeclaredIncome(facts: seq<Fact>): Option<nat>
  {
    match FactBy(facts, GrossMonthlyIncome)
    case None => None
    case Some(f) => Income.DeclaredAnnual(f.normalized)
  }

  /** The facts an identity check needs. */
  predicate CanCheckIdentity(facts: seq<Fact>)
  {
    FactBy(facts, SyntheticId).Some? && FactBy(facts, StreetAddress).Some? && FactBy(facts, City).Some?
  }

  /** The facts an employment check needs. An income of zero counts as none. */
  predicate CanCheckEmployment(facts: seq<Fact>)
  {
    && FactBy(facts, SyntheticId).Some? && FactBy(facts, EmployerName).Some?
    && DeclaredIncome(facts).Some? && DeclaredIncome(facts).value > 0
  }

  /** The checks of one run, and the services asked on the way. There is always one identity check and
      one employment check, in this order. */
  method RunChecks(facts: seq<Fact>, kyc: KycResult, employment: EmploymentResult)
    returns (checks: seq<Check>, snapshots: seq<Source>)
    ensures |checks| == 2 && checks[0].source == MockKyc && checks[1].source == MockEmployer
    ensures checks[0].verdict == InsufficientEvidence <==> !CanCheckIdentity(facts)
    ensures checks[1].verdict == InsufficientEvidence <==> !CanCheckEmployment(facts)
    ensures CanCheckIdentity(facts) ==> checks[0] == CheckIdentity(kyc)
    ensures CanCheckEmployment(facts) ==> checks[1] == CheckEmployment(DeclaredIncome(facts).value, employment)
    ensures forall c :: c in checks && c.verdict == Matched ==> c.confidence >= 0.8
    ensures forall c :: c in checks && c.verdict == InsufficientEvidence ==> c.confidence == 0.0
    ensures MockKyc in snapshots <==> CanCheckIdentity(facts)
    ensures MockEmployer in snapshots <==> CanCheckEmployment(facts)
    ensures MockBureau in snapshots <==> FactBy(facts, SyntheticId).Some?
    ensures MockCoreBanking in snapshots <==>
            FactBy(facts, SyntheticId).Some? && DeclaredIncome(facts).Some? && DeclaredIncome(facts).value > 0
  {
    hide FactBy, Income.DeclaredAnnual, Deviation;
    checks, snapshots := [], [];
    var syntheticId, street, city := FactBy(facts, SyntheticId), FactBy(facts, StreetAddress), FactBy(facts, City);
    var employerName, declared := FactBy(facts, EmployerName), DeclaredIncome(facts);
    if syntheticId.Some? && street.Some? && city.Some? {
      snapshots := snapshots + [MockKyc];
      checks := checks + [CheckIdentity(kyc)];
    } else {
      checks := checks + [NotExtracted(MockKyc, "identity document facts (synthetic ID / address) were not extracted")];
    }
    if syntheticId.Some? && employerName.Some? && declared.Some? && declared.value != 0 {
      EmploymentMatchedIff(declared.value, employment);
      snapshots := snapshots + [MockEmployer];
      checks := checks + [CheckEmployment(declared.value, employment)];
    } else {
      checks := checks + [NotExtracted(MockEmployer, "pay-stub facts (employer / income) were not extracted")];
    }
    if syntheticId.Some? {
      snapshots := snapshots + [MockBureau];
    }
    if syntheticId.Some? && declared.Some? && declared.value != 0 {
      snapshots := snapshots + [MockCoreBanking];
    }
  }

  function Count(checks: seq<Check>, v: Verdict): nat
  {
    if checks == [] then 0
    else Count(checks[..|checks| - 1], v) + if checks[|checks| - 1].verdict == v then 1 else 0
  }

  /** Each check is counted once, under its verdict. */
  lemma {:induction false} CountsAddUp(checks: seq<Check>)
    ensures Count(checks, Matched) + Count(checks, Contradicted) + Count(checks, InsufficientEvidence) == |checks|
    ensures Count(checks, Contradicted) == 0 <==> forall c :: c in checks ==> c.verdict != Contradicted
  {
    if checks != [] {
      var front, last := checks[..|checks| - 1], checks[|checks| - 1];
      CountsAddUp(front);
      assert checks == front + [last];
    }
  }

  // ---- From the printed stub to the verdict -----------------------------------------------------

  /** The whole chain of an honest employer: a stub is printed for an income, its gross pay is read off
      the page, the year is worked out again, and the employer confirms some multiple between 0.95 and
      1.05 of it: the employment check matches, for every income of five dollars or more. */
  lemma HonestStubMatches(employer: string, givenName: string, familyName: string, annual: nat, tenure: nat, page: int,
                          checksum: string, u: real, r: EmploymentResult)
    requires Clean(GROSS, employer) && Clean(GROSS, givenName + " " + familyName)
    requires annual >= 5 && 0.95 <= u <= 1.05
    requires r.isEmploymentConfirmed && r.verifiedAnnualIncome == VerifiedIncome(annual, u)
    ensures var pages := [PageText(page, Pdf.Join(PayStubLines(employer, givenName, familyName, annual, tenure)))];
            var declared := DeclaredIncome(IncomeProofFacts(pages, checksum));
            declared == Some(annual) && CheckEmployment(annual, r).verdict == Matched
  {
    hide FirstFound, Income.DeclaredAnnual, Income.RemoveCommas, Income.Printed, Income.MonthlyCents, PayStubLines, Pdf.Join,
      Clean, GROSS_PAY, EMPLOYER_NAME, TENURE, Piece, Strip, VerifiedIncome, Deviation;
    var pages := [PageText(page, Pdf.Join(PayStubLines(employer, givenName, familyName, annual, tenure)))];
    PayStubGivesIncome(employer, givenName, familyName, annual, tenure, page, checksum);
    OneGrossFact(EmployerFacts(FirstFound(pages, EMPLOYER_NAME), checksum), GrossFacts(FirstFound(pages, GROSS_PAY), checksum)[0],
                 PlainFacts(TenureMonths, FirstFound(pages, TENURE), checksum));
    HonestRangeMatchesIff(annual, r);
    assert r.(verifiedAnnualIncome := VerifiedIncome(annual, u)) == r;
  }

  lemma OneGrossFact(before: seq<Fact>, gross: Fact, after: seq<Fact>)
    requires gross.factType == GrossMonthlyIncome && |after| <= 1
    requires forall f :: f in after ==> f.factType != GrossMonthlyIncome
    ensures FactBy(before + [gross] + after, GrossMonthlyIncome) == Some(gross)
  {
    var facts := before + [gross] + after;
    if after == [] {
      assert facts == before + [gross];
    } else {
      assert facts[..|facts| - 1] == before + [gross];
    }
  }
}
