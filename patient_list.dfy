/** The prenatal-care patient list of `components/CPNList.tsx`: the search filter over
    the loaded patients, the colour of the risk badge, and the empty state. Avatar
    initials are `Strings.Initials`. */
module PatientList {
  import opened Types
  import opened Seqs
  import opened Strings

  /** The name test: the lower-cased name contains the lower-cased term. */
  predicate NameMatches(p: Patient, term: string) {
    Contains(Lower(p.name), Lower(term))
  }

  /** The search predicate: the name test, or the phone number containing the term as
      typed. */
  predicate Matches(p: Patient, term: string) {
    NameMatches(p, term) || Contains(p.phone, term)
  }

  function MatchTest(term: string): Patient -> bool {
    p => Matches(p, term)
  }

  /** `patients.filter(...)` with the search term. */
  function FilteredPatients(patients: seq<Patient>, term: string): seq<Patient> {
    Filter(patients, MatchTest(term))
  }

  /** The list shows exactly the loaded patients that match, each as often as it was
      loaded, in loading order. */
  lemma FilteredIsExactly(patients: seq<Patient>, term: string)
    ensures forall p :: p in FilteredPatients(patients, term) <==> p in patients && Matches(p, term)
    ensures forall p ::
      multiset(FilteredPatients(patients, term))[p] == if Matches(p, term) then multiset(patients)[p] else 0
    ensures IsSubsequence(FilteredPatients(patients, term), patients)
  {
    FilterIsExactly(patients, MatchTest(term));
    FilterIsSubsequence(patients, MatchTest(term));
  }

  /** An empty search shows every loaded patient. */
  lemma EmptyTermKeepsAll(patients: seq<Patient>)
    ensures FilteredPatients(patients, "") == patients
  {
    forall i | 0 <= i < |patients| ensures MatchTest("")(patients[i]) {
      ContainsEmpty(patients[i].phone);
    }
    FilterKeepsAll(patients, MatchTest(""));
  }

  /** The name test ignores the case of the term. */
  lemma NameMatchIgnoresCase(p: Patient, term: string)
    ensures NameMatches(p, Lower(term)) <==> NameMatches(p, term)
  {
    LowerIdempotent(term);
  }

  /** Typing more characters never brings a patient back: whoever matches the longer
      term matches its beginning. */
  lemma LongerTermNarrows(patients: seq<Patient>, term: string, more: string)
    ensures forall p :: p in FilteredPatients(patients, term + more) ==> p in FilteredPatients(patients, term)
  {
    FilteredIsExactly(patients, term + more);
    FilteredIsExactly(patients, term);
    forall p | Matches(p, term + more) ensures Matches(p, term) {
      LowerConcat(term, more);
      if NameMatches(p, term + more) {
        ContainsPrefixOfSub(Lower(p.name), Lower(term), Lower(more));
      } else {
        ContainsPrefixOfSub(p.phone, term, more);
      }
    }
  }

  const HighStyle := "bg-red-100 text-red-700 border-red-200"
  const MediumStyle := "bg-orange-100 text-orange-700 border-orange-200"
  const DefaultStyle := "bg-emerald-100 text-emerald-700 border-emerald-200"

  /** `getRiskStyles(level)`: red for "HIGH", orange for "MEDIUM", emerald for any
      other string. */
  function RiskStyles(level: string): (style: string)
    ensures style == HighStyle <==> level == "HIGH"
    ensures style == MediumStyle <==> level == "MEDIUM"
    ensures style == DefaultStyle <==> level != "HIGH" && level != "MEDIUM"
  {
    if level == "HIGH" then HighStyle
    else if level == "MEDIUM" then MediumStyle
    else DefaultStyle
  }

  /** The three stored risk levels get three different colours, and a low risk looks
      like an unknown one. */
  lemma RiskStylesOfLevels(a: RiskLevel, b: RiskLevel, other: string)
    requires ParseRiskLevel(other).None?
    ensures RiskStyles(RiskLevelCode(a)) == RiskStyles(RiskLevelCode(b)) <==> a == b
    ensures RiskStyles(RiskLevelCode(Low)) == RiskStyles(other)
  {
  }

  /** "Aucune patiente trouvée": loading finished and nothing matches. */
  function ShowsNoPatientFound(isLoading: bool, filtered: seq<Patient>): (shown: bool)
    ensures shown <==> !isLoading && forall p :: p !in filtered
  {
    assert |filtered| > 0 ==> filtered[0] in filtered;
    !isLoading && |filtered| == 0
  }

  /** Once loaded, the empty state shows exactly when no loaded patient matches the
      search. */
  lemma EmptyStateMeansNoMatch(patients: seq<Patient>, term: string)
    ensures ShowsNoPatientFound(false, FilteredPatients(patients, term)) <==>
      forall p :: p in patients ==> !Matches(p, term)
  {
    FilteredIsExactly(patients, term);
  }

  /** With an empty search the empty state means nothing is stored. */
  lemma EmptyStateWithoutSearch(patients: seq<Patient>)
    ensures ShowsNoPatientFound(false, FilteredPatients(patients, "")) <==> patients == []
  {
    EmptyTermKeepsAll(patients);
  }
}
