/** The values the prenatal-care record of `components/CPNForm.tsx` derives from a
    patient when it renders: the national id, the risk badge, the highlighted medical
    history codes, the obstetrical counts, the blood-pressure flag, the evolution rows
    and the tetanus vaccination rows. */
module PatientFile {
  import opened Options
  import opened Types
  import opened Seqs
  import opened Strings
  import PatientList

  /** `PNSR-${patient.id.padStart(6, '0')}`. */
  function NationalId(id: string): (nid: string)
    ensures |nid| == 5 + (if |id| < 6 then 6 else |id|)
    ensures nid[..5] == "PNSR-"
    ensures nid[|nid| - |id|..] == id
    ensures forall i :: 5 <= i < |nid| - |id| ==> nid[i] == '0'
    ensures |id| >= 6 ==> nid == "PNSR-" + id
  {
    "PNSR-" + PadStart(id, 6, '0')
  }

  /** Padding never merges two ids that do not start with '0': the national id
      determines such a patient id. */
  lemma NationalIdInjective(a: string, b: string)
    requires |a| > 0 && |b| > 0 && a[0] != '0' && b[0] != '0'
    requires NationalId(a) == NationalId(b)
    ensures a == b
  {
    var na, nb := NationalId(a), NationalId(b);
    assert |na| - |a| == |nb| - |b|;
  }

  /** Ids that differ only by leading zeros share one national id. */
  lemma LeadingZerosShareNationalId()
    ensures NationalId("42") == NationalId("042") == "PNSR-000042"
  {
  }

  /** The risk badge: "HAUT RISQUE" for a high risk, "RISQUE NORMAL" for the two
      others. */
  function RiskBadge(level: RiskLevel): (badge: string)
    ensures badge == "HAUT RISQUE" <==> level == High
    ensures badge == "RISQUE NORMAL" <==> level != High
  {
    if level == High then "HAUT RISQUE" else "RISQUE NORMAL"
  }

  /** The record and the list agree on which patients are at high risk: the badge says
      so exactly when the list draws the risk in red. */
  lemma RiskBadgeAgreesWithList(level: RiskLevel)
    ensures RiskBadge(level) == "HAUT RISQUE" <==> PatientList.RiskStyles(RiskLevelCode(level)) == PatientList.HighStyle
  {
  }

  function MedicalCodes(): seq<string> {
    ["TB", "HTA", "SCA", "DBT", "CAR", "HMO", "MGF", "RA"]
  }

  /** `patient.antecedents?.medical?.includes(code)`. */
  predicate Highlighted(p: Patient, code: string) {
    p.antecedents.Some? && code in p.antecedents.value.medical
  }

  function HighlightTest(p: Patient): string -> bool {
    code => Highlighted(p, code)
  }

  /** The chips among `codes` drawn in red. */
  function HighlightedAmong(codes: seq<string>, p: Patient): seq<string> {
    Filter(codes, HighlightTest(p))
  }

  /** The chips drawn in red. */
  function HighlightedCodes(p: Patient): seq<string> {
    HighlightedAmong(MedicalCodes(), p)
  }

  /** The red chips are exactly the listed codes present in the medical history; a
      history code outside the list gets no chip, and without antecedents no chip is
      red. */
  lemma HighlightedCodesAreExactly(codes: seq<string>, p: Patient)
    ensures forall c :: c in HighlightedAmong(codes, p) <==>
      c in codes && p.antecedents.Some? && c in p.antecedents.value.medical
    ensures p.antecedents.None? ==> HighlightedAmong(codes, p) == []
  {
    FilterIsExactly(codes, HighlightTest(p));
    if p.antecedents.None? {
      FilterNoneKept(codes, HighlightTest(p));
    }
  }

  datatype ObstetricalCounts = ObstetricalCounts(parity: int, gravidity: int, abortions: int, livingChildren: int)

  /** `patient.antecedents?.obstetrical.x || 0` for the four counts. */
  function DisplayedCounts(p: Patient): (c: ObstetricalCounts)
    ensures p.antecedents.None? ==> c == ObstetricalCounts(0, 0, 0, 0)
    ensures p.antecedents.Some? ==>
      var o := p.antecedents.value.obstetrical;
      c == ObstetricalCounts(o.parity, o.gravidity, o.abortions, o.livingChildren)
  {
    match p.antecedents
    case None => ObstetricalCounts(0, 0, 0, 0)
    case Some(a) =>
      ObstetricalCounts(a.obstetrical.parity, a.obstetrical.gravidity, a.obstetrical.abortions,
                        a.obstetrical.livingChildren)
  }

  /** A blood-pressure cell is drawn in red exactly when its text has a '1' directly
      followed by a '4': a text that starts with "14" is flagged, and a flagged text has
      both a '1' and a '4'. */
  function BpFlagged(bp: string): (flagged: bool)
    ensures flagged <==> exists i :: 0 <= i && i + 1 < |bp| && bp[i] == '1' && bp[i + 1] == '4'
    ensures "14" <= bp ==> flagged
    ensures flagged ==> '1' in bp && '4' in bp
  {
    ContainsPairIff(bp, '1', '4');
    assert "14" == ['1', '4'];
    if Contains(bp, "14") then
      ContainedCharsOccur(bp, "14");
      assert "14"[0] in bp && "14"[1] in bp;
      true
    else
      false
  }

  /** The test is on text, not on pressure: 140/90 is flagged, and so is 114/70, but
      160/110 is not. */
  lemma BpFlagIsTextual()
    ensures BpFlagged("140/90")
    ensures BpFlagged("114/70")
    ensures !BpFlagged("160/110")
  {
    assert "140/90"[0] == '1' && "140/90"[1] == '4';
    assert "114/70"[1] == '1' && "114/70"[2] == '4';
    assert '4' !in "160/110";
  }

  /** `patient.evolution || []`. */
  function EvolutionRows(p: Patient): (rows: seq<EvolutionRecord>)
    ensures p.evolution.None? ==> rows == []
    ensures p.evolution.Some? ==> rows == p.evolution.value
  {
    p.evolution.GetOr([])
  }

  /** The date shown in row "VAT v", for v from 1 to 5:
      `patient.preventiveMeasures?.vatDates[v-1]`, absent when there are no preventive
      measures or fewer than v dates. */
  function VatDate(p: Patient, v: int): (date: Option<string>)
    requires 1 <= v <= 5
    ensures date.Some? <==> p.preventiveMeasures.Some? && v <= |p.preventiveMeasures.value.vatDates|
    ensures date.Some? ==> date.value == p.preventiveMeasures.value.vatDates[v - 1]
  {
    match p.preventiveMeasures
    case None => None
    case Some(m) => if v - 1 < |m.vatDates| then Some(m.vatDates[v - 1]) else None
  }

  /** The five rows show the first five recorded dates, in order, and nothing after
      them; a sixth recorded date is never shown. */
  lemma VatRowsShowFirstFiveDates(p: Patient)
    requires p.preventiveMeasures.Some?
    ensures var dates := p.preventiveMeasures.value.vatDates;
      forall i :: 0 <= i < |dates| && i < 5 ==> VatDate(p, i + 1) == Some(dates[i])
    ensures var dates := p.preventiveMeasures.value.vatDates;
      forall v :: |dates| < v <= 5 ==> VatDate(p, v).None?
  {
  }
}
